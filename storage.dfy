/**
  The JSON document stores: a file holding one document that is read,
  changed and written back whole. The message store's document is the list
  of conversation messages, the scratchpad's the list of notes. Timestamps
  are the text the (abstract) clock gives at the moment of the call.
 */
module Storage {
  import opened Wrappers
  import Text

  /** The clock's reading as stored in a document (ISO-8601 text). */
  type Timestamp = string

  datatype Message = Message(timestamp: Timestamp, role: string, content: string)
  datatype Note = Note(timestamp: Timestamp, note: string)

  /** A JSON file holding one document; `None` while the file is absent. */
  class JsonStorage<T> {
    const emptyStructure: T
    var file: Option<T>

    ghost predicate Valid()
      reads this
    {
      file.Some?
    }

    /** Opening a store creates the file with the empty structure when it is
        absent and keeps the document already there otherwise. */
    constructor (emptyStructure: T, onDisk: Option<T>)
      ensures Valid() && this.emptyStructure == emptyStructure
      ensures file == if onDisk.Some? then onDisk else Some(emptyStructure)
    {
      this.emptyStructure := emptyStructure;
      file := onDisk;
      new;
      EnsureFileExists();
    }

    method EnsureFileExists()
      modifies this
      ensures Valid()
      ensures old(file).Some? ==> file == old(file)
      ensures old(file).None? ==> file == Some(emptyStructure)
    {
      if file.None? {
        file := Some(emptyStructure);
      }
    }

    method Read() returns (data: T)
      requires Valid()
      ensures Some(data) == file
    {
      data := file.value;
    }

    method Write(data: T)
      modifies this
      ensures Valid() && file == Some(data)
    {
      file := Some(data);
    }
  }

  /** The conversation history. */
  class MessageStorage {
    const store: JsonStorage<seq<Message>>

    ghost predicate Valid()
      reads this, store
    {
      store.Valid() && store.emptyStructure == []
    }

    function Messages(): seq<Message>
      reads this, store
      requires Valid()
    {
      store.file.value
    }

    constructor (onDisk: Option<seq<Message>>)
      ensures Valid() && fresh(store)
      ensures Messages() == if onDisk.Some? then onDisk.value else []
    {
      store := new JsonStorage([], onDisk);
    }

    /** One message is appended at the end; earlier messages are unchanged. */
    method AddMessage(role: string, content: string, now: Timestamp)
      requires Valid()
      modifies store
      ensures Valid()
      ensures Messages() == old(Messages()) + [Message(now, role, content)]
    {
      var data := store.Read();
      data := data + [Message(now, role, content)];
      store.Write(data);
    }

    /** `get_recent_messages(limit)`: a positive limit gives the last
        `min(limit, n)` messages in their order, a missing or zero limit all of
        them, and a negative limit (Python's `messages[-limit:]`) drops the
        first `-limit`. */
    method GetRecentMessages(limit: Option<int>) returns (recent: seq<Message>)
      requires Valid()
      ensures limit.None? || limit.value == 0 ==> recent == Messages()
      ensures limit.Some? && limit.value > 0 ==>
        |recent| == (if limit.value <= |Messages()| then limit.value else |Messages()|) &&
        recent == Messages()[|Messages()| - |recent|..]
      ensures limit.Some? && limit.value < 0 ==>
        recent == Messages()[if -limit.value <= |Messages()| then -limit.value else |Messages()|..]
    {
      var data := store.Read();
      if limit.Some? && limit.value != 0 {
        recent := Text.SliceFrom(data, -limit.value);
      } else {
        recent := data;
      }
    }

    method ClearMessages()
      requires Valid()
      modifies store
      ensures Valid() && Messages() == []
    {
      store.Write([]);
    }
  }

  /** The scratchpad of notes the decision engine keeps. */
  class ScratchpadStorage {
    const store: JsonStorage<seq<Note>>

    ghost predicate Valid()
      reads this, store
    {
      store.Valid() && store.emptyStructure == []
    }

    function Notes(): seq<Note>
      reads this, store
      requires Valid()
    {
      store.file.value
    }

    constructor (onDisk: Option<seq<Note>>)
      ensures Valid() && fresh(store)
      ensures Notes() == if onDisk.Some? then onDisk.value else []
    {
      store := new JsonStorage([], onDisk);
    }

    /** One note is appended at the end; earlier notes are unchanged. */
    method AddNote(note: string, now: Timestamp)
      requires Valid()
      modifies store
      ensures Valid()
      ensures Notes() == old(Notes()) + [Note(now, note)]
    {
      var data := store.Read();
      data := data + [Note(now, note)];
      store.Write(data);
    }

    /** All notes, in order; the store is not changed. */
    method GetNotes() returns (notes: seq<Note>)
      requires Valid()
      ensures notes == Notes()
    {
      notes := store.Read();
    }

    method ClearNotes()
      requires Valid()
      modifies store
      ensures Valid() && Notes() == []
    {
      store.Write([]);
    }
  }
}
