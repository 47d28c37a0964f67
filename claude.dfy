/**
  The decision-engine call sites: the heartbeat (build the context from the
  notes and the recent conversation, call the engine, act on the blocks of
  its reply) and the direct reply to a user message (concatenate the text
  blocks, send and store the result).

  The engine is a parameter: a function from the request to either a failure
  or a response with token counts and a sequence of content blocks. The
  transport is an outbox object that records what it was asked to send.
  The system prompt text itself is not part of this model.
 */
module Claude {
  import opened Wrappers
  import opened Text
  import Storage
  import UsageTracker

  const NOTES_IN_CONTEXT: int := 10
  const HEARTBEAT_MAX_TOKENS: int := 1024
  const REPLY_MAX_TOKENS: int := 2048
  const PREVIEW_LENGTH: nat := 50

  const NOTES_HEADER: string := "## Your Notes (Scratchpad):"
  const CONVERSATION_HEADER: string := "## Recent Conversation:"
  const NO_HISTORY: string := "(No conversation history yet)"
  const HEARTBEAT_PROMPT: string :=
    "This is a heartbeat check. Review the conversation history and your notes. Decide whether to reach out to Vals or stay silent."
  const SEND_MESSAGE_TOOL: string := "send_message"
  const ASSISTANT: string := "assistant"
  const HEARTBEAT_REQUEST: string := "heartbeat"
  const REPLY_REQUEST: string := "user_response"

  /** What `str(e)` gives for the `KeyError` raised by a `send_message` block
      whose input has no `message`. */
  const MISSING_MESSAGE_ERROR: string := "'message'"

  // ---------------------------------------------------------------------
  // The engine boundary

  datatype Turn = Turn(role: string, content: string)

  /** What is sent to the engine: the token budget, the context appended to
      the system prompt (none: the system prompt alone), the conversation,
      and whether the `send_message` tool is offered. */
  datatype Request = Request(maxTokens: int, context: Option<string>, turns: seq<Turn>, offersSendTool: bool)

  datatype Block = TextBlock(text: string) | ToolUse(name: string, message: Option<string>) | OtherBlock(kind: string)

  datatype Response = Response(inputTokens: int, outputTokens: int, content: seq<Block>)

  datatype Reply = Failed(error: string) | Replied(response: Response)

  /** The conversation window both call sites read with the configured
      context size: `get_recent_messages(limit)`, so `messages[-limit:]`
      unless the limit is zero. */
  function RecentWindow(history: seq<Storage.Message>, limit: int): seq<Storage.Message>
  {
    if limit == 0 then history else SliceFrom(history, -limit)
  }

  /** What `get_recent_messages(limit)` promises is this window. */
  lemma RecentWindowOfStore(history: seq<Storage.Message>, limit: int, recent: seq<Storage.Message>)
    requires limit == 0 ==> recent == history
    requires limit > 0 ==>
      |recent| == (if limit <= |history| then limit else |history|) && recent == history[|history| - |recent|..]
    requires limit < 0 ==> recent == history[if -limit <= |history| then -limit else |history|..]
    ensures recent == RecentWindow(history, limit)
  {
  }

  /** The ledger record of a heartbeat call. */
  function HeartbeatUsage(response: Response, model: string, now: UsageTracker.Instant): UsageTracker.UsageRecord
  {
    UsageTracker.LogRecord(UsageTracker.CalculateCost(model, response.inputTokens, response.outputTokens, now),
                           HEARTBEAT_REQUEST, None)
  }

  /** The ledger record of a direct reply, with the first 50 characters of
      the user's message as its preview. */
  function ReplyUsage(response: Response, model: string, now: UsageTracker.Instant,
                      userMessage: string): UsageTracker.UsageRecord
  {
    UsageTracker.LogRecord(UsageTracker.CalculateCost(model, response.inputTokens, response.outputTokens, now),
                           REPLY_REQUEST, Some(Prefix(userMessage, PREVIEW_LENGTH)))
  }

  /** The messaging transport: every send is recorded in order. */
  class Outbox {
    var sent: seq<string>

    constructor ()
      ensures sent == []
    {
      sent := [];
    }

    method Send(text: string)
      modifies this
      ensures sent == old(sent) + [text]
    {
      sent := sent + [text];
    }
  }

  // ---------------------------------------------------------------------
  // Context building

  function NoteLine(n: Storage.Note): string
  {
    "- [" + n.timestamp + "] " + n.note
  }

  function MessageLine(m: Storage.Message): string
  {
    "[" + m.timestamp + "] " + m.role + ": " + m.content
  }

  function NoteLines(notes: seq<Storage.Note>): seq<string>
  {
    seq(|notes|, i requires 0 <= i < |notes| => NoteLine(notes[i]))
  }

  function MessageLines(messages: seq<Storage.Message>): seq<string>
  {
    seq(|messages|, i requires 0 <= i < |messages| => MessageLine(messages[i]))
  }

  /** The notes part of the context: absent without notes, otherwise a
      header, the last ten notes and an empty line. */
  function NotesSection(notes: seq<Storage.Note>): seq<string>
  {
    if notes == [] then []
    else [NOTES_HEADER] + NoteLines(SliceFrom(notes, -NOTES_IN_CONTEXT)) + [""]
  }

  /** The conversation part: a header, then each message or a placeholder. */
  function ConversationSection(recent: seq<Storage.Message>): seq<string>
  {
    [CONVERSATION_HEADER] + (if recent == [] then [NO_HISTORY] else MessageLines(recent))
  }

  function HeartbeatContextParts(notes: seq<Storage.Note>, recent: seq<Storage.Message>): seq<string>
  {
    NotesSection(notes) + ConversationSection(recent)
  }

  /** The note lines of a non-empty notes section are the shown notes, in
      order. */
  lemma NotesSectionShows(notes: seq<Storage.Note>, tail: seq<Storage.Note>)
    requires notes != [] && tail == SliceFrom(notes, -NOTES_IN_CONTEXT)
    ensures forall k :: 1 <= k <= |tail| ==> NotesSection(notes)[k] == NoteLine(notes[|notes| - |tail| + k - 1])
  {
    var ns := NotesSection(notes);
    var lines := NoteLines(tail);
    assert ns == [NOTES_HEADER] + lines + [""];
    forall k | 1 <= k <= |tail| ensures ns[k] == NoteLine(notes[|notes| - |tail| + k - 1]) {
      assert ns[k] == lines[k - 1] == NoteLine(tail[k - 1]);
      assert tail[k - 1] == notes[|notes| - |tail| + k - 1];
    }
  }

  /** The notes section: absent without notes; otherwise the header, the
      last `min(10, n)` notes in order, and an empty line. */
  lemma NotesSectionLayout(notes: seq<Storage.Note>)
    ensures var ns := NotesSection(notes);
      var shown := if |notes| <= NOTES_IN_CONTEXT then |notes| else NOTES_IN_CONTEXT;
      && |ns| == (if notes == [] then 0 else shown + 2)
      && (notes != [] ==> ns[0] == NOTES_HEADER && ns[shown + 1] == "")
      && (notes != [] ==> forall k :: 1 <= k <= shown ==> ns[k] == NoteLine(notes[|notes| - shown + k - 1]))
  {
    if notes != [] {
      var tail := SliceFrom(notes, -NOTES_IN_CONTEXT);
      assert |tail| == if |notes| <= NOTES_IN_CONTEXT then |notes| else NOTES_IN_CONTEXT;
      NotesSectionShows(notes, tail);
    }
  }

  /** The conversation section: the header, then the placeholder exactly
      when there is no message, and otherwise every message once, in order. */
  lemma ConversationSectionLayout(recent: seq<Storage.Message>)
    ensures var cs := ConversationSection(recent);
      && |cs| == 1 + (if recent == [] then 1 else |recent|)
      && cs[0] == CONVERSATION_HEADER
      && (recent == [] ==> cs[1] == NO_HISTORY)
      && (recent != [] ==> forall k :: 1 <= k < |cs| ==> cs[k] == MessageLine(recent[k - 1]))
  {
  }

  /** No note or message line, header or separator is the placeholder: each
      kind of line is recognisable by its first character. */
  lemma LinesAreNotPlaceholder(notes: seq<Storage.Note>, recent: seq<Storage.Message>)
    ensures NO_HISTORY !in NotesSection(notes)
    ensures NO_HISTORY !in MessageLines(recent)
  {
    var lines := MessageLines(recent);
    forall k | 0 <= k < |lines| ensures lines[k] != NO_HISTORY {
      assert lines[k][0] == '[' != NO_HISTORY[0];
    }
    if notes != [] {
      var noteLines := NoteLines(SliceFrom(notes, -NOTES_IN_CONTEXT));
      forall k | 0 <= k < |noteLines| ensures noteLines[k] != NO_HISTORY {
        assert noteLines[k][0] == '-' != NO_HISTORY[0];
      }
      assert NOTES_HEADER[0] == '#' != NO_HISTORY[0];
      assert NO_HISTORY !in [NOTES_HEADER] + noteLines + [""];
    }
  }

  /** The placeholder is a line of the context on its own exactly when
      there is no recent message. (A message whose content is the
      placeholder text still puts that text inside a longer line.) */
  lemma PlaceholderIffNoHistory(notes: seq<Storage.Note>, recent: seq<Storage.Message>)
    ensures NO_HISTORY in HeartbeatContextParts(notes, recent) <==> recent == []
  {
    LinesAreNotPlaceholder(notes, recent);
    assert CONVERSATION_HEADER[0] == '#' != NO_HISTORY[0];
  }

  lemma NoteLinesSnoc(notes: seq<Storage.Note>, k: nat)
    requires k < |notes|
    ensures NoteLines(notes[..k + 1]) == NoteLines(notes[..k]) + [NoteLine(notes[k])]
  {
  }

  lemma MessageLinesSnoc(messages: seq<Storage.Message>, k: nat)
    requires k < |messages|
    ensures MessageLines(messages[..k + 1]) == MessageLines(messages[..k]) + [MessageLine(messages[k])]
  {
  }

  /** The notes loop shared by both call sites: the header, one line per
      shown note, and an empty line, or nothing without notes. */
  method NotesContextLines(notes: seq<Storage.Note>) returns (parts: seq<string>)
    ensures parts == NotesSection(notes)
  {
    parts := [];
    if notes != [] {
      parts := parts + [NOTES_HEADER];
      var shown := SliceFrom(notes, -NOTES_IN_CONTEXT);
      for k := 0 to |shown|
        invariant parts == [NOTES_HEADER] + NoteLines(shown[..k])
      {
        NoteLinesSnoc(shown, k);
        parts := parts + [NoteLine(shown[k])];
      }
      assert shown[..|shown|] == shown;
      parts := parts + [""];
    }
  }

  /** The conversation loop: the header, then one line per message, or the
      placeholder without messages. */
  method ConversationContextLines(recent: seq<Storage.Message>) returns (parts: seq<string>)
    ensures parts == ConversationSection(recent)
  {
    parts := [CONVERSATION_HEADER];
    if recent != [] {
      for k := 0 to |recent|
        invariant parts == [CONVERSATION_HEADER] + MessageLines(recent[..k])
      {
        MessageLinesSnoc(recent, k);
        parts := parts + [MessageLine(recent[k])];
      }
      assert recent[..|recent|] == recent;
    } else {
      parts := parts + [NO_HISTORY];
    }
  }

  /** Builds `context_parts` as the heartbeat does and joins them with
      newlines. */
  method BuildHeartbeatContext(notes: seq<Storage.Note>, recent: seq<Storage.Message>) returns (context: string)
    ensures context == Join(HeartbeatContextParts(notes, recent), "\n")
  {
    var notesPart := NotesContextLines(notes);
    var conversationPart := ConversationContextLines(recent);
    context := Join(notesPart + conversationPart, "\n");
  }

  // ---------------------------------------------------------------------
  // Acting on the heartbeat reply

  datatype HeartbeatResult = HeartbeatResult(toolCalled: bool, messageSent: Option<string>,
                                             reasoning: Option<string>, error: Option<string>)

  const INITIAL_RESULT: HeartbeatResult := HeartbeatResult(false, None, None, None)

  /** The result record after some blocks, and the messages delivered. */
  datatype Interpretation = Interpretation(result: HeartbeatResult, delivered: seq<string>)

  predicate IsSendTool(b: Block)
  {
    b.ToolUse? && b.name == SEND_MESSAGE_TOOL
  }

  /** One block: a `send_message` call records its message and, outside
      debug mode, delivers it; a missing message raises (recorded as the
      error); a text block becomes the reasoning; anything else is ignored. */
  function StepBlock(st: Interpretation, b: Block, debug: bool): Interpretation
  {
    match b
    case ToolUse(name, message) =>
      if name != SEND_MESSAGE_TOOL then st
      else if message.None? then st.(result := st.result.(error := Some(MISSING_MESSAGE_ERROR)))
      else Interpretation(st.result.(toolCalled := true, messageSent := message),
                          if debug then st.delivered else st.delivered + [message.value])
    case TextBlock(text) => st.(result := st.result.(reasoning := Some(text)))
    case OtherBlock(_) => st
  }

  /** The loop over the reply's blocks; the exception of a missing message
      ends it. */
  function Interpret(blocks: seq<Block>, debug: bool): Interpretation
  {
    if blocks == [] then Interpretation(INITIAL_RESULT, [])
    else
      var st := Interpret(blocks[..|blocks| - 1], debug);
      if st.result.error.Some? then st else StepBlock(st, blocks[|blocks| - 1], debug)
  }

  /** Once the error is set, later blocks change nothing. */
  lemma {:induction false} ErrorStops(blocks: seq<Block>, i: nat, debug: bool)
    requires i <= |blocks| && Interpret(blocks[..i], debug).result.error.Some?
    ensures Interpret(blocks, debug) == Interpret(blocks[..i], debug)
    decreases |blocks| - i
  {
    if i < |blocks| {
      assert blocks[..i + 1][..i] == blocks[..i];
      ErrorStops(blocks, i + 1, debug);
    } else {
      assert blocks[..i] == blocks;
    }
  }

  /** In debug mode nothing is delivered (and so nothing is stored). */
  lemma {:induction false} DebugDeliversNothing(blocks: seq<Block>)
    ensures Interpret(blocks, true).delivered == []
    decreases |blocks|
  {
    if blocks != [] {
      DebugDeliversNothing(blocks[..|blocks| - 1]);
    }
  }

  /** Debug mode changes only what is delivered, never the result record. */
  lemma {:induction false} DebugKeepsResult(blocks: seq<Block>)
    ensures Interpret(blocks, true).result == Interpret(blocks, false).result
    decreases |blocks|
  {
    if blocks != [] {
      DebugKeepsResult(blocks[..|blocks| - 1]);
    }
  }

  /** Every `send_message` call carries a message. */
  predicate WellFormed(blocks: seq<Block>)
  {
    forall i :: 0 <= i < |blocks| && IsSendTool(blocks[i]) ==> blocks[i].message.Some?
  }

  /** The messages of the `send_message` calls, in order. */
  function SendMessages(blocks: seq<Block>): seq<string>
  {
    if blocks == [] then []
    else
      var last := blocks[|blocks| - 1];
      SendMessages(blocks[..|blocks| - 1]) +
        (if IsSendTool(last) && last.message.Some? then [last.message.value] else [])
  }

  lemma WellFormedPrefix(blocks: seq<Block>)
    requires blocks != [] && WellFormed(blocks)
    ensures WellFormed(blocks[..|blocks| - 1])
  {
    var init := blocks[..|blocks| - 1];
    forall i | 0 <= i < |init| && IsSendTool(init[i]) ensures init[i].message.Some? {
      assert init[i] == blocks[i];
    }
  }

  /** A `send_message` call without a message raises `KeyError`, which is
      caught and recorded as `str(e)`: an error is recorded exactly when some
      call lacks its message, and its text is always `'message'`. */
  lemma {:induction false} ErrorIffNotWellFormed(blocks: seq<Block>, debug: bool)
    ensures Interpret(blocks, debug).result.error.Some? <==> !WellFormed(blocks)
    ensures Interpret(blocks, debug).result.error.Some? ==>
      Interpret(blocks, debug).result.error == Some(MISSING_MESSAGE_ERROR)
    decreases |blocks|
  {
    if blocks != [] {
      var init := blocks[..|blocks| - 1];
      ErrorIffNotWellFormed(init, debug);
      if WellFormed(blocks) {
        WellFormedPrefix(blocks);
      } else {
        var i :| 0 <= i < |blocks| && IsSendTool(blocks[i]) && blocks[i].message.None?;
        if i < |init| {
          assert init[i] == blocks[i];
        }
      }
    }
  }

  /** On a well-formed reply no error is recorded, outside debug mode every
      `send_message` call is delivered once, in order, and `message_sent` is
      the last message delivered. */
  lemma {:induction false} WellFormedReply(blocks: seq<Block>)
    requires WellFormed(blocks)
    ensures var st := Interpret(blocks, false);
      && st.result.error == None
      && st.delivered == SendMessages(blocks)
      && (st.result.messageSent.Some? <==> st.result.toolCalled)
      && (st.result.toolCalled ==> st.delivered != [] && st.result.messageSent.value == st.delivered[|st.delivered| - 1])
    decreases |blocks|
  {
    if blocks != [] {
      WellFormedPrefix(blocks);
      WellFormedReply(blocks[..|blocks| - 1]);
    }
  }

  /** When no error stops the loop, `tool_called` holds exactly when the
      reply has a `send_message` call. */
  lemma {:induction false} ToolCalledIffSendCall(blocks: seq<Block>, debug: bool)
    requires Interpret(blocks, debug).result.error.None?
    ensures Interpret(blocks, debug).result.toolCalled <==> exists i :: 0 <= i < |blocks| && IsSendTool(blocks[i])
    decreases |blocks|
  {
    if blocks != [] {
      var init := blocks[..|blocks| - 1];
      var last := blocks[|blocks| - 1];
      ToolCalledIffSendCall(init, debug);
      if exists i :: 0 <= i < |blocks| && IsSendTool(blocks[i]) {
        var i :| 0 <= i < |blocks| && IsSendTool(blocks[i]);
        if i < |init| {
          assert init[i] == blocks[i];
        }
      }
      if exists i :: 0 <= i < |init| && IsSendTool(init[i]) {
        var i :| 0 <= i < |init| && IsSendTool(init[i]);
        assert blocks[i] == init[i];
      }
    }
  }

  /** When no error stops the loop, `reasoning` is the text of the last text
      block, and absent exactly when there is no text block. */
  lemma {:induction false} ReasoningIsLastText(blocks: seq<Block>, debug: bool)
    requires Interpret(blocks, debug).result.error.None?
    ensures var r := Interpret(blocks, debug).result.reasoning;
      && (r.None? <==> forall i :: 0 <= i < |blocks| ==> !blocks[i].TextBlock?)
      && (r.Some? ==> exists i :: 0 <= i < |blocks| && blocks[i] == TextBlock(r.value) &&
                        forall k :: i < k < |blocks| ==> !blocks[k].TextBlock?)
    decreases |blocks|
  {
    if blocks != [] {
      var init := blocks[..|blocks| - 1];
      var last := blocks[|blocks| - 1];
      var st := Interpret(init, debug);
      assert st.result.error.None?;
      ReasoningIsLastText(init, debug);
      var r := Interpret(blocks, debug).result.reasoning;
      if last.TextBlock? {
        assert r == Some(last.text);
        assert blocks[|blocks| - 1] == TextBlock(r.value);
      } else {
        assert r == st.result.reasoning;
        if r.Some? {
          var i :| 0 <= i < |init| && init[i] == TextBlock(r.value) &&
                   forall k :: i < k < |init| ==> !init[k].TextBlock?;
          assert blocks[i] == init[i];
          forall k | i < k < |blocks| ensures !blocks[k].TextBlock? {
            if k < |init| { assert blocks[k] == init[k]; }
          }
        } else {
          forall i | 0 <= i < |blocks| ensures !blocks[i].TextBlock? {
            if i < |init| { assert blocks[i] == init[i]; }
          }
        }
      }
    }
  }

  /** The messages a list of delivered texts adds to the conversation:
      `add_message` reads the clock on every call, so the `k`-th text is
      stored with the `k`-th clock reading `stamps(k)`. */
  function AssistantEntries(texts: seq<string>, stamps: nat -> Storage.Timestamp): seq<Storage.Message>
  {
    seq(|texts|, i requires 0 <= i < |texts| => Storage.Message(stamps(i), ASSISTANT, texts[i]))
  }

  /** The loop over the reply's blocks: `send_message` calls are delivered
      and stored (outside debug mode), text becomes the reasoning, and a
      call without a message ends the loop with the error recorded. */
  method ActOnBlocks(blocks: seq<Block>, messages: Storage.MessageStorage, outbox: Outbox,
                     debug: bool, stamps: nat -> Storage.Timestamp)
    returns (result: HeartbeatResult)
    requires messages.Valid()
    modifies messages.store, outbox
    ensures messages.Valid()
    ensures var st := Interpret(blocks, debug);
      && result == st.result
      && outbox.sent == old(outbox.sent) + st.delivered
      && messages.Messages() == old(messages.Messages()) + AssistantEntries(st.delivered, stamps)
  {
    result := INITIAL_RESULT;
    ghost var delivered: seq<string> := [];
    var sentCount: nat := 0;
    var i := 0;
    while i < |blocks|
      invariant 0 <= i <= |blocks|
      invariant messages.Valid()
      invariant Interpret(blocks[..i], debug) == Interpretation(result, delivered)
      invariant result.error.None?
      invariant outbox.sent == old(outbox.sent) + delivered
      invariant sentCount == |delivered|
      invariant messages.Messages() == old(messages.Messages()) + AssistantEntries(delivered, stamps)
    {
      assert blocks[..i + 1][..i] == blocks[..i];
      match blocks[i] {
        case ToolUse(name, message) =>
          if name == SEND_MESSAGE_TOOL {
            if message.None? {
              result := result.(error := Some(MISSING_MESSAGE_ERROR));
              ErrorStops(blocks, i + 1, debug);
              return;
            }
            result := result.(toolCalled := true, messageSent := message);
            if !debug {
              outbox.Send(message.value);
              messages.AddMessage(ASSISTANT, message.value, stamps(sentCount));
              assert AssistantEntries(delivered + [message.value], stamps) ==
                     AssistantEntries(delivered, stamps) + [Storage.Message(stamps(sentCount), ASSISTANT, message.value)];
              delivered := delivered + [message.value];
              sentCount := sentCount + 1;
            }
          }
        case TextBlock(text) =>
          result := result.(reasoning := Some(text));
        case OtherBlock(_) =>
      }
      i := i + 1;
    }
    assert blocks[..i] == blocks;
  }

  function HeartbeatRequest(notes: seq<Storage.Note>, recent: seq<Storage.Message>): Request
  {
    Request(HEARTBEAT_MAX_TOKENS, Some(Join(HeartbeatContextParts(notes, recent), "\n")),
            [Turn("user", HEARTBEAT_PROMPT)], true)
  }

  /** What the heartbeat does with a reply: log its usage once, then act on
      its blocks. */
  method HandleHeartbeatReply(response: Response, messages: Storage.MessageStorage,
                              ledger: UsageTracker.UsageLedger, outbox: Outbox, model: string, debug: bool,
                              now: UsageTracker.Instant, stamps: nat -> Storage.Timestamp)
    returns (result: HeartbeatResult)
    requires messages.Valid()
    modifies messages.store, ledger, outbox
    ensures messages.Valid()
    ensures var st := Interpret(response.content, debug);
      && result == st.result
      && ledger.file == Some(old(ledger.Lines()) + [UsageTracker.Record(HeartbeatUsage(response, model, now))])
      && outbox.sent == old(outbox.sent) + st.delivered
      && messages.Messages() == old(messages.Messages()) + AssistantEntries(st.delivered, stamps)
  {
    var usage := UsageTracker.CalculateCost(model, response.inputTokens, response.outputTokens, now);
    ledger.LogApiUsage(UsageTracker.LogRecord(usage, HEARTBEAT_REQUEST, None));
    result := ActOnBlocks(response.content, messages, outbox, debug, stamps);
  }

  /** `process_heartbeat`: read the recent messages (as many as the
      configured context size) and all notes, ask the engine, and on a reply
      log its usage once (request type `heartbeat`) before acting on its
      blocks; an engine failure is recorded as the
      error and nothing is logged, sent or stored. */
  method ProcessHeartbeat(messages: Storage.MessageStorage, scratchpad: Storage.ScratchpadStorage,
                          ledger: UsageTracker.UsageLedger, outbox: Outbox,
                          engine: Request -> Reply, model: string, maxContext: int, debug: bool,
                          now: UsageTracker.Instant, stamps: nat -> Storage.Timestamp)
    returns (result: HeartbeatResult)
    requires messages.Valid() && scratchpad.Valid()
    modifies messages.store, ledger, outbox
    ensures messages.Valid()
    ensures var reply := engine(HeartbeatRequest(old(scratchpad.Notes()), RecentWindow(old(messages.Messages()), maxContext)));
      && (reply.Failed? ==>
            && result == INITIAL_RESULT.(error := Some(reply.error))
            && ledger.file == old(ledger.file) && outbox.sent == old(outbox.sent)
            && messages.Messages() == old(messages.Messages()))
      && (reply.Replied? ==>
            var st := Interpret(reply.response.content, debug);
            && result == st.result
            && ledger.file == Some(old(ledger.Lines()) + [UsageTracker.Record(HeartbeatUsage(reply.response, model, now))])
            && outbox.sent == old(outbox.sent) + st.delivered
            && messages.Messages() == old(messages.Messages()) + AssistantEntries(st.delivered, stamps))
  {
    var recent := messages.GetRecentMessages(Some(maxContext));
    RecentWindowOfStore(old(messages.Messages()), maxContext, recent);
    var notes := scratchpad.GetNotes();
    var context := BuildHeartbeatContext(notes, recent);
    var request := Request(HEARTBEAT_MAX_TOKENS, Some(context), [Turn("user", HEARTBEAT_PROMPT)], true);
    assert request == HeartbeatRequest(old(scratchpad.Notes()), recent);
    var reply := engine(request);
    if reply.Failed? {
      result := INITIAL_RESULT.(error := Some(reply.error));
    } else {
      result := HandleHeartbeatReply(reply.response, messages, ledger, outbox, model, debug, now, stamps);
    }
  }

  // ---------------------------------------------------------------------
  // Direct replies

  /** The text blocks of a reply, concatenated in order. */
  function TextOf(blocks: seq<Block>): string
  {
    if blocks == [] then ""
    else TextOf(blocks[..|blocks| - 1]) + (if blocks[|blocks| - 1].TextBlock? then blocks[|blocks| - 1].text else "")
  }

  /** The concatenation distributes over a split of the blocks. */
  lemma {:induction false} TextOfAppend(a: seq<Block>, b: seq<Block>)
    ensures TextOf(a + b) == TextOf(a) + TextOf(b)
    decreases |b|
  {
    if b == [] {
      assert a + b == a;
    } else {
      var ab := a + b;
      assert ab[..|ab| - 1] == a + b[..|b| - 1] && ab[|ab| - 1] == b[|b| - 1];
      TextOfAppend(a, b[..|b| - 1]);
    }
  }

  /** The reply text is empty exactly when every text block is empty. */
  lemma {:induction false} TextOfEmptyIff(blocks: seq<Block>)
    ensures TextOf(blocks) == "" <==> forall i :: 0 <= i < |blocks| && blocks[i].TextBlock? ==> blocks[i].text == ""
    decreases |blocks|
  {
    if blocks != [] {
      var init := blocks[..|blocks| - 1];
      TextOfEmptyIff(init);
      forall i | 0 <= i < |init| ensures init[i] == blocks[i] { }
    }
  }

  /** The `response_text += block.text` loop. */
  method ConcatText(blocks: seq<Block>) returns (text: string)
    ensures text == TextOf(blocks)
  {
    text := "";
    for i := 0 to |blocks|
      invariant text == TextOf(blocks[..i])
    {
      assert blocks[..i + 1][..i] == blocks[..i];
      if blocks[i].TextBlock? {
        text := text + blocks[i].text;
      }
    }
    assert blocks[..|blocks|] == blocks;
  }

  function Turns(messages: seq<Storage.Message>): seq<Turn>
  {
    seq(|messages|, i requires 0 <= i < |messages| => Turn(messages[i].role, messages[i].content))
  }

  lemma TurnsSnoc(messages: seq<Storage.Message>, k: nat)
    requires k < |messages|
    ensures Turns(messages[..k + 1]) == Turns(messages[..k]) + [Turn(messages[k].role, messages[k].content)]
  {
  }

  /** The loop copying the recent messages into the conversation sent to
      the engine. */
  method ConversationTurns(recent: seq<Storage.Message>) returns (turns: seq<Turn>)
    ensures turns == Turns(recent)
  {
    turns := [];
    for i := 0 to |recent|
      invariant turns == Turns(recent[..i])
    {
      TurnsSnoc(recent, i);
      turns := turns + [Turn(recent[i].role, recent[i].content)];
    }
    assert recent[..|recent|] == recent;
  }

  function ReplyRequest(notes: seq<Storage.Note>, recent: seq<Storage.Message>): Request
  {
    var parts := NotesSection(notes);
    Request(REPLY_MAX_TOKENS, if parts == [] then None else Some(Join(parts, "\n")), Turns(recent), false)
  }

  /** What a direct reply does with the engine's answer: log its usage once,
      then send and store the concatenated text unless it is empty. */
  method HandleUserReply(response: Response, userMessage: string, messages: Storage.MessageStorage,
                         ledger: UsageTracker.UsageLedger, outbox: Outbox, model: string,
                         now: UsageTracker.Instant, stamp: Storage.Timestamp)
    requires messages.Valid()
    modifies messages.store, ledger, outbox
    ensures messages.Valid()
    ensures var text := TextOf(response.content);
      var said := if text == "" then [] else [text];
      && ledger.file == Some(old(ledger.Lines()) + [UsageTracker.Record(ReplyUsage(response, model, now, userMessage))])
      && outbox.sent == old(outbox.sent) + said
      && messages.Messages() == old(messages.Messages()) + (if said == [] then [] else [Storage.Message(stamp, ASSISTANT, text)])
  {
    var usage := UsageTracker.CalculateCost(model, response.inputTokens, response.outputTokens, now);
    ledger.LogApiUsage(UsageTracker.LogRecord(usage, REPLY_REQUEST, Some(Prefix(userMessage, PREVIEW_LENGTH))));
    var text := ConcatText(response.content);
    if text != "" {
      outbox.Send(text);
      messages.AddMessage(ASSISTANT, text, stamp);
    }
  }

  /** `respond_to_user`: on a reply, its usage is logged once (request type
      `user_response`, with the first 50 characters of the user's message),
      and the concatenated text is sent and stored as an assistant message
      exactly when it is not empty; on a failure nothing changes. */
  method RespondToUser(userMessage: string, messages: Storage.MessageStorage,
                       scratchpad: Storage.ScratchpadStorage, ledger: UsageTracker.UsageLedger,
                       outbox: Outbox, engine: Request -> Reply, model: string, maxContext: int,
                       now: UsageTracker.Instant, stamp: Storage.Timestamp)
    requires messages.Valid() && scratchpad.Valid()
    modifies messages.store, ledger, outbox
    ensures messages.Valid()
    ensures var reply := engine(ReplyRequest(old(scratchpad.Notes()), RecentWindow(old(messages.Messages()), maxContext)));
      && (reply.Failed? ==>
            && ledger.file == old(ledger.file) && outbox.sent == old(outbox.sent)
            && messages.Messages() == old(messages.Messages()))
      && (reply.Replied? ==>
            var text := TextOf(reply.response.content);
            var said := if text == "" then [] else [text];
            && ledger.file == Some(old(ledger.Lines()) + [UsageTracker.Record(ReplyUsage(reply.response, model, now, userMessage))])
            && outbox.sent == old(outbox.sent) + said
            && messages.Messages() == old(messages.Messages()) + (if said == [] then [] else [Storage.Message(stamp, ASSISTANT, text)]))
  {
    var recent := messages.GetRecentMessages(Some(maxContext));
    RecentWindowOfStore(old(messages.Messages()), maxContext, recent);
    var turns := ConversationTurns(recent);
    var notes := scratchpad.GetNotes();
    var parts := NotesContextLines(notes);
    var context := if parts == [] then None else Some(Join(parts, "\n"));
    var request := Request(REPLY_MAX_TOKENS, context, turns, false);
    assert request == ReplyRequest(old(scratchpad.Notes()), recent);
    var reply := engine(request);
    if reply.Replied? {
      HandleUserReply(reply.response, userMessage, messages, ledger, outbox, model, now, stamp);
    }
  }
}
