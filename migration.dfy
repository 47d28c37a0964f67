/**
  The one-off move from the single-user layout to the per-user layout: the
  chat-id guard, the new user's configuration and registry documents, and
  the rewrite of the usage ledger that attributes every unattributed entry
  to the migrating user.

  The data directory is an object whose fields are the documents the
  migration writes; a document that does not exist is `None`.
 */
module Migration {
  import opened Wrappers
  import Scheduler
  import UsageTracker

  /** `users/<id>/user_config.json`. */
  datatype UserConfigRecord = UserConfigRecord(
    userId: string,
    model: string,
    heartbeatEnabled: bool,
    heartbeatIntervalMinutes: int,
    maxContextMessages: int,
    createdAt: string,
    updatedAt: string)

  /** One entry of `users.json`. */
  datatype RegistryEntry = RegistryEntry(
    userId: string,
    telegramUsername: string,
    telegramFirstName: string,
    registeredAt: string,
    lastSeen: string,
    status: string)

  const ACTIVE: string := "active"

  /** The chat id read from the environment is usable: set, not empty, and
      not the text `None`. */
  predicate UsableChatId(chatId: Option<string>)
  {
    chatId.Some? && chatId.value != "" && chatId.value != "None"
  }

  /** The configuration written for the migrating user: heartbeats on, the
      configured interval and context size, created and updated now. */
  function InitialConfig(userId: string, model: string, intervalMinutes: int, maxContext: int,
                         now: string): (c: UserConfigRecord)
    ensures c.userId == userId && c.heartbeatEnabled
    ensures c.heartbeatIntervalMinutes == intervalMinutes && c.maxContextMessages == maxContext
    ensures c.createdAt == c.updatedAt == now
  {
    UserConfigRecord(userId, model, true, intervalMinutes, maxContext, now, now)
  }

  /** The registry written: the migrating user alone, active, with the
      placeholder name `user` / `User`. */
  function InitialRegistry(userId: string, now: string): (r: seq<RegistryEntry>)
    ensures |r| == 1 && r[0].userId == userId && r[0].status == ACTIVE
    ensures r[0].registeredAt == r[0].lastSeen == now
  {
    [RegistryEntry(userId, "user", "User", now, now, ACTIVE)]
  }

  // ---------------------------------------------------------------------
  // The ledger rewrite

  /** One line after the rewrite: an object without `user_id` gains the
      migrating user's id; every other line is kept as it was. */
  function StampLine(line: UsageTracker.LedgerLine, userId: string): UsageTracker.LedgerLine
  {
    if line.Record? && line.entry.userId.None? then UsageTracker.Record(line.entry.(userId := Some(userId)))
    else line
  }

  function Stamped(lines: seq<UsageTracker.LedgerLine>, userId: string): seq<UsageTracker.LedgerLine>
  {
    seq(|lines|, i requires 0 <= i < |lines| => StampLine(lines[i], userId))
  }

  predicate Unattributed(line: UsageTracker.LedgerLine)
  {
    line.Record? && line.entry.userId.None?
  }

  /** The number of objects without `user_id`. */
  function UnattributedCount(lines: seq<UsageTracker.LedgerLine>): nat
  {
    if lines == [] then 0
    else UnattributedCount(lines[..|lines| - 1]) + (if Unattributed(lines[|lines| - 1]) then 1 else 0)
  }

  /** The number of lines that are not JSON. */
  function MalformedCount(lines: seq<UsageTracker.LedgerLine>): nat
  {
    if lines == [] then 0
    else MalformedCount(lines[..|lines| - 1]) + (if lines[|lines| - 1].Malformed? then 1 else 0)
  }

  /** The rewrite keeps the number and order of lines: malformed lines are
      kept verbatim, an object that had a `user_id` keeps it, and an object
      without one gains the migrating user's id and nothing else changes. */
  lemma StampedLineByLine(lines: seq<UsageTracker.LedgerLine>, userId: string, i: nat)
    requires i < |lines|
    ensures |Stamped(lines, userId)| == |lines|
    ensures var out := Stamped(lines, userId)[i];
      && (lines[i].Malformed? ==> out == lines[i])
      && (lines[i].Record? ==> out.Record? && out.entry.(userId := None) == lines[i].entry.(userId := None))
      && (lines[i].Record? && lines[i].entry.userId.Some? ==> out == lines[i])
      && (lines[i].Record? ==> out.entry.userId == Some(if lines[i].entry.userId.Some? then lines[i].entry.userId.value else userId))
  {
  }

  /** The counts split the ledger: unattributed objects, malformed lines and
      already attributed objects together are all the lines. */
  lemma {:induction false} CountsPartition(lines: seq<UsageTracker.LedgerLine>)
    ensures UnattributedCount(lines) + MalformedCount(lines) <= |lines|
    ensures UnattributedCount(lines) == 0 <==> forall i :: 0 <= i < |lines| ==> !Unattributed(lines[i])
    ensures MalformedCount(lines) == 0 <==> forall i :: 0 <= i < |lines| ==> !lines[i].Malformed?
    decreases |lines|
  {
    if lines != [] {
      var init := lines[..|lines| - 1];
      CountsPartition(init);
      forall i | 0 <= i < |init| ensures init[i] == lines[i] { }
    }
  }

  lemma {:induction false} StampedCounts(lines: seq<UsageTracker.LedgerLine>, userId: string)
    ensures UnattributedCount(Stamped(lines, userId)) == 0
    ensures MalformedCount(Stamped(lines, userId)) == MalformedCount(lines)
    decreases |lines|
  {
    if lines != [] {
      var init := lines[..|lines| - 1];
      assert Stamped(lines, userId)[..|lines| - 1] == Stamped(init, userId);
      StampedCounts(init, userId);
    }
  }

  /** Running the rewrite twice is running it once, and the second run
      updates nothing and finds the same malformed lines. */
  lemma StampedIdempotent(lines: seq<UsageTracker.LedgerLine>, userId: string)
    ensures Stamped(Stamped(lines, userId), userId) == Stamped(lines, userId)
    ensures UnattributedCount(Stamped(lines, userId)) == 0
    ensures MalformedCount(Stamped(lines, userId)) == MalformedCount(lines)
  {
    StampedCounts(lines, userId);
  }

  /** The line loop: each line is kept or stamped and appended, and the
      updated and error counters are advanced. */
  method RewriteLedger(lines: seq<UsageTracker.LedgerLine>, userId: string)
    returns (rewritten: seq<UsageTracker.LedgerLine>, updatedCount: nat, errorCount: nat)
    ensures rewritten == Stamped(lines, userId)
    ensures updatedCount == UnattributedCount(lines)
    ensures errorCount == MalformedCount(lines)
  {
    rewritten := [];
    updatedCount := 0;
    errorCount := 0;
    for i := 0 to |lines|
      invariant rewritten == Stamped(lines[..i], userId)
      invariant updatedCount == UnattributedCount(lines[..i])
      invariant errorCount == MalformedCount(lines[..i])
    {
      assert lines[..i + 1][..i] == lines[..i];
      var line := lines[i];
      match line {
        case Malformed(_) =>
          rewritten := rewritten + [line];
          errorCount := errorCount + 1;
        case Record(entry) =>
          if entry.userId.None? {
            entry := entry.(userId := Some(userId));
            updatedCount := updatedCount + 1;
          }
          rewritten := rewritten + [UsageTracker.Record(entry)];
      }
    }
    assert lines[..|lines|] == lines;
  }

  // ---------------------------------------------------------------------
  // The data directory

  class DataDirectory {
    /** The per-user configuration documents, by user id. */
    var userConfigs: map<string, UserConfigRecord>
    /** `users.json`. */
    var registry: Option<seq<RegistryEntry>>
    /** `api_usage.jsonl`. */
    var ledger: Option<seq<UsageTracker.LedgerLine>>

    constructor (userConfigs: map<string, UserConfigRecord>, registry: Option<seq<RegistryEntry>>,
                 ledger: Option<seq<UsageTracker.LedgerLine>>)
      ensures this.userConfigs == userConfigs && this.registry == registry && this.ledger == ledger
    {
      this.userConfigs := userConfigs;
      this.registry := registry;
      this.ledger := ledger;
    }

    /** `migrate`: without a usable chat id nothing is written and the result
        is false; otherwise the user's configuration is (re)written, the
        registry is replaced by the user alone, and an existing ledger is
        rewritten line by line. The two counters are returned as they are
        reported. */
    method Migrate(chatId: Option<string>, model: string, intervalMinutes: int, maxContext: int,
                   now: string)
      returns (ok: bool, updatedCount: nat, errorCount: nat)
      modifies this
      ensures ok <==> UsableChatId(chatId)
      ensures !ok ==> userConfigs == old(userConfigs) && registry == old(registry) && ledger == old(ledger)
      ensures ok ==> var u := chatId.value;
        && userConfigs == old(userConfigs)[u := InitialConfig(u, model, intervalMinutes, maxContext, now)]
        && registry == Some(InitialRegistry(u, now))
        && (old(ledger).None? ==> ledger == None && updatedCount == 0 && errorCount == 0)
        && (old(ledger).Some? ==>
              && ledger == Some(Stamped(old(ledger).value, u))
              && updatedCount == UnattributedCount(old(ledger).value)
              && errorCount == MalformedCount(old(ledger).value))
    {
      updatedCount, errorCount := 0, 0;
      if chatId.None? || chatId.value == "" || chatId.value == "None" {
        return false, 0, 0;
      }
      var u := chatId.value;
      userConfigs := userConfigs[u := UserConfigRecord(u, model, true, intervalMinutes, maxContext, now, now)];
      registry := Some([RegistryEntry(u, "user", "User", now, now, ACTIVE)]);
      if ledger.Some? {
        var rewritten;
        rewritten, updatedCount, errorCount := RewriteLedger(ledger.value, u);
        ledger := Some(rewritten);
      }
      ok := true;
    }
  }

  // ---------------------------------------------------------------------
  // After the migration

  /** How the scheduler sees a registry entry. */
  function AsSchedulerRecord(e: RegistryEntry): Scheduler.UserRecord
  {
    Scheduler.UserRecord(e.userId, if e.status == ACTIVE then Scheduler.Active else Scheduler.Inactive)
  }

  /** Starting the scheduler on the migrated registry, with the migrated
      configuration for the user, gives the migrating user exactly one
      enabled job with the configured interval, and nobody else a job. */
  lemma MigratedUserIsScheduled(u: string, model: string, intervalMinutes: int, maxContext: int, now: string,
                                configOf: string -> Scheduler.UserConfig, firstRun: int -> Scheduler.Instant,
                                v: string)
    requires var c := InitialConfig(u, model, intervalMinutes, maxContext, now);
      configOf(u) == Scheduler.UserConfig(c.heartbeatIntervalMinutes, c.heartbeatEnabled)
    ensures var users := [AsSchedulerRecord(InitialRegistry(u, now)[0])];
      var t := Scheduler.Started(Scheduler.Table(map[], map[]), Scheduler.ActiveUsers(users), configOf, firstRun);
      && Scheduler.JobIn(t, u) == Some(Scheduler.Job(u, intervalMinutes, firstRun(intervalMinutes)))
      && Scheduler.EnabledIn(t, u)
      && (v != u ==> Scheduler.JobIn(t, v) == None)
  {
    var record := AsSchedulerRecord(InitialRegistry(u, now)[0]);
    assert record == Scheduler.UserRecord(u, Scheduler.Active);
    var users := [record];
    Scheduler.StartJobsExactlyActive(users, configOf, firstRun, u);
    assert record in users;
    Scheduler.StartJobsExactlyActive(users, configOf, firstRun, v);
  }
}
