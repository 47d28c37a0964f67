/**
  The command router: the text after the command prefix is trimmed and
  lower-cased; `status` sends the usage report to the requesting chat, and
  every other command is reported as not handled and sends nothing.
 */
module Commands {
  import opened Wrappers
  import opened Text
  import UsageTracker

  const STATUS_COMMAND: string := "status"

  /** `command.strip().lower()`. */
  function Normalize(command: string): string
  {
    Lower(Strip(command))
  }

  /** A message the router asks the transport to send. */
  datatype Outgoing = Outgoing(report: UsageTracker.StatusReport, chatId: int)

  datatype Outcome = Outcome(handled: bool, sent: seq<Outgoing>)

  /** `handle_status`: exactly one message, the usage report, goes to the
      chat the command came from. */
  function HandleStatus(chatId: int, ledger: Option<seq<UsageTracker.LedgerLine>>,
                        now: UsageTracker.Instant, model: string): (sent: seq<Outgoing>)
    ensures |sent| == 1 && sent[0].chatId == chatId
    ensures sent[0].report == UsageTracker.FormatUsageReport(ledger, now, model)
  {
    [Outgoing(UsageTracker.FormatUsageReport(ledger, now, model), chatId)]
  }

  /** `handle_command`: handled exactly when the normalised command is
      `status`; an unknown command sends nothing. */
  function HandleCommand(command: string, chatId: int, ledger: Option<seq<UsageTracker.LedgerLine>>,
                         now: UsageTracker.Instant, model: string): (r: Outcome)
    ensures r.handled <==> Normalize(command) == STATUS_COMMAND
    ensures r.handled ==> r.sent == HandleStatus(chatId, ledger, now, model)
    ensures !r.handled ==> r.sent == []
  {
    if Normalize(command) == STATUS_COMMAND then Outcome(true, HandleStatus(chatId, ledger, now, model))
    else Outcome(false, [])
  }

  lemma LowerKeepsSpaces(s: string)
    ensures forall k :: 0 <= k < |s| ==> (IsSpace(Lower(s)[k]) <==> IsSpace(s[k]))
  {
  }

  /** A command that normalises to `status` is some surrounding white space
      around a word that lower-cases to `status`. */
  lemma StatusIsPaddedWord(command: string) returns (i: nat, j: nat)
    requires Normalize(command) == STATUS_COMMAND
    ensures i <= j <= |command| && AllSpace(command[..i]) && AllSpace(command[j..])
    ensures Lower(command[i..j]) == STATUS_COMMAND
  {
    i, j := StripBounds(command);
  }

  /** Conversely, white space around a word that lower-cases to `status`, in
      any letter case, normalises to `status`. */
  lemma PaddedWordIsStatus(command: string, i: nat, j: nat)
    requires i <= j <= |command| && AllSpace(command[..i]) && AllSpace(command[j..])
    requires Lower(command[i..j]) == STATUS_COMMAND
    ensures Normalize(command) == STATUS_COMMAND
  {
    var w := command[i..j];
    assert |w| == 6;
    assert LowerChar(w[0]) == Lower(w)[0] == 's';
    assert LowerChar(w[5]) == Lower(w)[5] == 's';
    assert command[i] == w[0] && command[j - 1] == w[5];
    StripUnique(command, i, j);
  }

  lemma LowerIdempotent(s: string)
    ensures Lower(Lower(s)) == Lower(s)
  {
  }

  /** Lower-casing a stripped word leaves it stripped. */
  lemma LowerStaysStripped(t: string)
    requires t != [] ==> !IsSpace(t[0]) && !IsSpace(t[|t| - 1])
    ensures Strip(Lower(t)) == Lower(t)
  {
    var n := Lower(t);
    if |n| > 0 {
      LowerKeepsSpaces(t);
      assert !IsSpace(n[0]) && !IsSpace(n[|n| - 1]);
    }
    assert AllSpace(n[..0]) && AllSpace(n[|n|..]);
    StripUnique(n, 0, |n|);
    assert n[0..|n|] == n;
  }

  /** Normalising twice is normalising once: lower-casing neither creates
      nor removes white space, so the result is already stripped. */
  lemma NormalizeIdempotent(command: string)
    ensures Normalize(Normalize(command)) == Normalize(command)
  {
    var i, j := StripBounds(command);
    var t := command[i..j];
    assert t != [] ==> t[0] == command[i] && t[|t| - 1] == command[j - 1];
    var n := Lower(t);
    assert Strip(command) == t;
    assert Normalize(command) == n;
    LowerStaysStripped(t);
    assert Strip(n) == n;
    LowerIdempotent(t);
    assert Lower(n) == n;
    assert Normalize(n) == Lower(Strip(n));
  }

  /** Surrounding white space and capitals are ignored. */
  lemma PaddedCapitalisedStatus()
    ensures Normalize("  Status\n") == STATUS_COMMAND
  {
    var padded := "  Status\n";
    assert padded[..2] == "  " && padded[8..] == "\n" && padded[2..8] == "Status";
    assert Lower("Status") == STATUS_COMMAND;
    PaddedWordIsStatus(padded, 2, 8);
  }

  /** A command with a trailing word is not `status`. */
  lemma TrailingWordIsNotStatus()
    ensures Normalize("status now") != STATUS_COMMAND
  {
    var c := "status now";
    assert AllSpace(c[..0]) && AllSpace(c[10..]);
    assert !IsSpace(c[0]) && !IsSpace(c[9]);
    StripUnique(c, 0, 10);
    assert |Normalize(c)| == 10;
  }
}
