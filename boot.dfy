/**
 * The boot screen of components/terminal/SystemInit.tsx: an interval steps the
 * `visibleLines` counter until it saturates, and the screen shows that many
 * lines of the boot log, then a divider.
 */
module Boot {
  import opened Wrappers
  import TerminalLine

  /** One line of the boot log. */
  datatype BootLine = BootLine(prefix: string, color: TerminalLine.Color, content: string, status: Option<string>)

  /** `initSequence`. */
  const InitSequence: seq<BootLine> := [
    BootLine("SYSTEM", TerminalLine.Yellow, "loudmumble security terminal v4.2.0", None),
    BootLine("SYSTEM", TerminalLine.Yellow, "Initializing secure connection...", Some("OK")),
    BootLine("CRYPTO", TerminalLine.Cyan, "Loading AES-256 encryption modules...", Some("OK")),
    BootLine("CRYPTO", TerminalLine.Cyan, "Verifying TLS 1.3 handshake...", Some("OK")),
    BootLine("NET", TerminalLine.Blue, "Firewall status:", Some("ACTIVE")),
    BootLine("NET", TerminalLine.Blue, "VPN tunnel:", Some("ESTABLISHED")),
    BootLine("NET", TerminalLine.Blue, "Connection: 10.31.33.7 \U{2192}", Some("SECURE"))
  ]

  /** `authLines`; the session id and login time are drawn once when the screen mounts. */
  function AuthLines(sessionId: string, loginTime: string): (lines: seq<BootLine>)
    ensures |lines| == 4
    ensures forall i :: 0 <= i < |lines| ==> lines[i].prefix == "AUTH" && lines[i].color == TerminalLine.Magenta
  {
    [ BootLine("AUTH", TerminalLine.Magenta, "User: loud", None),
      BootLine("AUTH", TerminalLine.Magenta, "Session ID: " + sessionId, None),
      BootLine("AUTH", TerminalLine.Magenta, "Login time: " + loginTime, None),
      BootLine("AUTH", TerminalLine.Magenta, "Status:", Some("AUTHENTICATED")) ]
  }

  /** `allLines`: the boot sequence followed by the login lines. */
  function AllLines(sessionId: string, loginTime: string): (lines: seq<BootLine>)
    ensures |lines| == Limit
    ensures lines[..|InitSequence|] == InitSequence
  {
    InitSequence + AuthLines(sessionId, loginTime)
  }

  /** The value at which the updater stops: `initSequence.length + 4`. */
  const Limit: nat := |InitSequence| + 4

  /** The `setVisibleLines` updater: one more line per tick until the limit, then no change. */
  function Tick(prev: nat): (next: nat)
    ensures prev <= next <= prev + 1
    ensures next == prev <==> prev >= Limit
    ensures prev <= Limit ==> next <= Limit
  {
    if prev >= Limit then prev else prev + 1
  }

  /** The counter after `k` ticks from its initial 0. */
  function After(k: nat): (n: nat)
    ensures n <= k && n <= Limit
  {
    if k == 0 then 0 else Tick(After(k - 1))
  }

  /** After `k` ticks exactly `min(k, 11)` lines are visible. */
  lemma {:induction false} AfterIsMin(k: nat)
    ensures After(k) == if k < Limit then k else Limit
  {
    if k > 0 {
      AfterIsMin(k - 1);
    }
  }

  /** The counter never decreases. */
  lemma {:induction false} AfterMonotone(i: nat, j: nat)
    requires i <= j
    ensures After(i) <= After(j)
  {
    AfterIsMin(i);
    AfterIsMin(j);
  }

  /** `allLines.slice(0, visibleLines)`: the first lines of the log, as many as are visible and exist. */
  function Visible(lines: seq<BootLine>, visibleLines: nat): (shown: seq<BootLine>)
    ensures |shown| == if visibleLines < |lines| then visibleLines else |lines|
    ensures shown == lines[..|shown|]
  {
    if visibleLines < |lines| then lines[..visibleLines] else lines
  }

  /** The first divider, the welcome line and the closing divider, in the order they are written. */
  datatype Trailer = Trailer(divider: bool, welcome: bool, closingDivider: bool)

  function TrailerOf(visibleLines: nat, lineCount: nat): (t: Trailer)
    ensures t.divider <==> visibleLines >= lineCount
    ensures t.welcome <==> visibleLines >= lineCount + 1
    ensures t.closingDivider <==> visibleLines >= lineCount + 2
  {
    Trailer(visibleLines > lineCount - 1, visibleLines > lineCount, visibleLines > lineCount + 1)
  }

  /**
   * What the boot screen shows after `k` ticks: the first `min(k, 11)` lines, the
   * divider exactly from the eleventh tick on, and never the welcome line or the
   * closing divider, because the counter stops at the number of lines.
   */
  lemma {:induction false} ScreenAfter(sessionId: string, loginTime: string, k: nat)
    ensures var lines := AllLines(sessionId, loginTime);
      Visible(lines, After(k)) == lines[..if k < Limit then k else Limit]
    ensures TrailerOf(After(k), Limit).divider <==> k >= Limit
    ensures !TrailerOf(After(k), Limit).welcome
    ensures !TrailerOf(After(k), Limit).closingDivider
  {
    AfterIsMin(k);
  }

  /** The boot screen's counter and the interval that steps it. */
  class BootScreen {
    var visibleLines: nat
    var running: bool

    /** The counter stays within the log, and the interval is cleared only at the limit. */
    predicate Valid()
      reads this
    {
      visibleLines <= Limit && (!running ==> visibleLines == Limit)
    }

    constructor ()
      ensures Valid() && visibleLines == 0 && running
    {
      visibleLines := 0;
      running := true;
    }

    /** One firing of the interval: the updater runs, and clears the interval once the limit is reached. */
    method OnInterval()
      requires Valid() && running
      modifies this
      ensures Valid()
      ensures visibleLines == Tick(old(visibleLines))
      ensures running <==> old(visibleLines) < Limit
    {
      if visibleLines >= Limit {
        running := false;
      } else {
        visibleLines := visibleLines + 1;
      }
    }
  }
}
