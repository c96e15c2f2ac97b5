/**
 * The telemetry of components/terminal/TerminalHUD.tsx: integer readings that an
 * interval redraws and clamps, the four-line activity feed, and the theme switch.
 * Each `Math.random()` draw is a parameter in [0, 1).
 */
module Hud {

  /** `Math.min(hi, Math.max(lo, x))`. */
  function Clamp(lo: int, hi: int, x: int): (r: int)
    requires lo <= hi
    ensures lo <= r <= hi
    ensures lo <= x <= hi ==> r == x
    ensures x < lo ==> r == lo
    ensures x > hi ==> r == hi
  {
    if hi < (if lo < x then x else lo) then hi else if lo < x then x else lo
  }

  /** A value `Math.random()` can return. */
  predicate IsDraw(r: real) {
    0.0 <= r < 1.0
  }

  /** `Math.floor(r * width + offset)` for a draw `r`: an integer in [offset, offset + width). */
  function FloorScaled(r: real, width: nat, offset: int): (n: int)
    requires IsDraw(r) && width > 0
    ensures offset <= n < offset + width
  {
    ScaledBelow(r, width as real);
    (r * width as real + offset as real).Floor
  }

  /** A draw scaled by a positive width lands in [0, width). */
  lemma ScaledBelow(r: real, w: real)
    requires IsDraw(r) && w > 0.0
    ensures 0.0 <= r * w < w
  {
    assert r * w <= r * w + (1.0 - r) * w;
    assert (1.0 - r) * w > 0.0;
  }

  /** The integer readings; the memory figure and download rate are fractional and not modelled. */
  datatype Stats = Stats(gpuLoad: int, gpuTemp: int, netUp: int, cpu: int)

  const InitialStats: Stats := Stats(12, 45, 245, 32)

  /** The ranges the readings stay in. */
  predicate InRange(s: Stats) {
    && 0 <= s.gpuLoad <= 100
    && 45 <= s.gpuTemp <= 47
    && 100 <= s.netUp <= 599
    && 0 <= s.cpu <= 100
  }

  /** The four draws of one tick, in the order the updater takes them. */
  datatype Draws = Draws(load: real, temp: real, up: real, cpu: real)

  predicate ValidDraws(d: Draws) {
    IsDraw(d.load) && IsDraw(d.temp) && IsDraw(d.up) && IsDraw(d.cpu)
  }

  /**
   * The `setStats` updater. Whatever the previous readings, the new ones are in range:
   * the loads are clamped, the temperature and upload rate are drawn afresh. A load
   * whose step stays within [0, 100] moves by at most 2 (GPU) or 3 (CPU).
   */
  function Step(prev: Stats, d: Draws): (next: Stats)
    requires ValidDraws(d)
    ensures InRange(next)
    ensures 0 <= prev.gpuLoad <= 100 ==> -2 <= next.gpuLoad - prev.gpuLoad <= 2
    ensures 0 <= prev.cpu <= 100 ==> -3 <= next.cpu - prev.cpu <= 3
  {
    Stats(
      Clamp(0, 100, prev.gpuLoad + FloorScaled(d.load, 5, -2)),
      45 + FloorScaled(d.temp, 3, 0),
      FloorScaled(d.up, 500, 100),
      Clamp(0, 100, prev.cpu + FloorScaled(d.cpu, 7, -3)))
  }

  lemma InitialInRange()
    ensures InRange(InitialStats)
  {
  }

  /** The labels the activity feed draws from. */
  const Labels: seq<string> :=
    ["SYS_INIT", "MOD_LOAD", "AUTH_REQ", "NET_MAPPING", "PORT_SCAN_01", "FIREWALL_BYPASS", "PAYLOAD_INJECT"]

  /** `lines[Math.floor(Math.random() * lines.length)]`. */
  function PickLabel(r: real): (picked: string)
    requires IsDraw(r)
    ensures picked in Labels
  {
    Labels[FloorScaled(r, |Labels|, 0)]
  }

  /** The `setLogs` updater: the new label in front of the old feed, cut to four lines. */
  function PushLog(prev: seq<string>, entry: string): (logs: seq<string>)
    ensures |logs| == if |prev| < 4 then |prev| + 1 else 4
    ensures logs[0] == entry
    ensures logs[1..] == prev[..if |prev| < 3 then |prev| else 3]
  {
    ([entry] + prev)[..if |prev| < 3 then |prev| + 1 else 4]
  }

  /** The activity feed of the aggressive theme. */
  class ActivityFeed {
    var logs: seq<string>

    /** At most four lines, each one of the fixed labels. */
    predicate Valid()
      reads this
    {
      |logs| <= 4 && forall i :: 0 <= i < |logs| ==> logs[i] in Labels
    }

    constructor ()
      ensures Valid() && logs == []
    {
      logs := [];
    }

    method OnInterval(r: real)
      requires Valid() && IsDraw(r)
      modifies this
      ensures Valid()
      ensures logs == PushLog(old(logs), PickLabel(r))
    {
      logs := PushLog(logs, PickLabel(r));
    }
  }

  /** The telemetry of the command-centre theme. */
  class Telemetry {
    var stats: Stats

    constructor ()
      ensures stats == InitialStats && InRange(stats)
    {
      stats := InitialStats;
    }

    method OnInterval(d: Draws)
      requires ValidDraws(d)
      modifies this
      ensures stats == Step(old(stats), d) && InRange(stats)
    {
      stats := Step(stats, d);
    }
  }

  /** The three HUD designs. */
  datatype Theme = Command | Cyber | Aggressive

  /** The buttons offered, in order. */
  const Themes: seq<Theme> := [Command, Cyber, Aggressive]

  function ThemeName(t: Theme): string {
    match t
    case Command => "command"
    case Cyber => "cyber"
    case Aggressive => "aggressive"
  }

  /** Every theme has a button, and the buttons are labelled by distinct names. */
  lemma ThemesComplete(t: Theme, u: Theme)
    ensures t in Themes
    ensures ThemeName(t) == ThemeName(u) ==> t == u
  {
    if ThemeName(t) == ThemeName(u) {
      assert ThemeName(t)[1] == ThemeName(u)[1];
    }
  }

  /** The theme switch of `TerminalHUD`: it starts on the command-centre design. */
  class ThemeSwitch {
    var theme: Theme

    constructor ()
      ensures theme == Command
    {
      theme := Command;
    }

    /** A theme button's `onClick`. */
    method Select(t: Theme)
      modifies this
      ensures theme == t
    {
      theme := t;
    }
  }
}
