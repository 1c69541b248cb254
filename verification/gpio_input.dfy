/**
 * The panel's input thread. Every cycle it samples the two encoder phases
 * and the four button lines, decodes one edge of the rotary encoder into a
 * volume command, posts a command for every transport button that reads
 * low, and flips the view mode while the mode line reads low. There is no
 * debounce and no edge detection on the buttons: a line held low acts on
 * every cycle. Each post (to the path `/media`, with the body
 * `{"cmd":"<name>"}`) is recorded as the command it carries.
 */
module GpioInput {

  datatype MediaCmd = VolUp | VolDown | Prev | PlayPause | Next

  /** The `cmd` value of the posted body. */
  function CmdName(c: MediaCmd): string {
    match c
    case VolUp => "vol_up"
    case VolDown => "vol_down"
    case Prev => "prev"
    case PlayPause => "playpause"
    case Next => "next"
  }

  /** The levels `gpioRead` returns in one cycle: encoder phases A and B, then the four buttons. */
  datatype Levels = Levels(a: int, b: int, prev: int, play: int, next: int, mode: int)

  /** Single-edge quadrature decode: a change on phase A gives one step, its direction set by phase B. */
  function VolumeCmds(lastA: int, l: Levels): seq<MediaCmd> {
    if l.a != lastA then (if l.a != l.b then [VolUp] else [VolDown]) else []
  }

  /** The transport buttons that read low, in the order the loop tests them. */
  function ButtonCmds(l: Levels): seq<MediaCmd> {
    (if l.prev == 0 then [Prev] else []) +
    (if l.play == 0 then [PlayPause] else []) +
    (if l.next == 0 then [Next] else [])
  }

  /** Everything one cycle posts, in order. */
  function CycleCmds(lastA: int, l: Levels): seq<MediaCmd> {
    VolumeCmds(lastA, l) + ButtonCmds(l)
  }

  /** The view mode after one cycle. */
  function Toggled(showStats: bool, l: Levels): bool {
    if l.mode == 0 then !showStats else showStats
  }

  /** Everything a run of cycles posts, in order, starting from encoder level `lastA`. */
  function RunCmds(lastA: int, ls: seq<Levels>): seq<MediaCmd>
    decreases |ls|
  {
    if |ls| == 0 then [] else CycleCmds(lastA, ls[0]) + RunCmds(ls[0].a, ls[1..])
  }

  /** The view mode after a run of cycles. */
  function RunShowStats(showStats: bool, ls: seq<Levels>): bool
    decreases |ls|
  {
    if |ls| == 0 then showStats else RunShowStats(Toggled(showStats, ls[0]), ls[1..])
  }

  // ---------- counting, for the properties ----------

  function Count(cmds: seq<MediaCmd>, c: MediaCmd): nat
    decreases |cmds|
  {
    if |cmds| == 0 then 0 else (if cmds[0] == c then 1 else 0) + Count(cmds[1..], c)
  }

  function VolumeCount(cmds: seq<MediaCmd>): nat {
    Count(cmds, VolUp) + Count(cmds, VolDown)
  }

  /** Where a command stands in the loop body: volume first, then prev, playpause, next. */
  function Rank(c: MediaCmd): nat {
    match c
    case VolUp => 0
    case VolDown => 0
    case Prev => 1
    case PlayPause => 2
    case Next => 3
  }

  /** The cycles of `ls` in which phase A differs from the level seen before. */
  function Edges(lastA: int, ls: seq<Levels>): nat
    decreases |ls|
  {
    if |ls| == 0 then 0 else (if ls[0].a != lastA then 1 else 0) + Edges(ls[0].a, ls[1..])
  }

  /** The cycles of `ls` in which the mode line reads low. */
  function ModeLows(ls: seq<Levels>): nat
    decreases |ls|
  {
    if |ls| == 0 then 0 else (if ls[0].mode == 0 then 1 else 0) + ModeLows(ls[1..])
  }

  lemma {:induction false} CountAppend(x: seq<MediaCmd>, y: seq<MediaCmd>, c: MediaCmd)
    ensures Count(x + y, c) == Count(x, c) + Count(y, c)
    decreases |x|
  {
    if |x| == 0 {
      assert x + y == y;
    } else {
      assert (x + y)[1..] == x[1..] + y;
      CountAppend(x[1..], y, c);
    }
  }

  lemma CountSingle(x: MediaCmd, c: MediaCmd)
    ensures Count([x], c) == if x == c then 1 else 0
  {
    assert [x][1..] == [];
  }

  // ---------- one cycle ----------

  /**
   * A change on phase A posts exactly one volume command, first in the
   * cycle: `vol_up` when A and B differ, `vol_down` when they agree. No
   * change on phase A posts none.
   */
  lemma EncoderStep(lastA: int, l: Levels)
    ensures var cmds := CycleCmds(lastA, l);
      (l.a != lastA ==> VolumeCount(cmds) == 1 && cmds[0] == (if l.a != l.b then VolUp else VolDown)) &&
      (l.a == lastA ==> VolumeCount(cmds) == 0)
  {
    var v, bs := VolumeCmds(lastA, l), ButtonCmds(l);
    CountAppend(v, bs, VolUp);
    CountAppend(v, bs, VolDown);
    ButtonCounts(l);
  }

  /** Each transport button that reads low is posted once, and no other. */
  lemma ButtonCounts(l: Levels)
    ensures Count(ButtonCmds(l), Prev) == (if l.prev == 0 then 1 else 0)
    ensures Count(ButtonCmds(l), PlayPause) == (if l.play == 0 then 1 else 0)
    ensures Count(ButtonCmds(l), Next) == (if l.next == 0 then 1 else 0)
    ensures Count(ButtonCmds(l), VolUp) == 0 && Count(ButtonCmds(l), VolDown) == 0
  {
    var p := if l.prev == 0 then [Prev] else [];
    var q := if l.play == 0 then [PlayPause] else [];
    var n := if l.next == 0 then [Next] else [];
    forall c ensures Count(ButtonCmds(l), c) == Count(p, c) + Count(q, c) + Count(n, c) {
      CountAppend(p, q, c);
      CountAppend(p + q, n, c);
    }
    forall x: MediaCmd, c: MediaCmd ensures Count([x], c) == if x == c then 1 else 0 {
      CountSingle(x, c);
    }
  }

  /**
   * Level-triggered buttons: in one cycle each of prev, playpause and next
   * is posted exactly once if its line reads low and not at all otherwise,
   * and everything posted comes in the order volume, prev, playpause, next.
   */
  lemma ButtonsLevelTriggered(lastA: int, l: Levels)
    ensures var cmds := CycleCmds(lastA, l);
      Count(cmds, Prev) == (if l.prev == 0 then 1 else 0) &&
      Count(cmds, PlayPause) == (if l.play == 0 then 1 else 0) &&
      Count(cmds, Next) == (if l.next == 0 then 1 else 0) &&
      forall i, j :: 0 <= i < j < |cmds| ==> Rank(cmds[i]) < Rank(cmds[j])
  {
    var v := VolumeCmds(lastA, l);
    ButtonCounts(l);
    CountAppend(v, ButtonCmds(l), Prev);
    CountAppend(v, ButtonCmds(l), PlayPause);
    CountAppend(v, ButtonCmds(l), Next);
  }

  /** The mode line never posts anything; it flips the view mode exactly when it reads low. */
  lemma ModeLineSendsNothing(lastA: int, l: Levels, m: int, showStats: bool)
    ensures CycleCmds(lastA, l) == CycleCmds(lastA, l.(mode := m))
    ensures Toggled(showStats, l) != showStats <==> l.mode == 0
  {
  }

  // ---------- runs of cycles ----------

  /** The three transport buttons. */
  datatype Button = PrevButton | PlayButton | NextButton

  /** The level a button's line reads in one cycle. */
  function Line(l: Levels, b: Button): int {
    match b
    case PrevButton => l.prev
    case PlayButton => l.play
    case NextButton => l.next
  }

  /** The command a button posts. */
  function ButtonCmd(b: Button): MediaCmd {
    match b
    case PrevButton => Prev
    case PlayButton => PlayPause
    case NextButton => Next
  }

  /** The cycles of `ls` in which the button's line reads low. */
  function LowPasses(ls: seq<Levels>, b: Button): nat
    decreases |ls|
  {
    if |ls| == 0 then 0 else (if Line(ls[0], b) == 0 then 1 else 0) + LowPasses(ls[1..], b)
  }

  /** Over a run, each button's command is posted once for every cycle its line reads low. */
  lemma {:induction false} ButtonPostsPerLowPass(lastA: int, ls: seq<Levels>, b: Button)
    ensures Count(RunCmds(lastA, ls), ButtonCmd(b)) == LowPasses(ls, b)
    decreases |ls|
  {
    if |ls| > 0 {
      ButtonsLevelTriggered(lastA, ls[0]);
      CountAppend(CycleCmds(lastA, ls[0]), RunCmds(ls[0].a, ls[1..]), ButtonCmd(b));
      ButtonPostsPerLowPass(ls[0].a, ls[1..], b);
    }
  }

  /** Holding a button low for n cycles posts its command n times. */
  lemma {:induction false} HeldButtonRepeats(lastA: int, ls: seq<Levels>, b: Button)
    requires forall i :: 0 <= i < |ls| ==> Line(ls[i], b) == 0
    ensures Count(RunCmds(lastA, ls), ButtonCmd(b)) == |ls|
    decreases |ls|
  {
    if |ls| > 0 {
      ButtonsLevelTriggered(lastA, ls[0]);
      CountAppend(CycleCmds(lastA, ls[0]), RunCmds(ls[0].a, ls[1..]), ButtonCmd(b));
      HeldButtonRepeats(ls[0].a, ls[1..], b);
    }
  }

  /** Over a run, the number of volume commands is the number of changes on phase A. */
  lemma {:induction false} VolumeFollowsEdges(lastA: int, ls: seq<Levels>)
    ensures VolumeCount(RunCmds(lastA, ls)) == Edges(lastA, ls)
    decreases |ls|
  {
    if |ls| > 0 {
      var head, rest := CycleCmds(lastA, ls[0]), RunCmds(ls[0].a, ls[1..]);
      EncoderStep(lastA, ls[0]);
      CountAppend(head, rest, VolUp);
      CountAppend(head, rest, VolDown);
      VolumeFollowsEdges(ls[0].a, ls[1..]);
    }
  }

  /** The view mode after a run is the starting mode flipped once per cycle with the mode line low. */
  lemma {:induction false} ModeParity(showStats: bool, ls: seq<Levels>)
    ensures RunShowStats(showStats, ls) == (if ModeLows(ls) % 2 == 0 then showStats else !showStats)
    decreases |ls|
  {
    if |ls| > 0 {
      ModeParity(Toggled(showStats, ls[0]), ls[1..]);
    }
  }

  lemma AppendAssoc(x: seq<MediaCmd>, y: seq<MediaCmd>, z: seq<MediaCmd>)
    ensures (x + y) + z == x + (y + z)
  {
  }

  /** A run from cycle `i` on is cycle `i` followed by the run from cycle `i + 1`. */
  lemma RunStep(lastA: int, showStats: bool, ls: seq<Levels>, i: int)
    requires 0 <= i < |ls|
    ensures RunCmds(lastA, ls[i..]) == CycleCmds(lastA, ls[i]) + RunCmds(ls[i].a, ls[i + 1..])
    ensures RunShowStats(showStats, ls[i..]) == RunShowStats(Toggled(showStats, ls[i]), ls[i + 1..])
  {
    assert ls[i..][1..] == ls[i + 1..];
  }

  // ---------- the thread's state ----------

  class InputPoller {
    /** The encoder's phase-A level seen on the previous change. */
    var lastA: int
    /** The view mode the render loop reads: telemetry when true. */
    var showStats: bool
    /** Every command posted so far, in order. */
    var sent: seq<MediaCmd>

    constructor ()
      ensures lastA == 0 && !showStats && sent == []
    {
      lastA, showStats, sent := 0, false, [];
    }

    /** One pass of the loop body over the sampled levels `l`. */
    method Cycle(l: Levels)
      modifies this
      ensures sent == old(sent) + CycleCmds(old(lastA), l)
      ensures lastA == l.a
      ensures showStats == Toggled(old(showStats), l)
    {
      ghost var s0, v := sent, VolumeCmds(lastA, l);
      ghost var p, q, n := if l.prev == 0 then [Prev] else [], if l.play == 0 then [PlayPause] else [],
        if l.next == 0 then [Next] else [];
      if l.a != lastA {
        if l.a != l.b {
          sent := sent + [VolUp];
        } else {
          sent := sent + [VolDown];
        }
        lastA := l.a;
      }
      assert sent == s0 + v;
      if l.prev == 0 { sent := sent + [Prev]; }
      assert sent == s0 + v + p;
      if l.play == 0 { sent := sent + [PlayPause]; }
      assert sent == s0 + v + p + q;
      if l.next == 0 { sent := sent + [Next]; }
      assert sent == s0 + v + p + q + n;
      AppendAssoc(s0 + v, p, q);
      AppendAssoc(s0 + v, p + q, n);
      AppendAssoc(s0, v, p + q + n);
      if l.mode == 0 { showStats := !showStats; }
    }

    /** The first `|ls|` passes of the thread's endless loop. */
    method Run(ls: seq<Levels>)
      modifies this
      ensures sent == old(sent) + RunCmds(old(lastA), ls)
      ensures showStats == RunShowStats(old(showStats), ls)
      ensures |ls| > 0 ==> lastA == ls[|ls| - 1].a
      ensures |ls| == 0 ==> lastA == old(lastA)
    {
      ghost var sent0, cmds0, show0 := sent, RunCmds(lastA, ls), RunShowStats(showStats, ls);
      var i := 0;
      while i < |ls|
        invariant 0 <= i <= |ls|
        invariant sent + RunCmds(lastA, ls[i..]) == sent0 + cmds0
        invariant RunShowStats(showStats, ls[i..]) == show0
        invariant i > 0 ==> lastA == ls[i - 1].a
        invariant i == 0 ==> lastA == old(lastA)
      {
        ghost var before, a0, s0, rest := sent, lastA, showStats, RunCmds(ls[i].a, ls[i + 1..]);
        RunStep(a0, s0, ls, i);
        Cycle(ls[i]);
        AppendAssoc(before, CycleCmds(a0, ls[i]), rest);
        i := i + 1;
      }
      assert ls[i..] == [];
    }
  }
}
