/**
 One image-to-image transition as a pure state machine. Each call of `Draw`
 takes the current state and a clock reading, fixes the start time on the
 first call, maps the elapsed time to a phase, and returns the next state
 together with the commands that call issues: sound triggers and abstract
 drawing commands.
 */
module Animation {
  import opened Easing
  import opened Geometry

  /** The ends of the phase windows, in milliseconds after the first draw. */
  const HoldEnd: real := 1000.0
  const VerticalEnd: real := 2300.0
  const HorizontalEnd: real := 3600.0
  const CrossfadeEnd: real := 4400.0
  const RevealDuration: real := 1300.0
  const CrossfadeDuration: real := 800.0

  /** Number of sound cues; cue `i` belongs to timed phase `i + 1`. */
  const SoundCount: nat := 3

  datatype Phase =
    | Hold              // base image and a border frame inset by the margin
    | VerticalReveal    // top and bottom lines close in on the region
    | HorizontalReveal  // left and right lines close in on the region
    | Crossfade         // destination image expands from the region to the canvas
    | Done              // marks the animation finished
    | Boundary          // a tick exactly on a window end: no branch runs

  /** The window table: the five timed phases in order, separated by the breakpoints.
      Timed phase `k` owns the open interval between breakpoints `k - 1` and `k`
      (unbounded below for the first, unbounded above for the last). */
  const TimedPhases: seq<Phase> := [Hold, VerticalReveal, HorizontalReveal, Crossfade, Done]
  const Breakpoints: seq<real> := [HoldEnd, VerticalEnd, HorizontalEnd, CrossfadeEnd]

  predicate InWindow(k: nat, t: real)
    requires k < |TimedPhases|
  {
    && (k == 0 || Breakpoints[k - 1] < t)
    && (k == |Breakpoints| || t < Breakpoints[k])
  }

  /** The chain of strict tests `draw` runs on the elapsed time, in source order. It lands in
      a timed phase exactly when the time lies in that phase's window, and falls through
      every test exactly on a breakpoint. */
  function PhaseOf(t: real): (p: Phase)
    ensures forall k :: 0 <= k < |TimedPhases| ==> (p == TimedPhases[k] <==> InWindow(k, t))
    ensures p == Boundary <==> t in Breakpoints
  {
    if t < HoldEnd then Hold
    else if HoldEnd < t && t < VerticalEnd then VerticalReveal
    else if VerticalEnd < t && t < HorizontalEnd then HorizontalReveal
    else if HorizontalEnd < t && t < CrossfadeEnd then Crossfade
    else if CrossfadeEnd < t then Done
    else Boundary
  }

  /** The windows of the table are pairwise disjoint, so no elapsed time could satisfy two
      branches of the chain. */
  lemma WindowsDisjoint(t: real)
    ensures forall j, k :: 0 <= j < |TimedPhases| && 0 <= k < |TimedPhases| && InWindow(j, t) && InWindow(k, t) ==> j == k
  {
  }

  /** The windows of the three cued phases and of the finishing phase, one by one. */
  lemma CuedWindows(t: real)
    ensures InWindow(1, t) <==> PhaseOf(t) == VerticalReveal
    ensures InWindow(2, t) <==> PhaseOf(t) == HorizontalReveal
    ensures InWindow(3, t) <==> PhaseOf(t) == Crossfade
    ensures CrossfadeEnd < t <==> PhaseOf(t) == Done
  {
  }

  /** Position of a timed phase in the timeline. Ranks are only compared for ticks off the
      breakpoints (see `PhaseOfMonotone`), so the rank of `Boundary` is never used. */
  function Rank(p: Phase): nat
  {
    match p
    case Hold => 0
    case VerticalReveal => 2
    case HorizontalReveal => 4
    case Crossfade => 6
    case Done => 8
    case Boundary => 1
  }

  /** The phases follow time: a later tick is never in an earlier phase. */
  lemma PhaseOfMonotone(t1: real, t2: real)
    requires t1 <= t2
    requires PhaseOf(t1) != Boundary && PhaseOf(t2) != Boundary
    ensures Rank(PhaseOf(t1)) <= Rank(PhaseOf(t2))
  {
  }

  /** Eased progress of the vertical reveal. */
  function VerticalProgress(t: real): (k: real)
    ensures t == HoldEnd ==> k == 0.0
    ensures t == VerticalEnd ==> k == 1.0
    ensures HoldEnd < t < VerticalEnd ==> 0.0 < k < 1.0
  {
    EaseOut((t - HoldEnd) / RevealDuration)
  }

  /** Eased progress of the horizontal reveal. */
  function HorizontalProgress(t: real): (k: real)
    ensures t == VerticalEnd ==> k == 0.0
    ensures t == HorizontalEnd ==> k == 1.0
    ensures VerticalEnd < t < HorizontalEnd ==> 0.0 < k < 1.0
  {
    EaseOut((t - VerticalEnd) / RevealDuration)
  }

  /** Linear progress of the crossfade. */
  function CrossfadeProgress(t: real): (k: real)
    ensures t == HorizontalEnd ==> k == 0.0
    ensures t == CrossfadeEnd ==> k == 1.0
    ensures HorizontalEnd < t < CrossfadeEnd ==> 0.0 < k < 1.0
  {
    (t - HorizontalEnd) / CrossfadeDuration
  }

  /** Inside its window every phase's progress lies strictly between 0 and 1, so no draw
      ever lands exactly on an endpoint of an interpolation. */
  lemma ProgressInOpenUnit(t: real)
    ensures HoldEnd < t < VerticalEnd ==> 0.0 < VerticalProgress(t) < 1.0
    ensures VerticalEnd < t < HorizontalEnd ==> 0.0 < HorizontalProgress(t) < 1.0
    ensures HorizontalEnd < t < CrossfadeEnd ==> 0.0 < CrossfadeProgress(t) < 1.0
  {
    EaseOutShape((t - HoldEnd) / RevealDuration, 1.0);
    EaseOutShape((t - VerticalEnd) / RevealDuration, 1.0);
  }

  /** What one draw call asks of its surroundings. */
  datatype Command =
    | PlaySound(cue: nat)                  // trigger the shared sound handle `cue`
    | DrawBase                             // the base image, unscaled, at the origin
    | DrawDest(target: Rect, opacity: real) // the destination image into `target`
    | DrawLine(from: Point, to: Point)      // one border line

  /** A full-height line at `x` and a full-width line at `y`. */
  function VLine(x: real, h: real): Command
  {
    DrawLine(Point(x, 0.0), Point(x, h))
  }

  function HLine(y: real, w: real): Command
  {
    DrawLine(Point(0.0, y), Point(w, y))
  }

  /** The state of one animation. `dest` is the top-left corner of its destination region
      and never changes; `startTime` means nothing until `hasStarted`. */
  datatype Anim = Anim(
    dest: Point,
    hasStarted: bool,
    startTime: real,
    soundsHavePlayed: seq<bool>,
    hasFinished: bool)

  predicate Valid(a: Anim)
  {
    |a.soundsHavePlayed| == SoundCount
  }

  /** A freshly constructed animation: not started, not finished, no cue played. */
  function New(dest: Point): (a: Anim)
    ensures Valid(a) && a.dest == dest
    ensures !a.hasStarted && !a.hasFinished
    ensures forall i :: 0 <= i < SoundCount ==> !a.soundsHavePlayed[i]
  {
    Anim(dest, false, 0.0, [false, false, false], false)
  }

  /** The state after one draw, and the commands that draw issued, in order. */
  datatype Frame = Frame(next: Anim, commands: seq<Command>)

  /** Elapsed time seen by a draw at clock reading `now`: measured from the start time that
      draw fixes, so the first draw sees 0. */
  function Elapsed(a: Anim, now: real): (t: real)
    ensures t == now - StartedOnly(a, now).startTime
    ensures !a.hasStarted ==> t == 0.0
  {
    now - (if a.hasStarted then a.startTime else now)
  }

  /** The four full-canvas lines along the edges of box `b`: left, right, top, bottom. */
  function BoxLines(b: Rect, w: real, h: real): seq<Command>
  {
    [VLine(b.x1, h), VLine(b.x2, h), HLine(b.y1, w), HLine(b.y2, w)]
  }

  /** `lines` are exactly the four edges of box `b`: the vertical pair first, or the
      horizontal pair first. */
  predicate Frames(lines: seq<Command>, b: Rect, w: real, h: real)
  {
    var e := BoxLines(b, w, h);
    lines == e || lines == e[2..] + e[..2]
  }

  /** While holding: the base image and the four border lines inset by the margin. */
  function HoldCommands(w: real, h: real): (r: seq<Command>)
    ensures Silent(r) && |r| == 5 && r[0] == DrawBase
    ensures Frames(r[1..], InsetBox(w, h), w, h)
  {
    [DrawBase, VLine(Margin, h), VLine(w - Margin, h), HLine(Margin, w), HLine(h - Margin, w)]
  }

  /** Vertical border lines fixed at the inset; top and bottom lines on their way in. */
  function VerticalCommands(dest: Point, t: real, w: real, h: real): (r: seq<Command>)
    ensures Silent(r) && |r| == 5 && r[0] == DrawBase
    ensures Frames(r[1..], VerticalRevealBox(dest, VerticalProgress(t), w, h), w, h)
  {
    var b := VerticalRevealBox(dest, VerticalProgress(t), w, h);
    [DrawBase, VLine(b.x1, h), VLine(b.x2, h), HLine(b.y1, w), HLine(b.y2, w)]
  }

  /** Top and bottom lines fixed on the region; left and right lines on their way in. */
  function HorizontalCommands(dest: Point, t: real, w: real, h: real): (r: seq<Command>)
    ensures Silent(r) && |r| == 5 && r[0] == DrawBase
    ensures Frames(r[1..], HorizontalRevealBox(dest, HorizontalProgress(t), w, h), w, h)
  {
    var b := HorizontalRevealBox(dest, HorizontalProgress(t), w, h);
    var lines := [HLine(b.y1, w), HLine(b.y2, w), VLine(b.x1, h), VLine(b.x2, h)];
    [DrawBase] + lines
  }

  /** The destination image fading in over a growing rectangle, framed by its edges. */
  function CrossfadeCommands(dest: Point, t: real, w: real, h: real): (r: seq<Command>)
    ensures Silent(r) && |r| == 6 && r[0] == DrawBase
    ensures var kappa := CrossfadeProgress(t);
      r[1] == DrawDest(ExpandRect(dest, kappa, w, h), Opacity(kappa))
      && Frames(r[2..], ExpandRect(dest, kappa, w, h), w, h)
  {
    var kappa := CrossfadeProgress(t);
    var b := ExpandRect(dest, kappa, w, h);
    var lines := [HLine(b.y1, w), HLine(b.y2, w), VLine(b.x1, h), VLine(b.x2, h)];
    [DrawBase, DrawDest(b, Opacity(kappa))] + lines
  }

  /** Consecutive phases join up: the closing lines start from the hold frame, the
      horizontal reveal starts where the vertical one ended and ends on the destination
      region, and the crossfade grows from that region to the whole canvas. */
  lemma PhasesJoin(dest: Point, w: real, h: real)
    ensures VerticalRevealBox(dest, VerticalProgress(HoldEnd), w, h) == InsetBox(w, h)
    ensures HorizontalRevealBox(dest, HorizontalProgress(VerticalEnd), w, h)
         == VerticalRevealBox(dest, VerticalProgress(VerticalEnd), w, h)
    ensures HorizontalRevealBox(dest, HorizontalProgress(HorizontalEnd), w, h) == DestRegion(dest)
    ensures ExpandRect(dest, CrossfadeProgress(HorizontalEnd), w, h) == DestRegion(dest)
    ensures ExpandRect(dest, CrossfadeProgress(CrossfadeEnd), w, h) == CanvasRect(w, h)
  {
  }

  /** Number of times `cmds` triggers cue `i`. */
  function Plays(cmds: seq<Command>, i: nat): nat
  {
    if |cmds| == 0 then 0
    else (if cmds[0] == PlaySound(i) then 1 else 0) + Plays(cmds[1..], i)
  }

  /** `cmds` only draws and plays no cue. */
  predicate Silent(cmds: seq<Command>)
  {
    forall j :: 0 <= j < |cmds| ==> !cmds[j].PlaySound?
  }

  /** Counting cues distributes over concatenation. */
  lemma {:induction false} PlaysAppend(x: seq<Command>, y: seq<Command>, i: nat)
    ensures Plays(x + y, i) == Plays(x, i) + Plays(y, i)
    decreases |x|
  {
    if |x| > 0 {
      assert (x + y)[1..] == x[1..] + y;
      PlaysAppend(x[1..], y, i);
    } else {
      assert x + y == y;
    }
  }

  /** A silent sequence plays no cue. */
  lemma {:induction false} PlaysSilent(cmds: seq<Command>, i: nat)
    requires Silent(cmds)
    ensures Plays(cmds, i) == 0
    decreases |cmds|
  {
    if |cmds| > 0 {
      PlaysSilent(cmds[1..], i);
    }
  }

  /** The state after the lazy start: an animation that has started is left as it is; one
      that has not starts at `now`; nothing else changes. */
  function StartedOnly(a: Anim, now: real): (s: Anim)
    ensures s.hasStarted
    ensures a.hasStarted ==> s == a
    ensures !a.hasStarted ==> s.startTime == now
    ensures s == a.(hasStarted := true, startTime := s.startTime)
  {
    a.(hasStarted := true, startTime := if a.hasStarted then a.startTime else now)
  }

  /** The phase dispatch of one draw, on a started state `s` and elapsed time `t`. */
  function Dispatch(s: Anim, t: real, w: real, h: real): (f: Frame)
    requires Valid(s)
    ensures Valid(f.next) && f.next.dest == s.dest
    ensures f.next.hasStarted == s.hasStarted && f.next.startTime == s.startTime
    ensures f.next.hasFinished <==> s.hasFinished || CrossfadeEnd < t
    ensures forall i :: 0 <= i < SoundCount ==>
      (f.next.soundsHavePlayed[i] <==> s.soundsHavePlayed[i] || InWindow(i + 1, t))
  {
    CuedWindows(t);
    match PhaseOf(t)
    case Hold => Frame(s, HoldCommands(w, h))
    case VerticalReveal => Cue(s, 0, VerticalCommands(s.dest, t, w, h))
    case HorizontalReveal => Cue(s, 1, HorizontalCommands(s.dest, t, w, h))
    case Crossfade => Cue(s, 2, CrossfadeCommands(s.dest, t, w, h))
    case Done => Frame(s.(hasFinished := true), [])
    case Boundary => Frame(s, [])
  }

  /** A phase body with cue `i`: the cue, unless it has already played, then the drawing;
      the cue's flag is set afterwards. */
  function Cue(s: Anim, i: nat, body: seq<Command>): (f: Frame)
    requires Valid(s) && i < SoundCount && Silent(body)
    ensures Valid(f.next) && f.next.soundsHavePlayed[i]
    ensures forall j :: 0 <= j < SoundCount && j != i ==>
      f.next.soundsHavePlayed[j] == s.soundsHavePlayed[j]
    ensures f.next.dest == s.dest && f.next.hasFinished == s.hasFinished
    ensures f.next.hasStarted == s.hasStarted && f.next.startTime == s.startTime
    ensures |f.commands| == |body| + (if s.soundsHavePlayed[i] then 0 else 1)
    ensures f.commands[|f.commands| - |body|..] == body
    ensures !s.soundsHavePlayed[i] ==> f.commands[0] == PlaySound(i)
  {
    var played := s.(soundsHavePlayed := s.soundsHavePlayed[i := true]);
    if s.soundsHavePlayed[i] then Frame(played, body)
    else Frame(played, [PlaySound(i)] + body)
  }

  /** The cue part of a phase body plays its own cue once, if it has not played, and no
      other cue. */
  lemma CuePlays(s: Anim, i: nat, body: seq<Command>, j: nat)
    requires Valid(s) && i < SoundCount && Silent(body)
    ensures Plays(Cue(s, i, body).commands, j) == if j == i && !s.soundsHavePlayed[i] then 1 else 0
  {
    var cue: seq<Command> := if s.soundsHavePlayed[i] then [] else [PlaySound(i)];
    PlaysAppend(cue, body, j);
    PlaysSilent(body, j);
    if cue != [] {
      assert cue[1..] == [];
    }
  }

  /** One draw call on a `w` by `h` canvas at clock reading `now`. The start time is fixed
      on the first call and kept afterwards; cue `i` plays on this call exactly when the
      elapsed time lies in the window of timed phase `i + 1` (see `DrawPlays`), and its flag
      is set from then on; the finished flag is raised exactly past the last breakpoint and
      never lowered. */
  function Draw(a: Anim, now: real, w: real, h: real): (f: Frame)
    requires Valid(a)
    ensures Valid(f.next) && f.next.dest == a.dest
    ensures f.next.hasStarted
    ensures f.next.startTime == if a.hasStarted then a.startTime else now
    ensures f.next.hasFinished <==> a.hasFinished || CrossfadeEnd < Elapsed(a, now)
    ensures forall i :: 0 <= i < SoundCount ==>
      (f.next.soundsHavePlayed[i] <==> a.soundsHavePlayed[i] || InWindow(i + 1, Elapsed(a, now)))
  {
    Dispatch(StartedOnly(a, now), Elapsed(a, now), w, h)
  }

  /** Cue `i` is played by a draw exactly once when the elapsed time lies in the window of
      timed phase `i + 1` and the cue has not played before, and not at all otherwise. */
  lemma DrawPlays(a: Anim, now: real, w: real, h: real, i: nat)
    requires Valid(a) && i < SoundCount
    ensures Plays(Draw(a, now, w, h).commands, i)
         == if !a.soundsHavePlayed[i] && InWindow(i + 1, Elapsed(a, now)) then 1 else 0
  {
    var s, t := StartedOnly(a, now), Elapsed(a, now);
    assert Draw(a, now, w, h) == Dispatch(s, t, w, h);
    CuedWindows(t);
    match PhaseOf(t)
    case Hold =>
      PlaysSilent(HoldCommands(w, h), i);
    case VerticalReveal =>
      CuePlays(s, 0, VerticalCommands(a.dest, t, w, h), i);
    case HorizontalReveal =>
      CuePlays(s, 1, HorizontalCommands(a.dest, t, w, h), i);
    case Crossfade =>
      CuePlays(s, 2, CrossfadeCommands(a.dest, t, w, h), i);
    case Done =>
    case Boundary =>
  }

  /** The phase bodies exclude each other: a single draw plays at most one cue. */
  lemma DrawPlaysAtMostOneCue(a: Anim, now: real, w: real, h: real)
    requires Valid(a)
    ensures var c := Draw(a, now, w, h).commands;
      Plays(c, 0) + Plays(c, 1) + Plays(c, 2) <= 1
  {
    DrawPlays(a, now, w, h, 0);
    DrawPlays(a, now, w, h, 1);
    DrawPlays(a, now, w, h, 2);
  }

  /** Before the first breakpoint: no cue, no flag change, not finished by this call, and
      only the base image with the inset border frame is drawn. */
  lemma DrawHold(a: Anim, now: real, w: real, h: real)
    requires Valid(a)
    requires Elapsed(a, now) < HoldEnd
    ensures Draw(a, now, w, h).next == StartedOnly(a, now)
    ensures Draw(a, now, w, h).commands
         == [DrawBase, VLine(Margin, h), VLine(w - Margin, h), HLine(Margin, w), HLine(h - Margin, w)]
  {
  }

  /** A tick exactly on a breakpoint falls through every branch: nothing is drawn or played
      and only the lazy start can change the state. */
  lemma DrawBoundary(a: Anim, now: real, w: real, h: real)
    requires Valid(a)
    requires Elapsed(a, now) in Breakpoints
    ensures Draw(a, now, w, h) == Frame(StartedOnly(a, now), [])
  {
  }

  /** Inside the vertical reveal: cue 0 plays unless it already has, the vertical frame lines
      stay at the inset, and the top and bottom lines lie strictly between their start
      (the inset) and their end (the region's top and bottom edges). */
  lemma DrawVerticalReveal(a: Anim, now: real, w: real, h: real)
    requires Valid(a)
    requires HoldEnd < Elapsed(a, now) < VerticalEnd
    ensures var f := Draw(a, now, w, h);
      var k := VerticalProgress(Elapsed(a, now));
      && 0.0 < k < 1.0
      && f.commands == (if a.soundsHavePlayed[0] then [] else [PlaySound(0)])
           + [DrawBase, VLine(Margin, h), VLine(w - Margin, h),
              HLine(RevealNear(k, a.dest.y), w), HLine(RevealFar(k, h, a.dest.y + DestHeight), w)]
      && StrictlyBetween(RevealNear(k, a.dest.y), Margin, a.dest.y)
      && StrictlyBetween(RevealFar(k, h, a.dest.y + DestHeight), h - Margin, a.dest.y + DestHeight)
      && f.next.hasFinished == a.hasFinished
  {
    var t := Elapsed(a, now);
    var k := VerticalProgress(t);
    assert PhaseOf(t) == VerticalReveal;
    assert Draw(a, now, w, h) == Cue(StartedOnly(a, now), 0, VerticalCommands(a.dest, t, w, h));
    ProgressInOpenUnit(t);
    RevealNearPath(k, a.dest.y);
    RevealFarPath(k, h, a.dest.y + DestHeight);
  }

  /** Inside the horizontal reveal: cue 1 plays unless it already has, the horizontal lines
      sit on the region's top and bottom edges, and the left and right lines lie strictly
      between the inset and the region's left and right edges. */
  lemma DrawHorizontalReveal(a: Anim, now: real, w: real, h: real)
    requires Valid(a)
    requires VerticalEnd < Elapsed(a, now) < HorizontalEnd
    ensures var f := Draw(a, now, w, h);
      var k := HorizontalProgress(Elapsed(a, now));
      && 0.0 < k < 1.0
      && f.commands == (if a.soundsHavePlayed[1] then [] else [PlaySound(1)])
           + [DrawBase, HLine(a.dest.y, w), HLine(a.dest.y + DestHeight, w),
              VLine(RevealNear(k, a.dest.x), h), VLine(RevealFar(k, w, a.dest.x + DestWidth), h)]
      && StrictlyBetween(RevealNear(k, a.dest.x), Margin, a.dest.x)
      && StrictlyBetween(RevealFar(k, w, a.dest.x + DestWidth), w - Margin, a.dest.x + DestWidth)
      && f.next.hasFinished == a.hasFinished
  {
    var t := Elapsed(a, now);
    var k := HorizontalProgress(t);
    assert PhaseOf(t) == HorizontalReveal;
    assert Draw(a, now, w, h) == Cue(StartedOnly(a, now), 1, HorizontalCommands(a.dest, t, w, h));
    ProgressInOpenUnit(t);
    RevealNearPath(k, a.dest.x);
    RevealFarPath(k, w, a.dest.x + DestWidth);
  }

  /** Inside the crossfade: cue 2 plays unless it already has, the destination image is drawn
      partly transparent into a rectangle that contains the region and lies on the canvas
      (when the region does), and the four lines frame that rectangle. */
  lemma DrawCrossfade(a: Anim, now: real, w: real, h: real)
    requires Valid(a)
    requires HorizontalEnd < Elapsed(a, now) < CrossfadeEnd
    ensures var f := Draw(a, now, w, h);
      var k := CrossfadeProgress(Elapsed(a, now));
      var r := ExpandRect(a.dest, k, w, h);
      && 0.0 < k < 1.0
      && f.commands == (if a.soundsHavePlayed[2] then [] else [PlaySound(2)])
           + [DrawBase, DrawDest(r, Opacity(k)), HLine(r.y1, w), HLine(r.y2, w), VLine(r.x1, h), VLine(r.x2, h)]
      && 0.0 < Opacity(k) < OpaqueAlpha
      && (Contains(CanvasRect(w, h), DestRegion(a.dest)) ==>
            Contains(r, DestRegion(a.dest)) && Contains(CanvasRect(w, h), r))
      && f.next.hasFinished == a.hasFinished
  {
    var t := Elapsed(a, now);
    var k := CrossfadeProgress(t);
    assert PhaseOf(t) == Crossfade;
    assert Draw(a, now, w, h) == Cue(StartedOnly(a, now), 2, CrossfadeCommands(a.dest, t, w, h));
    ProgressInOpenUnit(t);
    OpacityRange(k);
    if Contains(CanvasRect(w, h), DestRegion(a.dest)) {
      ExpandRectGrows(a.dest, k, k, w, h);
    }
  }

  /** Past the last breakpoint: the animation is marked finished, nothing is drawn or played,
      and the cue flags stay as they were. */
  lemma DrawDone(a: Anim, now: real, w: real, h: real)
    requires Valid(a)
    requires CrossfadeEnd < Elapsed(a, now)
    ensures Draw(a, now, w, h) == Frame(StartedOnly(a, now).(hasFinished := true), [])
  {
  }
}
