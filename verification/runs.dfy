/**
 Whole lives of one animation: `Run` feeds a sequence of clock readings to
 `Draw`, one reading per draw call, and collects every command issued. The
 lemmas here state what holds across calls: the start time is fixed once,
 each sound cue plays at most once and only if some tick lands in its phase's
 window, and the finished flag is raised once and stays raised.
 */
module Runs {
  import opened Easing
  import opened Geometry
  import opened Animation

  /** The state after drawing at each reading of `times` in turn, and all commands issued.
      The destination never moves, the animation has started once any tick was drawn, and
      neither a cue flag nor the finished flag is ever cleared. */
  function Run(a: Anim, times: seq<real>, w: real, h: real): (f: Frame)
    requires Valid(a)
    ensures Valid(f.next) && f.next.dest == a.dest
    ensures f.next.hasStarted <==> a.hasStarted || |times| > 0
    ensures a.hasFinished ==> f.next.hasFinished
    ensures forall i :: 0 <= i < SoundCount && a.soundsHavePlayed[i] ==> f.next.soundsHavePlayed[i]
    decreases |times|
  {
    if |times| == 0 then Frame(a, [])
    else
      var first := Draw(a, times[0], w, h);
      var rest := Run(first.next, times[1..], w, h);
      Frame(rest.next, first.commands + rest.commands)
  }

  /** The start time a run works with: the stored one, or else its first reading. */
  function StartOf(a: Anim, times: seq<real>): real
  {
    if a.hasStarted || |times| == 0 then a.startTime else times[0]
  }

  /** Some tick of the run has its elapsed time inside the window of timed phase `k`. */
  predicate Hits(a: Anim, times: seq<real>, k: nat)
    requires k < |TimedPhases|
  {
    exists j :: 0 <= j < |times| && InWindow(k, times[j] - StartOf(a, times))
  }

  /** How a run's ticks split into its first tick and the rest. */
  lemma HitsSplit(a: Anim, b: Anim, times: seq<real>, k: nat)
    requires k < |TimedPhases| && |times| > 0
    requires b.hasStarted && b.startTime == StartOf(a, times)
    ensures Hits(a, times, k) <==> InWindow(k, times[0] - StartOf(a, times)) || Hits(b, times[1..], k)
  {
  }

  /** The elapsed time of a run's first draw, measured from the run's start time. */
  lemma FirstElapsed(a: Anim, times: seq<real>)
    requires |times| > 0
    ensures Elapsed(a, times[0]) == times[0] - StartOf(a, times)
  {
  }

  /** The start time is taken from the first reading unless already set, and never
      reassigned afterwards. */
  lemma {:induction false} RunStartTime(a: Anim, times: seq<real>, w: real, h: real)
    requires Valid(a)
    ensures |times| == 0 ==> Run(a, times, w, h).next == a
    ensures |times| > 0 ==> Run(a, times, w, h).next.hasStarted
    ensures |times| > 0 ==> Run(a, times, w, h).next.startTime == StartOf(a, times)
    ensures a.hasStarted ==> Run(a, times, w, h).next.startTime == a.startTime
    decreases |times|
  {
    if |times| > 0 {
      var first := Draw(a, times[0], w, h);
      RunStartTime(first.next, times[1..], w, h);
    }
  }

  /** Cue `i` plays at most once over a whole run: exactly once if it had not played before
      and some tick lands strictly inside its phase's window, never otherwise (a run whose
      ticks skip over the window never plays it). Its flag ends up set exactly when it was
      set before or some tick landed in the window, so a set flag is never cleared. */
  lemma {:induction false} RunCues(a: Anim, times: seq<real>, w: real, h: real, i: nat)
    requires Valid(a) && i < SoundCount
    ensures Plays(Run(a, times, w, h).commands, i)
         == if !a.soundsHavePlayed[i] && Hits(a, times, i + 1) then 1 else 0
    ensures Run(a, times, w, h).next.soundsHavePlayed[i]
        <==> a.soundsHavePlayed[i] || Hits(a, times, i + 1)
    decreases |times|
  {
    if |times| > 0 {
      var first := Draw(a, times[0], w, h);
      var rest := Run(first.next, times[1..], w, h);
      FirstElapsed(a, times);
      HitsSplit(a, first.next, times, i + 1);
      DrawPlays(a, times[0], w, h, i);
      RunCues(first.next, times[1..], w, h, i);
      PlaysAppend(first.commands, rest.commands, i);
    }
  }

  /** Some tick of the run lies past the last breakpoint. */
  predicate PassesEnd(a: Anim, times: seq<real>)
  {
    exists j :: 0 <= j < |times| && CrossfadeEnd < times[j] - StartOf(a, times)
  }

  /** A run ends finished exactly when the animation was finished already or some tick lies
      strictly past the last breakpoint: the flag is never lowered. */
  lemma {:induction false} RunFinished(a: Anim, times: seq<real>, w: real, h: real)
    requires Valid(a)
    ensures Run(a, times, w, h).next.hasFinished <==> a.hasFinished || PassesEnd(a, times)
    decreases |times|
  {
    if |times| > 0 {
      var first := Draw(a, times[0], w, h);
      FirstElapsed(a, times);
      PassesEndSplit(a, first.next, times);
      RunFinished(first.next, times[1..], w, h);
    }
  }

  /** How "some tick lies past the end" splits into the first tick and the rest. */
  lemma PassesEndSplit(a: Anim, b: Anim, times: seq<real>)
    requires |times| > 0
    requires b.hasStarted && b.startTime == StartOf(a, times)
    ensures PassesEnd(a, times) <==> CrossfadeEnd < times[0] - StartOf(a, times) || PassesEnd(b, times[1..])
  {
  }

  /** The whole life of a freshly constructed animation, with elapsed times measured from the
      first reading: its first draw always shows the hold frame, every cue plays at most
      once and exactly when some tick lands in its window, and it ends finished exactly
      when some tick lies past the last breakpoint. */
  lemma FreshRun(dest: Point, times: seq<real>, w: real, h: real)
    requires |times| > 0
    ensures var f := Run(New(dest), times, w, h);
      && f.next.startTime == times[0]
      && f.commands[..5] == [DrawBase, VLine(Margin, h), VLine(w - Margin, h), HLine(Margin, w), HLine(h - Margin, w)]
      && (forall i :: 0 <= i < SoundCount ==> Plays(f.commands, i) <= 1)
      && (forall i :: 0 <= i < SoundCount ==>
            (Plays(f.commands, i) == 1 <==> exists j :: 0 <= j < |times| && InWindow(i + 1, times[j] - times[0])))
      && (f.next.hasFinished <==> exists j :: 0 <= j < |times| && CrossfadeEnd < times[j] - times[0])
  {
    var a := New(dest);
    var f := Run(a, times, w, h);
    RunStartTime(a, times, w, h);
    RunFinished(a, times, w, h);
    forall i | 0 <= i < SoundCount
      ensures Plays(f.commands, i) <= 1
      ensures Plays(f.commands, i) == 1 <==> exists j :: 0 <= j < |times| && InWindow(i + 1, times[j] - times[0])
    {
      RunCues(a, times, w, h, i);
    }
    DrawHold(a, times[0], w, h);
    var first := Draw(a, times[0], w, h);
    assert f.commands == first.commands + Run(first.next, times[1..], w, h).commands;
  }

  /** A concrete timeline: region at (100, 100) on a 1024 by 768 canvas, ticks 0, 500,
      1650 and 4500 ms after the first. The first two show the hold frame; the third plays
      cue 0 and puts the top and bottom lines at `1 + k * 99` and `767 * (1 - k) + k * 160`
      for `k = easeOut(0.5) = 0.875`; the fourth finishes the animation. */
  lemma ExampleTimeline(start: real)
    ensures var a0 := New(Point(100.0, 100.0));
      var f1 := Draw(a0, start, 1024.0, 768.0);
      var f2 := Draw(f1.next, start + 500.0, 1024.0, 768.0);
      var f3 := Draw(f2.next, start + 1650.0, 1024.0, 768.0);
      var f4 := Draw(f3.next, start + 4500.0, 1024.0, 768.0);
      && f1.commands == HoldCommands(1024.0, 768.0)
      && f2.commands == HoldCommands(1024.0, 768.0)
      && f3.commands == [PlaySound(0), DrawBase, VLine(1.0, 768.0), VLine(1023.0, 768.0),
                         HLine(87.625, 1024.0), HLine(235.875, 1024.0)]
      && f3.next.soundsHavePlayed == [true, false, false]
      && !f3.next.hasFinished
      && f4.commands == []
      && f4.next.hasFinished
  {
    var dest := Point(100.0, 100.0);
    var a0 := New(dest);
    var started := Anim(dest, true, start, [false, false, false], false);
    var f1 := Draw(a0, start, 1024.0, 768.0);
    DrawHold(a0, start, 1024.0, 768.0);
    assert f1.next == started;
    var f2 := Draw(f1.next, start + 500.0, 1024.0, 768.0);
    DrawHold(started, start + 500.0, 1024.0, 768.0);
    assert f2.next == started;
    var f3 := Draw(started, start + 1650.0, 1024.0, 768.0);
    assert Elapsed(started, start + 1650.0) == 1650.0;
    DrawVerticalReveal(started, start + 1650.0, 1024.0, 768.0);
    assert VerticalProgress(1650.0) == 0.875 by {
      assert (1650.0 - HoldEnd) / RevealDuration == 0.5;
      assert Pow(0.5, 3) == 0.125;
    }
    assert RevealNear(0.875, 100.0) == 87.625;
    assert RevealFar(0.875, 768.0, 160.0) == 235.875;
    assert f3.next == started.(soundsHavePlayed := [true, false, false]);
    var f4 := Draw(f3.next, start + 4500.0, 1024.0, 768.0);
    DrawDone(f3.next, start + 4500.0, 1024.0, 768.0);
  }
}
