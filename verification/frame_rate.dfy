/**
 The rolling FPS counter of MainActivity.updateFPS, with the clock as a
 parameter. Kotlin `Int` arithmetic wraps at 32 bits and `Long` division
 truncates toward zero; both are written out.
 */
module FrameRate {
  import opened Wrappers

  const FpsUpdateIntervalMs := 1000
  const IntMin := -0x8000_0000
  const IntMax := 0x7FFF_FFFF

  predicate IsInt(x: int) {
    IntMin <= x <= IntMax
  }

  /** Kotlin `Int` arithmetic: two's-complement wrap-around to 32 bits. */
  function Wrap32(x: int): (r: int)
    ensures IsInt(r)
    ensures (x - r) % 0x1_0000_0000 == 0
    ensures IsInt(x) ==> r == x
  {
    (x - IntMin) % 0x1_0000_0000 + IntMin
  }

  /** Kotlin `Long` division by a positive divisor: the quotient truncated toward zero. */
  function TruncDiv(a: int, d: int): (q: int)
    requires d > 0
    ensures a >= 0 ==> q == a / d && 0 <= q <= a
    ensures a < 0 ==> q == -((-a) / d) && a <= q <= 0
    ensures IsInt(a) ==> IsInt(q)
  {
    var q := if a >= 0 then a / d else -((-a) / d);
    QuotientBetween(a, d, q);
    q
  }

  /** A truncated quotient lies between 0 and the dividend. */
  lemma QuotientBetween(a: int, d: int, q: int)
    requires d > 0
    requires q == if a >= 0 then a / d else -((-a) / d)
    ensures a >= 0 ==> 0 <= q <= a
    ensures a < 0 ==> a <= q <= 0
  {
    if a >= 0 {
      DivAtMost(a, d);
    } else {
      DivAtMost(-a, d);
    }
  }

  lemma DivAtMost(a: nat, d: int)
    requires d > 0
    ensures 0 <= a / d <= a
  {
    var q := a / d;
    assert q * d <= a;
    MulAtLeast(q, d);
  }

  lemma MulAtLeast(q: nat, d: int)
    requires d > 0
    ensures q <= q * d
  {
    var e := d - 1;
    assert q * d == q + q * e;
  }

  /** Dividing by a divisor of at least 1000 gives no more than dividing by 1000. */
  lemma RateAtMostCount(frameCount: nat, timeDiff: int)
    requires timeDiff >= 1000
    ensures frameCount * 1000 / timeDiff <= frameCount
  {
    var q := frameCount * 1000 / timeDiff;
    assert q >= 0;
    assert q * timeDiff <= frameCount * 1000;
    assert q * 1000 <= q * timeDiff;
  }

  datatype FpsCounter = FpsCounter(frameCount: int, lastFpsTime: int)

  /** The counter after one call, and the FPS value it posts to the screen, if any. */
  datatype Tick = Tick(counter: FpsCounter, shown: Option<int>)

  /** A posted FPS value and the clock reading at which it was posted. */
  datatype Report = Report(time: int, fps: int)

  /** A run of calls: the final counter and every posted value, in order. */
  datatype Window = Window(counter: FpsCounter, reports: seq<Report>)

  /** Frames per second over `elapsedMs`, rounded down. */
  function FloorRate(frames: nat, elapsedMs: int): int
    requires elapsedMs > 0
  {
    frames * 1000 / elapsedMs
  }

  /**
   `(frameCount * 1000 / timeDiff).toInt()`: the product is an `Int`, the division
   a `Long` one. Below the wrap-around bound it is the floor of frames per second.
   */
  function Fps(frameCount: int, timeDiff: int): (fps: int)
    requires timeDiff >= FpsUpdateIntervalMs
    ensures IsInt(fps)
    ensures 0 <= frameCount <= IntMax / 1000 ==>
      fps == FloorRate(frameCount, timeDiff) && 0 <= fps <= frameCount
  {
    var q := TruncDiv(Wrap32(frameCount * 1000), timeDiff);
    assert 0 <= frameCount <= IntMax / 1000 ==> q <= frameCount by {
      if 0 <= frameCount <= IntMax / 1000 {
        RateAtMostCount(frameCount, timeDiff);
      }
    }
    q
  }

  /**
   One updateFPS call at clock reading `now`: count the frame; once the window
   has lasted at least 1000 ms, post the rate and start a new window.
   */
  function UpdateFps(c: FpsCounter, now: int): (t: Tick)
    ensures t.shown.Some? <==> now - c.lastFpsTime >= FpsUpdateIntervalMs
    ensures t.shown.None? ==> t.counter == FpsCounter(Wrap32(c.frameCount + 1), c.lastFpsTime)
    ensures t.shown.Some? ==>
      t.counter == FpsCounter(0, now) &&
      t.shown.value == Fps(Wrap32(c.frameCount + 1), now - c.lastFpsTime)
  {
    var frameCount := Wrap32(c.frameCount + 1);
    var timeDiff := now - c.lastFpsTime;
    if timeDiff >= FpsUpdateIntervalMs then
      Tick(FpsCounter(0, now), Some(Fps(frameCount, timeDiff)))
    else
      Tick(FpsCounter(frameCount, c.lastFpsTime), None)
  }

  function Shown(t: Tick): seq<int> {
    if t.shown.Some? then [t.shown.value] else []
  }

  /** Calls at the clock readings `times`, in order. */
  function Ticks(c: FpsCounter, times: seq<int>): Window
    decreases |times|
  {
    if times == [] then Window(c, [])
    else
      var t := UpdateFps(c, times[0]);
      var w := Ticks(t.counter, times[1..]);
      Window(w.counter, (if t.shown.Some? then [Report(times[0], t.shown.value)] else []) + w.reports)
  }

  /** Each report comes at least 1000 ms after the previous one (or the window start). */
  predicate Spaced(start: int, reports: seq<Report>)
    decreases |reports|
  {
    reports == [] ||
    (reports[0].time - start >= FpsUpdateIntervalMs && Spaced(reports[0].time, reports[1..]))
  }

  /** At most one report per window of at least 1000 ms, whatever the clock does. */
  lemma {:induction false} ReportsSpaced(c: FpsCounter, times: seq<int>)
    ensures Spaced(c.lastFpsTime, Ticks(c, times).reports)
    decreases |times|
  {
    if times != [] {
      var t := UpdateFps(c, times[0]);
      var rest := Ticks(t.counter, times[1..]).reports;
      ReportsSpaced(t.counter, times[1..]);
      if t.shown.Some? {
        var reports := [Report(times[0], t.shown.value)] + rest;
        assert Ticks(c, times).reports == reports;
        assert reports[1..] == rest;
        assert t.counter.lastFpsTime == times[0];
      } else {
        assert Ticks(c, times).reports == rest;
        assert t.counter.lastFpsTime == c.lastFpsTime;
      }
    }
  }

  /** Calls that all fall inside the current window post nothing and only count. */
  lemma {:induction false} QuietWindow(c: FpsCounter, times: seq<int>)
    requires 0 <= c.frameCount && c.frameCount + |times| <= IntMax
    requires forall i | 0 <= i < |times| :: times[i] - c.lastFpsTime < FpsUpdateIntervalMs
    ensures Ticks(c, times) == Window(FpsCounter(c.frameCount + |times|, c.lastFpsTime), [])
    decreases |times|
  {
    if times != [] {
      var c1 := FpsCounter(c.frameCount + 1, c.lastFpsTime);
      assert UpdateFps(c, times[0]).counter == c1;
      QuietWindow(c1, times[1..]);
    }
  }

  /**
   A window closed by its last call: calls inside the window followed by one at
   least 1000 ms after its start post exactly one report, of the floor of
   frames * 1000 / elapsed, and the counter starts over at that call.
   */
  lemma {:induction false} WindowReport(c: FpsCounter, quiet: seq<int>, last: int)
    requires 0 <= c.frameCount && c.frameCount + |quiet| + 1 <= IntMax / 1000
    requires forall i | 0 <= i < |quiet| :: quiet[i] - c.lastFpsTime < FpsUpdateIntervalMs
    requires last - c.lastFpsTime >= FpsUpdateIntervalMs
    ensures Ticks(c, quiet + [last]) ==
      Window(FpsCounter(0, last), [Report(last, FloorRate(c.frameCount + |quiet| + 1, last - c.lastFpsTime))])
  {
    var k, elapsed := c.frameCount + |quiet| + 1, last - c.lastFpsTime;
    QuietWindow(c, quiet);
    var c1 := FpsCounter(c.frameCount + |quiet|, c.lastFpsTime);
    var closing := Window(FpsCounter(0, last), [Report(last, FloorRate(k, elapsed))]);
    ClosingTick(c1, last, k, elapsed);
    TicksSplit(c, quiet, [last]);
    assert [] + closing.reports == closing.reports;
  }

  /** The call that closes a window posts the floor rate and restarts the count. */
  lemma ClosingTick(c: FpsCounter, now: int, frames: nat, elapsed: int)
    requires frames == c.frameCount + 1 <= IntMax / 1000
    requires elapsed == now - c.lastFpsTime >= FpsUpdateIntervalMs
    ensures Ticks(c, [now]) == Window(FpsCounter(0, now), [Report(now, FloorRate(frames, elapsed))])
  {
    var fps := Fps(frames, elapsed);
    assert UpdateFps(c, now) == Tick(FpsCounter(0, now), Some(fps));
    assert [now][1..] == [];
  }

  lemma {:induction false} TicksSplit(c: FpsCounter, xs: seq<int>, ys: seq<int>)
    ensures Ticks(c, xs + ys) ==
      Window(Ticks(Ticks(c, xs).counter, ys).counter, Ticks(c, xs).reports + Ticks(Ticks(c, xs).counter, ys).reports)
    decreases |xs|
  {
    if xs == [] {
      assert xs + ys == ys;
    } else {
      var t := UpdateFps(c, xs[0]);
      var head := if t.shown.Some? then [Report(xs[0], t.shown.value)] else [];
      assert (xs + ys)[0] == xs[0];
      assert (xs + ys)[1..] == xs[1..] + ys;
      TicksSplit(t.counter, xs[1..], ys);
      var w := Ticks(t.counter, xs[1..]);
      var v := Ticks(w.counter, ys);
      assert Ticks(c, xs) == Window(w.counter, head + w.reports);
      assert Ticks(c, xs + ys) == Window(v.counter, head + (w.reports + v.reports));
      assert head + (w.reports + v.reports) == (head + w.reports) + v.reports;
    }
  }

  /** 30 frames over exactly one second report 30. */
  lemma ThirtyFramesInOneSecond(t0: int)
    ensures Ticks(FpsCounter(0, t0), seq(29, i => t0 + 33 * i) + [t0 + 1000]).reports == [Report(t0 + 1000, 30)]
  {
    WindowReport(FpsCounter(0, t0), seq(29, i => t0 + 33 * i), t0 + 1000);
  }

  /** 15 frames over two seconds, checked once, report the floor of 7.5. */
  lemma FifteenFramesInTwoSeconds(t0: int)
    ensures Ticks(FpsCounter(0, t0), seq(14, i => t0 + 70 * i) + [t0 + 2000]).reports == [Report(t0 + 2000, 7)]
  {
    WindowReport(FpsCounter(0, t0), seq(14, i => t0 + 70 * i), t0 + 2000);
  }
}
