/** The playback scheduler: the rate-limited frame stepper run by each
    animation-frame callback (`animate`). */
module Playback {
  import opened Frames
  import opened Arith

  /** The stepper's state: the index of the frame shown, the time of the
      last advance (the source's `then`, phase-corrected), and whether a frame callback
      is requested (running) or cancelled (finished). */
  datatype TickState = TickState(current: nat, lastFrameTime: int, running: bool)

  /** `now - (elapsed % frameInterval)`: the time of the advance, moved back
      to the last whole interval since the previous `then` so that playback does not
      drift. Elapsed time is positive here, so the truncating `%` of the
      source and Dafny's `%` agree. */
  function PhaseCorrected(last: int, now: int, interval: int): (t: int)
    requires interval > 0 && now - last > interval
    ensures 0 <= now - t < interval
    ensures t - last >= interval
    ensures (t - last) % interval == 0
  {
    var elapsed := now - last;
    var q := elapsed / interval;
    assert elapsed == q * interval + elapsed % interval;
    assert q >= 1 by {
      if q <= 0 { MulMonotone(q, 0, interval); }
    }
    var t := now - elapsed % interval;
    assert t - last == q * interval;
    MultipleMod(q, interval);
    MulMonotone(1, q, interval);
    t
  }

  /** One animation-frame callback at time `now`, over `count` frames. */
  function Tick(s: TickState, count: nat, now: int, interval: int): (r: TickState)
    requires interval > 0 && s.running
    // finished: cancel, change nothing else
    ensures s.current >= count ==> r == s.(running := false)
    // too early: nothing changes, another callback is requested
    ensures s.current < count && now - s.lastFrameTime <= interval ==> r == s
    // due: advance by exactly one frame, with the new `then` within one interval of now
    ensures s.current < count && now - s.lastFrameTime > interval ==>
              && r.running
              && r.current == s.current + 1
              && 0 <= now - r.lastFrameTime < interval
              && r.lastFrameTime - s.lastFrameTime >= interval
              && (r.lastFrameTime - s.lastFrameTime) % interval == 0
  {
    var elapsed := now - s.lastFrameTime;
    if s.current >= count then s.(running := false)
    else if elapsed > interval then TickState(s.current + 1, PhaseCorrected(s.lastFrameTime, now, interval), true)
    else s
  }

  /** The frames a tick from `s` to `r` paints: the new frame after an
      advance, if it exists. */
  function TickPaints(s: TickState, r: TickState, count: nat): (drawn: seq<nat>)
    ensures |drawn| <= 1
    ensures forall k :: 0 <= k < |drawn| ==> drawn[k] == r.current == s.current + 1 && r.current < count
  {
    if r.current == s.current + 1 then PaintedSlot(r.current, count) else []
  }

  /** The frame indices lo, lo + 1, ..., hi - 1. */
  function Upto(lo: int, hi: int): seq<int>
    decreases hi - lo
  {
    if lo >= hi then [] else [lo] + Upto(lo + 1, hi)
  }

  function Min(a: int, b: int): int {
    if a <= b then a else b
  }

  /** The state after the frame callbacks at the times `nows`, in order,
      and the frames they paint; once cancelled, no callback runs. */
  function Run(s: TickState, count: nat, interval: int, nows: seq<int>): (res: (TickState, seq<nat>))
    requires interval > 0
    ensures !s.running ==> res == (s, [])
    ensures |res.1| <= |nows|
    decreases |nows|
  {
    if nows == [] || !s.running then (s, [])
    else
      var r := Tick(s, count, nows[0], interval);
      var (fin, paints) := Run(r, count, interval, nows[1..]);
      (fin, TickPaints(s, r, count) + paints)
  }

  /** Whatever the callback times: the index only grows and never passes the
      number of frames, `then` (lastFrameTime) never moves back, the frames painted are the
      consecutive indices after the start up to the last existing one, and
      the loop is cancelled only once the index has reached the end. */
  lemma {:induction false} RunBounded(s: TickState, count: nat, interval: int, nows: seq<int>)
    requires interval > 0 && s.current <= count
    ensures var (r, paints) := Run(s, count, interval, nows);
            && s.current <= r.current <= count
            && s.lastFrameTime <= r.lastFrameTime
            && paints == Upto(s.current + 1, Min(r.current + 1, count))
            && (s.running && !r.running ==> r.current == count)
    decreases |nows|
  {
    if nows == [] || !s.running {
    } else {
      var r := Tick(s, count, nows[0], interval);
      RunBounded(r, count, interval, nows[1..]);
      var (fin, rest) := Run(r, count, interval, nows[1..]);
      if r.current == s.current + 1 {
        assert Upto(s.current + 1, s.current + 2) == [s.current + 1];
        if r.current < count {
          // the new frame is painted, then the rest follow it
          assert Upto(s.current + 1, Min(fin.current + 1, count))
              == [s.current + 1] + Upto(r.current + 1, Min(fin.current + 1, count));
        }
      }
    }
  }

  /** Ticks spaced more than an interval apart each advance one frame: given
      more callbacks than frames left, playback reaches the end and stops. */
  lemma {:induction false} RunFinishes(s: TickState, count: nat, interval: int, nows: seq<int>)
    requires interval > 0 && s.running && s.current <= count
    requires |nows| > count - s.current
    requires nows[0] - s.lastFrameTime > interval
    requires forall k :: 0 < k < |nows| ==> nows[k] - nows[k - 1] > interval
    ensures var (r, _) := Run(s, count, interval, nows);
            r.current == count && !r.running
    decreases |nows|
  {
    var r := Tick(s, count, nows[0], interval);
    if s.current < count {
      assert r.lastFrameTime <= nows[0];
      assert nows[1] - r.lastFrameTime > interval;
      forall k | 0 < k < |nows[1..]| ensures nows[1..][k] - nows[1..][k - 1] > interval {
        assert nows[1..][k] == nows[k + 1] && nows[1..][k - 1] == nows[k];
      }
      RunFinishes(r, count, interval, nows[1..]);
    }
  }
}
