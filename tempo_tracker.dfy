/** The online tempo estimator of tempoTracker.py: a circular buffer of
    inter-onset intervals, a debounce floor, a timeout that starts over, a
    warm-up counter and the estimate 60 / mean(history).

    The wall clock (`time.time()`) is the parameter `now`; seconds and beats
    per minute are exact reals. */
module TempoTracking {
  import opened Midi

  /** Intervals shorter than this (50 ms) are retriggers and are ignored. */
  const DebounceFloor: real := 0.05

  function Sum(s: seq<real>): real
  {
    if |s| == 0 then 0.0 else s[0] + Sum(s[1..])
  }

  /** numpy's `mean` of a non-empty array. */
  function Mean(s: seq<real>): real
    requires |s| > 0
  {
    Sum(s) / (|s| as real)
  }

  function Zeros(n: nat): (z: seq<real>)
    ensures |z| == n && forall j :: 0 <= j < n ==> z[j] == 0.0
  {
    seq(n, _ => 0.0)
  }

  /** Overwriting one slot changes the sum by the difference. */
  lemma {:induction false} SumUpdate(s: seq<real>, i: nat, v: real)
    requires i < |s|
    ensures Sum(s[i := v]) == Sum(s) - s[i] + v
  {
    if i == 0 {
      assert s[i := v][1..] == s[1..];
    } else {
      assert s[i := v][1..] == s[1..][i - 1 := v];
      SumUpdate(s[1..], i - 1, v);
    }
  }

  /** With no negative entries, the sum is at least any one entry. */
  lemma {:induction false} SumAtLeastEntry(s: seq<real>, i: nat)
    requires i < |s|
    requires forall j :: 0 <= j < |s| ==> s[j] >= 0.0
    ensures Sum(s) >= s[i]
  {
    if i == 0 {
      SumNonNegative(s[1..]);
    } else {
      SumAtLeastEntry(s[1..], i - 1);
    }
  }

  lemma {:induction false} SumNonNegative(s: seq<real>)
    requires forall j :: 0 <= j < |s| ==> s[j] >= 0.0
    ensures Sum(s) >= 0.0
  {
    if |s| > 0 {
      SumNonNegative(s[1..]);
    }
  }

  /** A history holding one interval `t` everywhere has mean `t`. */
  lemma {:induction false} MeanOfConstant(s: seq<real>, t: real)
    requires |s| > 0
    requires forall j :: 0 <= j < |s| ==> s[j] == t
    ensures Mean(s) == t
  {
    SumOfConstant(s, t);
  }

  lemma {:induction false} SumOfConstant(s: seq<real>, t: real)
    requires forall j :: 0 <= j < |s| ==> s[j] == t
    ensures Sum(s) == (|s| as real) * t
  {
    if |s| > 0 {
      SumOfConstant(s[1..], t);
    }
  }

  class TempoTracker {
    /** Capacity of the history (the smoothing window). */
    const smoothing: nat
    /** Seconds of silence after which the tracker starts over. */
    const timeout: real
    var history: array<real>
    var idx: nat
    var tempo: Option<real>
    var numOut: nat
    var lastTime: real
    var firstTime: bool
    var active: bool

    ghost predicate Valid()
      reads this, history
    {
      && 0 < smoothing
      && history.Length == smoothing
      && idx < smoothing
      && (forall j :: 0 <= j < history.Length ==> history[j] >= 0.0)
      && (tempo.Some? ==> tempo.value > 0.0)
    }

    /** The state `reset_vars` leaves: a zeroed history, index and warm-up
        counter at 0, the reference time at `now`, the next event a primer. */
    ghost predicate IsReset(now: real)
      reads this, history
    {
      history[..] == Zeros(smoothing) && idx == 0 && numOut == 0 && lastTime == now && firstTime
    }

    /** One call of `track_tempo` at clock reading `now`, returning `r`. */
    twostate predicate Tracked(now: real, new r: Option<real>)
      requires old(Valid()) && Valid()
      reads this, history
    {
      && active == old(active)
      && (!old(active) ==>
            r == None && fresh(history) && IsReset(now) && tempo == old(tempo))
      && (old(active) ==>
            var ref := if old(firstTime) then now else old(lastTime);
            var interval := now - ref;
            if interval < DebounceFloor then
              // too soon after the reference: ignored (the primer lands here)
              && r == None && history == old(history) && history[..] == old(history[..])
              && idx == old(idx) && numOut == old(numOut) && tempo == old(tempo)
              && lastTime == ref && !firstTime
            else if interval > timeout then
              // a long pause: start over; the next event re-primes
              r == None && fresh(history) && IsReset(now) && tempo == old(tempo)
            else
              // an accepted interval: record it and advance the ring index
              && history == old(history)
              && history[..] == old(history[..])[old(idx) := interval]
              && idx == (old(idx) + 1) % smoothing
              && numOut == old(numOut) + 1
              && lastTime == now && !firstTime
              && (SumAtLeastEntry(history[..], old(idx));
                  tempo == (if old(numOut) > 3 then Some(60.0 / Mean(history[..])) else old(tempo)))
              && r == tempo)
    }

    constructor (smoothing: nat, timeoutSec: real, now: real)
      requires 0 < smoothing
      ensures Valid() && fresh(history)
      ensures this.smoothing == smoothing && timeout == timeoutSec
      ensures IsReset(now) && tempo == None && !active
    {
      this.smoothing := smoothing;
      timeout := timeoutSec;
      history := new real[smoothing](_ => 0.0);
      idx := 0;
      tempo := None;
      numOut := 0;
      lastTime := now;
      firstTime := true;
      active := false;
      new;
      ResetVars(now);
    }

    method ResetVars(now: real)
      requires Valid()
      modifies this
      ensures Valid() && fresh(history) && IsReset(now)
      ensures tempo == old(tempo) && active == old(active)
    {
      history := new real[smoothing](_ => 0.0);
      idx := 0;
      numOut := 0;
      lastTime := now;
      firstTime := true;
    }

    method TrackTempo(now: real) returns (r: Option<real>)
      requires Valid()
      modifies this, history
      ensures Valid() && Tracked(now, r)
    {
      if !active {
        ResetVars(now);
        return None;
      }
      if firstTime {
        lastTime := now;
        firstTime := false;
      }
      var interval := now - lastTime;
      if interval < DebounceFloor {
        return None;
      } else if interval > timeout {
        ResetVars(now);
        return None;
      }
      lastTime := now;
      ghost var before := history[..];
      history[idx] := interval;
      assert history[..] == before[idx := interval];
      SumAtLeastEntry(history[..], idx);
      idx := (idx + 1) % history.Length;
      if numOut > 3 {
        tempo := Some(60.0 / Mean(history[..]));
      }
      numOut := numOut + 1;
      return tempo;
    }

    method Start()
      requires Valid()
      modifies this`active
      ensures Valid() && active
    {
      active := true;
    }

    method Stop()
      requires Valid()
      modifies this`active
      ensures Valid() && !active
    {
      active := false;
    }
  }

  /** Feeds `beats` events `period` seconds apart to a started tracker that
      has just been primed (its reference time set, nothing recorded yet). */
  method Pulse(tracker: TempoTracker, period: real, beats: nat) returns (estimate: Option<real>)
    requires tracker.Valid() && tracker.active && !tracker.firstTime
    requires tracker.numOut == 0 && tracker.idx == 0 && tracker.history[..] == Zeros(tracker.smoothing)
    requires DebounceFloor <= period <= tracker.timeout
    requires beats >= tracker.smoothing && beats >= 5
    modifies tracker, tracker.history
    ensures tracker.Valid() && tracker.active && !tracker.firstTime
    ensures tracker.history == old(tracker.history) || fresh(tracker.history)
    ensures tracker.numOut == beats
    ensures forall j :: 0 <= j < tracker.smoothing ==> tracker.history[j] == period
    ensures estimate == tracker.tempo == Some(60.0 / period)
  {
    var k := 0;
    estimate := None;
    while k < beats
      invariant k <= beats
      invariant tracker.history == old(tracker.history) || fresh(tracker.history)
      invariant tracker.Valid() && tracker.active && !tracker.firstTime
      invariant tracker.numOut == k
      invariant k < tracker.smoothing ==> tracker.idx == k
      invariant forall j :: 0 <= j < tracker.smoothing ==> tracker.history[j] == (if j < k then period else 0.0)
      invariant k >= 5 && k >= tracker.smoothing ==> estimate == tracker.tempo == Some(60.0 / period)
    {
      ghost var slot, before := tracker.idx, tracker.history[..];
      estimate := tracker.TrackTempo(tracker.lastTime + period);
      assert tracker.history[..] == before[slot := period];
      k := k + 1;
      if k < tracker.smoothing {
        SmallModulus(k, tracker.smoothing);
      }
      if k >= 5 && k >= tracker.smoothing {
        MeanOfConstant(tracker.history[..], period);
      }
    }
  }

  lemma SmallModulus(k: nat, n: nat)
    requires k < n
    ensures k % n == k
  {
  }

  /** A steady pulse: after the tracker is started, one event primes it and
      `beats` further events `period` seconds apart are accepted. Once every
      slot of the history holds `period` and the warm-up is over, the estimate
      is exactly 60 / period beats per minute. */
  method SteadyPulse(smoothing: nat, timeoutSec: real, t0: real, period: real, beats: nat)
    returns (primer: Option<real>, estimate: Option<real>)
    requires 0 < smoothing
    requires DebounceFloor <= period <= timeoutSec
    requires beats >= smoothing && beats >= 5
    ensures primer == None
    ensures estimate == Some(60.0 / period)
  {
    var tracker := new TempoTracker(smoothing, timeoutSec, t0);
    tracker.Start();
    primer := tracker.TrackTempo(t0);
    estimate := Pulse(tracker, period, beats);
  }

  /** A pause longer than the timeout starts the tracker over, and the event
      after it only re-primes; but `reset_vars` keeps the old estimate, so
      the first accepted interval afterwards, still in warm-up, reports the
      tempo of the earlier pulse whatever the new interval is. */
  method PauseKeepsEstimate(smoothing: nat, timeoutSec: real, t0: real, period: real,
                            beats: nat, pause: real, newPeriod: real)
    returns (afterPause: Option<real>, primer: Option<real>, first: Option<real>)
    requires 0 < smoothing
    requires DebounceFloor <= period <= timeoutSec
    requires DebounceFloor <= newPeriod <= timeoutSec
    requires beats >= smoothing && beats >= 5
    requires pause > timeoutSec
    ensures afterPause == None && primer == None
    ensures first == Some(60.0 / period)
  {
    var tracker := new TempoTracker(smoothing, timeoutSec, t0);
    tracker.Start();
    var r := tracker.TrackTempo(t0);
    r := Pulse(tracker, period, beats);
    var t := tracker.lastTime + pause;
    afterPause := tracker.TrackTempo(t);
    primer := tracker.TrackTempo(t);
    first := tracker.TrackTempo(t + newPeriod);
  }
}
