/**
  The built-in RTT-smoothing video timing estimator.

  Its whole state is one smoothed round-trip time. The literal value -1 means
  "no sample yet". The first sample is stored as it is. Every later sample is
  folded in with a 3:1 exponential moving average that truncates toward zero.
  A video timing request succeeds once a sample exists. It then returns the
  receive timestamp minus half the smoothed RTT.

  The first half of the module gives the estimator's behaviour as functions on
  the smoothed value. The class `DefaultVideoTimingEstimator` keeps that value in
  a mutable field, as the implementation does, and its methods are specified by
  those functions. The lemmas at the end follow whole histories of calls.
 */
module DefaultEstimator {
  import opened CppInt

  /** The sentinel for "no RTT sample yet". It is an ordinary value of the field. */
  const NoSample: int := -1

  /**
    The smoothed RTT after one more sample. A state equal to the sentinel takes
    the sample as it is. Any other state gets the 3:1 average, rounded toward zero.
   */
  function Smooth(rtt: int, sample: int): int {
    if rtt == NoSample then sample else TruncDiv(rtt * 3 + sample, 4)
  }

  /**
    The receiver-clock send timestamp for a video timing request. There is none
    without a sample. Otherwise it is the receive timestamp minus half the RTT,
    rounded toward zero.
   */
  function ClockSync(rtt: int, receiveTimestamp: int): Option<int> {
    if rtt == NoSample then None else Some(receiveTimestamp - TruncDiv(rtt, 2))
  }

  datatype Option<T> = None | Some(value: T)

  /** The calls that change or may change the estimator's state. */
  datatype Event =
    | Reset
    | Rtt(sample: int)
    | PacketReceived(sendTimestamp: int, receiveTimestamp: int)

  /** The state after one call. */
  function Step(rtt: int, e: Event): int {
    match e
    case Reset => NoSample
    case Rtt(sample) => Smooth(rtt, sample)
    case PacketReceived(_, _) => rtt
  }

  /** The state after a history of calls, oldest first. */
  function Run(rtt: int, history: seq<Event>): int
    decreases |history|
  {
    if history == [] then rtt else Run(Step(rtt, history[0]), history[1..])
  }

  /** The history of `OnRtt` calls that feeds the given samples in order. */
  function Samples(samples: seq<int>): (h: seq<Event>)
    ensures |h| == |samples|
    ensures forall i :: 0 <= i < |h| ==> h[i] == Rtt(samples[i])
  {
    if samples == [] then [] else [Rtt(samples[0])] + Samples(samples[1..])
  }

  /**
    The history with every `OnPacketReceived` call taken out. `WithoutPacketsKeepsOthers`
    shows it keeps exactly the other calls, and `WithoutPacketsAppend` that it
    keeps their order.
   */
  function WithoutPackets(history: seq<Event>): (h: seq<Event>)
    ensures |h| <= |history|
    ensures forall i :: 0 <= i < |h| ==> !h[i].PacketReceived?
  {
    if history == [] then []
    else if history[0].PacketReceived? then WithoutPackets(history[1..])
    else [history[0]] + WithoutPackets(history[1..])
  }

  class DefaultVideoTimingEstimator {
    /** The smoothed RTT, or `NoSample`. */
    var rtt: int

    /** The field is an `int64_t`. */
    ghost predicate Valid()
      reads this
    {
      IsInt64(rtt)
    }

    /** A new estimator has no sample. */
    constructor ()
      ensures Valid() && rtt == NoSample
    {
      rtt := NoSample;
    }

    /** Forgets every sample, from whatever state. */
    method Reset()
      modifies this
      ensures Valid() && rtt == NoSample
      ensures rtt == Step(old(rtt), Event.Reset)
    {
      rtt := NoSample;
    }

    /**
      Feeds one RTT measurement. The caller must keep `rtt * 3` and
      `rtt * 3 + sample` inside `int64_t`, whose overflow is undefined.
     */
    method OnRtt(sample: int)
      requires Valid() && IsInt64(sample)
      requires rtt != NoSample ==> IsInt64(rtt * 3) && IsInt64(rtt * 3 + sample)
      modifies this
      ensures Valid()
      ensures old(rtt) == NoSample ==> rtt == sample
      ensures old(rtt) != NoSample ==> rtt == TruncDiv(old(rtt) * 3 + sample, 4)
      ensures rtt == Step(old(rtt), Rtt(sample))
    {
      if rtt == NoSample {
        rtt := sample;
        return;
      }
      rtt := TruncDiv(rtt * 3 + sample, 4);
    }

    /** Observes a packet arrival; the default estimator keeps no packet state. */
    method OnPacketReceived(sendTimestamp: int, receiveTimestamp: int)
      ensures unchanged(this)
    {
    }

    /**
      Answers a video timing request. `prior` is the value of the caller's
      output variable before the call; it comes back unchanged on failure.
      The send timestamp plays no part in the answer.
     */
    method OnVideoTiming(sendTimestamp: int, receiveTimestamp: int, prior: int)
      returns (ok: bool, recvClockSyncSendTimestamp: int)
      requires Valid() && IsInt64(sendTimestamp) && IsInt64(receiveTimestamp) && IsInt64(prior)
      requires rtt != NoSample ==> IsInt64(receiveTimestamp - TruncDiv(rtt, 2))
      ensures ok <==> rtt != NoSample
      ensures ok ==> recvClockSyncSendTimestamp == receiveTimestamp - TruncDiv(rtt, 2)
      ensures !ok ==> recvClockSyncSendTimestamp == prior
      ensures IsInt64(recvClockSyncSendTimestamp)
      ensures ClockSync(rtt, receiveTimestamp) == if ok then Some(recvClockSyncSendTimestamp) else None
    {
      recvClockSyncSendTimestamp := prior;
      if rtt == NoSample {
        return false, recvClockSyncSendTimestamp;
      }
      recvClockSyncSendTimestamp := receiveTimestamp - TruncDiv(rtt, 2);
      return true, recvClockSyncSendTimestamp;
    }
  }

  /**
    Once a sample exists, the next smoothed value lies between the old value and
    the new sample: the average never overshoots, whatever the signs.
   */
  lemma SmoothBetween(rtt: int, sample: int)
    requires rtt != NoSample
    ensures Min(rtt, sample) <= Smooth(rtt, sample) <= Max(rtt, sample)
  {
  }

  /** A value in `[lo, hi]`, or the sentinel. */
  predicate WithinOrNoSample(x: int, lo: int, hi: int) {
    x == NoSample || lo <= x <= hi
  }

  /**
    A history of samples that all lie in `[lo, hi]`, fed to a state that is the
    sentinel or in `[lo, hi]`, ends in `[lo, hi]`. So when the sentinel lies
    outside `[lo, hi]`, one or more samples never leave the estimator without one.
   */
  lemma {:induction false} SamplesStayWithin(rtt: int, samples: seq<int>, lo: int, hi: int)
    requires WithinOrNoSample(rtt, lo, hi)
    requires forall i :: 0 <= i < |samples| ==> lo <= samples[i] <= hi
    ensures samples != [] ==> lo <= Run(rtt, Samples(samples)) <= hi
    ensures samples == [] ==> Run(rtt, Samples(samples)) == rtt
    ensures samples != [] && (lo > NoSample || hi < NoSample) ==> Run(rtt, Samples(samples)) != NoSample
    decreases |samples|
  {
    if samples != [] {
      var next := Smooth(rtt, samples[0]);
      if rtt != NoSample {
        SmoothBetween(rtt, samples[0]);
      }
      assert Samples(samples)[1..] == Samples(samples[1..]);
      SamplesStayWithin(next, samples[1..], lo, hi);
    }
  }

  /** The largest of a non-empty sequence of samples. */
  function MaxOf(samples: seq<int>): (m: int)
    requires samples != []
    ensures forall i :: 0 <= i < |samples| ==> samples[i] <= m
    ensures exists i :: 0 <= i < |samples| && samples[i] == m
  {
    if |samples| == 1 then samples[0]
    else
      var rest := MaxOf(samples[1..]);
      assert forall i :: 1 <= i < |samples| ==> samples[i] == samples[1..][i - 1];
      if samples[0] >= rest then samples[0] else rest
  }

  /**
    Starting from no sample, feeding one or more non-negative RTTs leaves a
    non-negative smoothed value, never the sentinel, so timing requests succeed.
   */
  lemma NonNegativeSamplesKeepASample(samples: seq<int>, receiveTimestamp: int)
    requires samples != []
    requires forall i :: 0 <= i < |samples| ==> samples[i] >= 0
    ensures 0 <= Run(NoSample, Samples(samples)) <= MaxOf(samples)
    ensures ClockSync(Run(NoSample, Samples(samples)), receiveTimestamp).Some?
  {
    SamplesStayWithin(NoSample, samples, 0, MaxOf(samples));
  }

  /** Running two histories one after the other is running their concatenation. */
  lemma {:induction false} RunAppend(rtt: int, first: seq<Event>, second: seq<Event>)
    ensures Run(rtt, first + second) == Run(Run(rtt, first), second)
    decreases |first|
  {
    if first != [] {
      assert (first + second)[1..] == first[1..] + second;
      RunAppend(Step(rtt, first[0]), first[1..], second);
    } else {
      assert first + second == second;
    }
  }

  /**
    Each `OnRtt` after a history applies the smoothing rule to the value the
    history left: exact if that value is the sentinel, the 3:1 average otherwise.
   */
  lemma RunThenSample(rtt: int, history: seq<Event>, sample: int)
    ensures Run(rtt, history + [Rtt(sample)]) == Smooth(Run(rtt, history), sample)
    ensures Run(rtt, history) == NoSample ==> Run(rtt, history + [Rtt(sample)]) == sample
    ensures Run(rtt, history) != NoSample ==>
      Run(rtt, history + [Rtt(sample)]) == TruncDiv(Run(rtt, history) * 3 + sample, 4)
  {
    RunAppend(rtt, history, [Rtt(sample)]);
  }

  /** A `Reset` after any history returns to the sentinel, so the next timing request fails. */
  lemma ResetForgetsHistory(rtt: int, history: seq<Event>, receiveTimestamp: int)
    ensures Run(rtt, history + [Event.Reset]) == NoSample
    ensures Run(rtt, history + [Event.Reset, Event.Reset]) == NoSample
    ensures ClockSync(Run(rtt, history + [Event.Reset]), receiveTimestamp) == None
  {
    RunAppend(rtt, history, [Event.Reset]);
    RunAppend(rtt, history, [Event.Reset, Event.Reset]);
  }

  /** Removing packet calls keeps every other call and adds none. */
  lemma {:induction false} WithoutPacketsKeepsOthers(history: seq<Event>)
    ensures forall e :: e in WithoutPackets(history) <==> e in history && !e.PacketReceived?
    decreases |history|
  {
    if history != [] {
      WithoutPacketsKeepsOthers(history[1..]);
      assert forall e :: e in history <==> e == history[0] || e in history[1..];
    }
  }

  /**
    Removing packet calls distributes over concatenation: a single call is kept
    unless it is a packet, so the remaining calls keep their order.
   */
  lemma {:induction false} WithoutPacketsAppend(first: seq<Event>, second: seq<Event>)
    ensures WithoutPackets(first + second) == WithoutPackets(first) + WithoutPackets(second)
    ensures |first| == 1 ==> WithoutPackets(first) == if first[0].PacketReceived? then [] else first
    decreases |first|
  {
    if first == [] {
      assert first + second == second;
    } else {
      var e, rest := first[0], first[1..];
      assert (first + second)[0] == e;
      assert (first + second)[1..] == rest + second;
      WithoutPacketsAppend(rest, second);
      var tail := WithoutPackets(rest) + WithoutPackets(second);
      if e.PacketReceived? {
        assert WithoutPackets(first + second) == tail;
      } else {
        assert WithoutPackets(first + second) == [e] + tail;
        assert [e] + tail == ([e] + WithoutPackets(rest)) + WithoutPackets(second);
      }
      if |first| == 1 {
        assert rest == [];
        assert first == [e];
      }
    }
  }

  /**
    `OnPacketReceived` calls are inert: removing them from any history changes
    neither the final state nor any later timing answer.
   */
  lemma {:induction false} PacketsAreInert(rtt: int, history: seq<Event>, receiveTimestamp: int)
    ensures Run(rtt, WithoutPackets(history)) == Run(rtt, history)
    ensures ClockSync(Run(rtt, WithoutPackets(history)), receiveTimestamp) == ClockSync(Run(rtt, history), receiveTimestamp)
    decreases |history|
  {
    if history != [] {
      PacketsAreInert(Step(rtt, history[0]), history[1..], receiveTimestamp);
      if !history[0].PacketReceived? {
        assert ([history[0]] + WithoutPackets(history[1..]))[1..] == WithoutPackets(history[1..]);
      }
    }
  }

  /**
    The sentinel is an ordinary value: a first sample of -1 leaves the estimator
    without a sample, and so does an average that truncates to -1.
   */
  lemma SentinelCanBeReentered()
    ensures Run(NoSample, Samples([-1])) == NoSample
    ensures Run(NoSample, Samples([-2, 2])) == NoSample
    ensures Run(NoSample, Samples([-2, 2, 7])) == 7
  {
    assert Samples([-2, 2, 7])[1..] == Samples([2, 7]);
    assert Samples([2, 7])[1..] == Samples([7]);
  }

  /** Worked examples: 100 then 300 smooth to 150; half-RTT offsets of 50 and 75. */
  lemma WorkedExamples()
    ensures Run(NoSample, Samples([100])) == 100
    ensures Run(NoSample, Samples([100, 300])) == 150
    ensures ClockSync(100, 1000) == Some(950)
    ensures ClockSync(150, 1000) == Some(925)
    ensures ClockSync(NoSample, 1000) == None
  {
    assert Samples([100, 300])[1..] == Samples([300]);
  }

  /** The same examples driven through the class: each call's contract is enough. */
  method TimingScenario() returns (first: int, second: int, afterReset: bool)
    ensures first == 950 && second == 925 && !afterReset
  {
    var e := new DefaultVideoTimingEstimator();
    var ok;
    ok, first := e.OnVideoTiming(0, 1000, 0);
    assert !ok && first == 0;
    e.OnRtt(100);
    ok, first := e.OnVideoTiming(0, 1000, first);
    e.OnRtt(300);
    e.OnPacketReceived(5, 995);
    ok, second := e.OnVideoTiming(12345, 1000, 0);
    e.Reset();
    var unused;
    afterReset, unused := e.OnVideoTiming(0, 1000, second);
  }

  function Min(a: int, b: int): int { if a <= b then a else b }
  function Max(a: int, b: int): int { if a <= b then b else a }
}
