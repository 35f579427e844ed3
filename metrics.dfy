/** Values shared by every collector: the metric samples a collector sends on
    its channel, the errors it returns, and the trace of one collection pass
    (what was sent, which library calls were made, and whether it failed). */
module Metrics {

  datatype Option<+T> = None | Some(value: T)

  /** An `error` value, as returned by a library call or built by a collector. */
  datatype Error = Error(message: string)

  datatype Result<+T> = Ok(value: T) | Err(error: Error)

  /** prometheus.ValueType */
  datatype ValueType = GaugeValue | CounterValue

  /** One metric sent on the channel: prometheus.MustNewConstMetric(desc, valueType,
      value, labelValues...). D is the collector's set of descriptors. */
  datatype Sample<D> = Sample(desc: D, valueType: ValueType, value: real, labelValues: seq<string>) {
    /** MustNewConstMetric panics unless there is exactly one label value per
        label name; `arity` gives the number of label names of each descriptor. */
    predicate WellFormed(arity: D -> nat) {
      |labelValues| == arity(desc)
    }
  }

  predicate AllWellFormed<D>(ss: seq<Sample<D>>, arity: D -> nat) {
    forall i :: 0 <= i < |ss| ==> ss[i].WellFormed(arity)
  }

  /** What one step of a collection pass did: the samples it sent (in order),
      the library calls it made (in order), and the error it returned, if any. */
  datatype Trace<D, C> = Trace(samples: seq<Sample<D>>, calls: seq<C>, failure: Option<Error>) {
    predicate Failed() {
      failure.Some?
    }
  }

  function Quiet<D, C>(): Trace<D, C> {
    Trace([], [], None)
  }

  /** Go's `if err := step(); err != nil { return err }`: a failed step ends the pass. */
  function Then<D, C>(t: Trace<D, C>, u: Trace<D, C>): Trace<D, C> {
    if t.Failed() then t else Trace(t.samples + u.samples, t.calls + u.calls, u.failure)
  }

  lemma ThenWellFormed<D, C>(t: Trace<D, C>, u: Trace<D, C>, arity: D -> nat)
    requires AllWellFormed(t.samples, arity) && AllWellFormed(u.samples, arity)
    ensures AllWellFormed(Then(t, u).samples, arity)
  {
  }

  /** Running u after t: if t did not fail, what is sent and called after
      `sent` and `called` is t's and then u's, and the error is u's. */
  lemma ThenSequenced<D, C>(sent: seq<Sample<D>>, called: seq<C>, t: Trace<D, C>,
                            mid: seq<Sample<D>>, midCalled: seq<C>, u: Trace<D, C>,
                            fin: seq<Sample<D>>, finCalled: seq<C>)
    requires mid == sent + t.samples && midCalled == called + t.calls && !t.Failed()
    requires fin == mid + u.samples && finCalled == midCalled + u.calls
    ensures fin == sent + Then(t, u).samples && finCalled == called + Then(t, u).calls
    ensures Then(t, u).failure == u.failure
  {
    assert fin == sent + (t.samples + u.samples);
    assert finCalled == called + (t.calls + u.calls);
  }

  /** A `for _, x := range xs { ... }` loop whose body may return an error:
      the steps run in order and the first failure ends the loop. */
  function Steps<T, D, C>(xs: seq<T>, step: T -> Trace<D, C>): Trace<D, C>
    decreases |xs|
  {
    if xs == [] then Quiet()
    else Then(Steps(xs[..|xs| - 1], step), step(xs[|xs| - 1]))
  }

  /** One more iteration of the loop. */
  lemma StepsSnoc<T, D, C>(xs: seq<T>, step: T -> Trace<D, C>, i: nat)
    requires i < |xs|
    ensures Steps(xs[..i + 1], step) == Then(Steps(xs[..i], step), step(xs[i]))
  {
    assert xs[..i + 1][..i] == xs[..i];
  }

  /** Once a prefix of the loop has failed, the rest of the elements are never looked at. */
  lemma {:induction false} StepsStopAtFailure<T, D, C>(xs: seq<T>, step: T -> Trace<D, C>, k: nat)
    requires k <= |xs| && Steps(xs[..k], step).Failed()
    ensures Steps(xs, step) == Steps(xs[..k], step)
    decreases |xs|
  {
    if k < |xs| {
      var n := |xs| - 1;
      assert xs[..n][..k] == xs[..k];
      StepsStopAtFailure(xs[..n], step, k);
    } else {
      assert xs[..k] == xs;
    }
  }

  /** An element whose step sends nothing and cannot fail may be dropped from the
      loop without changing what is sent or whether the loop fails; if the step
      makes no call either, dropping it changes nothing at all. */
  lemma {:induction false} StepsSkipQuietElement<T, D, C>(xs: seq<T>, step: T -> Trace<D, C>, i: nat)
    requires i < |xs|
    requires step(xs[i]).samples == [] && step(xs[i]).failure == None
    ensures Steps(xs[..i] + xs[i + 1..], step).samples == Steps(xs, step).samples
    ensures Steps(xs[..i] + xs[i + 1..], step).failure == Steps(xs, step).failure
    ensures step(xs[i]).calls == [] ==> Steps(xs[..i] + xs[i + 1..], step) == Steps(xs, step)
    decreases |xs|
  {
    var n := |xs| - 1;
    var ys := xs[..i] + xs[i + 1..];
    if i == n {
      assert ys == xs[..n];
    } else {
      assert ys[..|ys| - 1] == xs[..n][..i] + xs[..n][i + 1..];
      assert ys[|ys| - 1] == xs[n];
      StepsSkipQuietElement(xs[..n], step, i);
    }
  }

  /** If every step sends only well-formed samples, so does the loop. */
  lemma {:induction false} StepsWellFormed<T, D, C>(xs: seq<T>, step: T -> Trace<D, C>, arity: D -> nat)
    requires forall i :: 0 <= i < |xs| ==> AllWellFormed(step(xs[i]).samples, arity)
    ensures AllWellFormed(Steps(xs, step).samples, arity)
    decreases |xs|
  {
    if xs != [] {
      var n := |xs| - 1;
      StepsWellFormed(xs[..n], step, arity);
      assert AllWellFormed(step(xs[n]).samples, arity);
    }
  }

  /** If every step sends only samples satisfying ok and makes only calls
      satisfying okCall, so does the loop. */
  lemma {:induction false} StepsWithin<T, D, C>(xs: seq<T>, step: T -> Trace<D, C>, ok: D -> bool, okCall: C -> bool)
    requires forall i :: 0 <= i < |xs| ==> Within(step(xs[i]), ok, okCall)
    ensures Within(Steps(xs, step), ok, okCall)
    decreases |xs|
  {
    if xs != [] {
      var n := |xs| - 1;
      StepsWithin(xs[..n], step, ok, okCall);
      assert Within(step(xs[n]), ok, okCall);
    }
  }

  /** Every sample of t has a descriptor satisfying ok, every call satisfies okCall. */
  predicate Within<D, C>(t: Trace<D, C>, ok: D -> bool, okCall: C -> bool) {
    (forall i :: 0 <= i < |t.samples| ==> ok(t.samples[i].desc)) &&
    (forall i :: 0 <= i < |t.calls| ==> okCall(t.calls[i]))
  }

  lemma ThenWithin<D, C>(t: Trace<D, C>, u: Trace<D, C>, ok: D -> bool, okCall: C -> bool)
    requires Within(t, ok, okCall) && Within(u, ok, okCall)
    ensures Within(Then(t, u), ok, okCall)
  {
  }

  /** Every sample of a loop was sent by the step of one of its elements. */
  lemma {:induction false} StepsSampleFrom<T, D, C>(xs: seq<T>, step: T -> Trace<D, C>, k: nat)
    requires k < |Steps(xs, step).samples|
    ensures exists i :: 0 <= i < |xs| && Steps(xs, step).samples[k] in step(xs[i]).samples
    decreases |xs|
  {
    var n := |xs| - 1;
    var pre := Steps(xs[..n], step);
    if k < |pre.samples| {
      StepsSampleFrom(xs[..n], step, k);
      var i :| 0 <= i < |xs[..n]| && pre.samples[k] in step(xs[..n][i]).samples;
      assert xs[..n][i] == xs[i];
    } else {
      assert Steps(xs, step).samples[k] == step(xs[n]).samples[k - |pre.samples|];
    }
  }
}
