/** The outcome rule of `when(_:while:)`: wait for a promise, but fail as soon as a
    condition promise rejects first. Every cancellable promise and every combinator is
    built on this rule, with the hidden cancel token as the condition.

    Time is a history of observations: after each event, the current settlement of the
    promise and of the condition. Promises settle once, so a history is monotone. */
module WhenWhile {
  import opened Settlements

  /** The settlements of the awaited promise and of the condition at one point in time. */
  datatype Observation<+T> = Observation(promise: Settlement<T>, condition: Settlement<()>)

  /** A settlement observed later is the same one, once it is no longer pending. */
  ghost predicate Stays<T>(a: Settlement<T>, b: Settlement<T>) {
    a.Pending? || a == b
  }

  ghost predicate Monotone<T>(h: seq<Observation<T>>) {
    forall i :: 0 <= i < |h| - 1 ==>
      Stays(h[i].promise, h[i + 1].promise) && Stays(h[i].condition, h[i + 1].condition)
  }

  function Last<T>(h: seq<Observation<T>>): Observation<T>
    requires h != []
  {
    h[|h| - 1]
  }

  /** One step of the rule: a settled outcome is final; otherwise the promise's own
      settlement wins, and only a rejected condition settles the outcome without it. */
  function WhenStep<T>(prior: Settlement<T>, p: Settlement<T>, c: Settlement<()>): (r: Settlement<T>)
    ensures !prior.Pending? ==> r == prior
    ensures prior.Pending? && !p.Pending? ==> r == p
    ensures prior.Pending? && p.Pending? ==> (r.Pending? <==> !c.Rejected?)
    ensures prior.Pending? && p.Pending? && c.Rejected? ==> r == Rejected(c.error)
  {
    if !prior.Pending? then prior
    else if !p.Pending? then p
    else if c.Rejected? then Rejected(c.error)
    else Pending
  }

  /** The outcome of `when(p, while: c)` after the history `h`. */
  function WhenOutcome<T>(h: seq<Observation<T>>): (r: Settlement<T>)
    ensures h == [] ==> r.Pending?
    ensures r.Fulfilled? ==> exists i :: 0 <= i < |h| && h[i].promise == r
    ensures r.Rejected? ==>
      exists i :: 0 <= i < |h| && (h[i].promise == r || h[i].condition == Rejected(r.error))
    decreases |h|
  {
    if h == [] then Pending
    else WhenStep(WhenOutcome(h[..|h| - 1]), Last(h).promise, Last(h).condition)
  }

  lemma MonotonePrefix<T>(h: seq<Observation<T>>)
    requires Monotone(h) && h != []
    ensures Monotone(h[..|h| - 1])
  {
    var h' := h[..|h| - 1];
    forall i | 0 <= i < |h'| - 1
      ensures Stays(h'[i].promise, h'[i + 1].promise) && Stays(h'[i].condition, h'[i + 1].condition)
    {
      assert h'[i] == h[i] && h'[i + 1] == h[i + 1];
    }
  }

  /** The outcome is pending only while the promise is pending and the condition has not
      rejected; once settled it is either the promise's own settlement or the rejection of
      a condition that rejected while the promise was still pending. */
  lemma {:induction false} WhenOutcomeCases<T>(h: seq<Observation<T>>)
    requires Monotone(h) && h != []
    ensures var o := WhenOutcome(h);
      o.Pending? ==> Last(h).promise.Pending? && !Last(h).condition.Rejected?
    ensures var o := WhenOutcome(h);
      || o.Pending?
      || o == Last(h).promise
      || exists i :: 0 <= i < |h| && h[i].promise.Pending? && h[i].condition.Rejected?
                                  && o == Rejected(h[i].condition.error)
  {
    var h' := h[..|h| - 1];
    if h' != [] {
      MonotonePrefix(h);
      WhenOutcomeCases(h');
      assert Last(h') == h[|h| - 2];
      var o' := WhenOutcome(h');
      if !o'.Pending? && o' != Last(h').promise {
        var i :| 0 <= i < |h'| && h'[i].promise.Pending? && h'[i].condition.Rejected?
                               && o' == Rejected(h'[i].condition.error);
        assert h'[i] == h[i];
      }
    }
  }

  /** The force-unwrap `promise.value!` is safe: the outcome is fulfilled only with the
      promise's own value, never because the condition fulfilled. */
  lemma WhenFulfilledOnlyByPromise<T>(h: seq<Observation<T>>)
    requires Monotone(h) && h != []
    ensures WhenOutcome(h).Fulfilled? ==> WhenOutcome(h) == Last(h).promise
  {
    WhenOutcomeCases(h);
  }

  /** While the condition never rejects ahead of the promise, `when(p, while: c)` settles
      exactly as `p` does: with `p`'s value even when `c` fulfilled first, with `p`'s error
      when `p` rejects. */
  lemma {:induction false} WhenFollowsPromise<T>(h: seq<Observation<T>>)
    requires Monotone(h) && h != []
    requires forall i :: 0 <= i < |h| && h[i].promise.Pending? ==> !h[i].condition.Rejected?
    ensures WhenOutcome(h) == Last(h).promise
  {
    var h' := h[..|h| - 1];
    if h' != [] {
      MonotonePrefix(h);
      forall i | 0 <= i < |h'| && h'[i].promise.Pending?
        ensures !h'[i].condition.Rejected?
      {
        assert h'[i] == h[i];
      }
      WhenFollowsPromise(h');
      assert Last(h') == h[|h| - 2];
    }
  }

  /** A condition that rejects while the promise is still pending decides the outcome
      for good: it rejects with the condition's error whatever the promise does later. */
  lemma {:induction false} WhenConditionWins<T>(h: seq<Observation<T>>, i: nat)
    requires Monotone(h) && i < |h|
    requires h[i].promise.Pending? && h[i].condition.Rejected?
    ensures WhenOutcome(h) == Rejected(h[i].condition.error)
  {
    var h' := h[..|h| - 1];
    if i < |h| - 1 {
      MonotonePrefix(h);
      assert h'[i] == h[i];
      WhenConditionWins(h', i);
    } else if h' != [] {
      MonotonePrefix(h);
      WhenOutcomeBeforeCondition(h', h[i].condition.error);
    }
  }

  /** Before the condition's rejection at the end of a history, the promise was pending
      throughout and the outcome could only be pending or that same rejection. */
  lemma {:induction false} WhenOutcomeBeforeCondition<T>(h: seq<Observation<T>>, e: Error)
    requires Monotone(h) && h != []
    requires Stays(Last(h).promise, Pending) && Stays(Last(h).condition, Rejected(e))
    ensures WhenOutcome(h) == Pending || WhenOutcome(h) == Rejected(e)
  {
    var h' := h[..|h| - 1];
    if h' != [] {
      MonotonePrefix(h);
      assert Last(h') == h[|h| - 2];
      WhenOutcomeBeforeCondition(h', e);
    }
  }

  /** Disposal fulfils the cancel token and never rejects it, so a token that is only ever
      fulfilled never turns the promise's outcome into a cancellation. */
  lemma DisposalNeverCancels<T>(h: seq<Observation<T>>)
    requires Monotone(h) && h != []
    requires forall i :: 0 <= i < |h| ==> h[i].condition.Pending? || h[i].condition == Fulfilled(())
    ensures WhenOutcome(h) == Last(h).promise
  {
    WhenFollowsPromise(h);
  }

  /** The intermediate promises of the source's own composition
      `when(fulfilled: [p.asVoid(), race([p.asVoid(), c.asVoid()])]).map { p.value! }`. */
  datatype Composed<+T> = Composed(race: Settlement<()>, all: Settlement<seq<()>>, result: Settlement<T>)

  /** `promise.value!`: the value of a fulfilled promise, a trap otherwise. */
  function Unwrap<T>(p: Settlement<T>): (r: Outcome<T>)
    ensures r.Value? <==> p.Fulfilled?
    ensures r.Value? ==> r.value == p.value
    ensures r.Throw? ==> r.error == Trap
  {
    if p.Fulfilled? then Value(p.value) else Throw(Trap)
  }

  /** The composition of PromiseKit's `race`, `when(fulfilled:)` and `map` that implements
      `when(_:while:)`, stepped along the history. */
  function ComposedWhen<T>(h: seq<Observation<T>>): (r: Composed<T>)
    ensures !r.all.Pending? ==> !r.race.Pending?
    ensures r.result.Pending? <==> r.all.Pending?
    decreases |h|
  {
    if h == [] then Composed(Pending, Pending, Pending)
    else
      var s := ComposedWhen(h[..|h| - 1]);
      var p := Last(h).promise;
      var a := AsVoid(p);
      var race := RaceStep(s.race, [a, AsVoid(Last(h).condition)]);
      var all := AllStep(s.all, [a, race]);
      Composed(race, all, Resolve(s.result, Map(all, _ => Unwrap(p))))
  }

  /** The `when(fulfilled:)` promise of the composition, as determined by the outcome. */
  function Shape<T>(o: Settlement<T>): Settlement<seq<()>> {
    match o
    case Pending => Pending
    case Fulfilled(_) => Fulfilled([(), ()])
    case Rejected(e) => Rejected(e)
  }

  /** The source's composition computes exactly the `when(_:while:)` rule, and the
      force-unwrap runs only once the promise is fulfilled. */
  lemma {:induction false} ComposedWhenIsWhenOutcome<T>(h: seq<Observation<T>>)
    requires Monotone(h)
    ensures ComposedWhen(h).result == WhenOutcome(h)
    ensures ComposedWhen(h).all == Shape(WhenOutcome(h))
    ensures ComposedWhen(h).all.Fulfilled? ==> h != [] && Last(h).promise.Fulfilled?
    ensures h == [] ==> ComposedWhen(h).race == Pending
    ensures h != [] && WhenOutcome(h).Pending? ==> ComposedWhen(h).race == AsVoid(Last(h).condition)
  {
    if h != [] {
      var h' := h[..|h| - 1];
      if h' != [] {
        MonotonePrefix(h);
        WhenOutcomeCases(h');
        assert Last(h') == h[|h| - 2];
      }
      ComposedWhenIsWhenOutcome(h');
      WhenOutcomeCases(h);
      var s := ComposedWhen(h');
      var p := Last(h).promise;
      var a := AsVoid(p);
      var race := RaceStep(s.race, [a, AsVoid(Last(h).condition)]);
      var all := AllStep(s.all, [a, race]);
      if WhenOutcome(h').Pending? {
        assert s.all == Pending && s.result == Pending;
        // Before this step the race has settled at most with the condition's fulfilment.
        var c := Last(h).condition;
        UnitSettlement(c);
        assert s.race == Pending || (s.race == Fulfilled(()) && c == Fulfilled(())) by {
          if h' != [] {
            var c' := h[|h| - 2].condition;
            assert Stays(c', c);
            assert s.race == AsVoid(c') && !c'.Rejected?;
            UnitSettlement(c');
            assert c'.Pending? || c' == Fulfilled(());
          }
        }
        RaceOfTwo(a, AsVoid(c));
        if !p.Pending? {
          assert race.Fulfilled? || race == a;
          if p.Fulfilled? {
            assert all.Fulfilled? && |all.value| == 2;
            UnitSequences(all.value, [(), ()]);
          } else {
            assert all == Rejected(p.error);
          }
        } else if c.Rejected? {
          assert race == Rejected(c.error);
          assert all == Rejected(c.error);
        } else {
          assert race == AsVoid(c);
          assert all == Pending;
        }
      } else {
        WhenFulfilledOnlyByPromise(h);
      }
    }
  }

  /** The history of an inner `when(p, while: c)` promise, observed with the same condition. */
  function Inner<T>(h: seq<Observation<T>>): (r: seq<Observation<T>>)
    ensures |r| == |h|
    decreases |h|
  {
    if h == [] then []
    else Inner(h[..|h| - 1]) + [Observation(WhenOutcome(h), Last(h).condition)]
  }

  /** At every step the inner promise shows the outcome of the wait so far, under the
      condition of that step. */
  lemma {:induction false} InnerAt<T>(h: seq<Observation<T>>, i: nat)
    requires i < |h|
    ensures Inner(h)[i] == Observation(WhenOutcome(h[..i + 1]), h[i].condition)
  {
    if i < |h| - 1 {
      var h' := h[..|h| - 1];
      InnerAt(h', i);
      assert h'[..i + 1] == h[..i + 1];
    } else {
      assert h[..i + 1] == h;
    }
  }

  /** Waiting twice on the same condition is waiting once: a cancellable promise whose body
      is itself `when(_, while: cancelPromise)` (the combinators and `asCancellable`) ends
      exactly as the single wait would. */
  lemma {:induction false} WhenTwice<T>(h: seq<Observation<T>>)
    ensures WhenOutcome(Inner(h)) == WhenOutcome(h)
  {
    if h != [] {
      var h' := h[..|h| - 1];
      WhenTwice(h');
      var i := Inner(h);
      assert i[..|i| - 1] == Inner(h');
    }
  }
}
