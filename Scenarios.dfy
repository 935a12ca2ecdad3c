/** Concrete runs of the cancellable layer on the main queue, each ending in the outcome
    the source's behaviour determines. */
module Scenarios {
  import opened Settlements
  import opened WhenWhile
  import opened Cancellable

  /** Runs the next deferred action, which must be meant for `p`. */
  method RunNextOn<T>(p: CancellablePromise<T>, q: MainQueue)
    requires p.Valid() && q.pending != [] && q.pending[0].target == p.id
    modifies p`token, p`state, p`history, q
    ensures p.Valid() && q.pending == old(q.pending)[1..]
    ensures p.token == Resolve(old(p.token), TokenResolution(old(q.pending)[0]))
    ensures old(p.state).Pending? && old(q.pending)[0].RejectToken? && old(p.token).Pending? ==>
      p.state == Rejected(CancelledError)
    ensures old(q.pending)[0].FulfillToken? || !old(p.state).Pending? ==> p.state == old(p.state)
  {
    var d := q.Next();
    p.RunDeferred(d.value);
  }

  /** Two `cancel()` calls while pending: the abort callback runs twice and two token
      rejections are queued; the first one cancels the promise, the second changes nothing. */
  method CancelTwiceWhilePending() returns (aborts: nat, invoked: seq<Callback>, outcome: Settlement<int>)
    ensures aborts == 2
    ensures invoked == [Abort(7), Abort(7)]
    ensures outcome == Rejected(CancelledError)
  {
    var q := new MainQueue();
    var p := new CancellablePromise<int>.Using(1, Pending, Abort(7));
    var first := p.Cancel(q);
    var second := p.Cancel(q);
    RunNextOn(p, q);
    RunNextOn(p, q);
    aborts, invoked, outcome := p.abortCalls, first + second, p.state;
  }

  /** A resolver body that would fulfil with 42 later, cancelled first: the abort callback
      runs at once, the promise ends cancelled, and the late fulfilment is ignored. */
  method CancelBeforeResolution() returns (aborted: bool, outcome: Settlement<int>)
    ensures aborted
    ensures outcome == Rejected(CancelledError)
  {
    var q := new MainQueue();
    var p := new CancellablePromise<int>.FromResolver(1, Returned(Pending, Abort(3)));
    var invoked := p.Cancel(q);
    aborted := invoked == [Abort(3)];
    RunNextOn(p, q);
    p.SettleBody(Fulfilled(42));
    outcome := p.state;
  }

  /** A resolver body that throws: the promise is rejected with the thrown error and
      cancelling it later invokes nothing and queues nothing. */
  method ThrowingResolver() returns (outcome: Settlement<int>, invoked: seq<Callback>, queued: seq<Deferred>)
    ensures outcome == Rejected(Thrown(5))
    ensures invoked == [] && queued == []
  {
    var q := new MainQueue();
    var p := new CancellablePromise<int>.FromResolver(1, Threw(Pending, Thrown(5)));
    invoked := p.Cancel(q);
    outcome, queued := p.state, q.pending;
  }

  /** `asCancellable()` on a promise that has not resolved: cancelling invokes only the
      no-op abort, yet the wrapper ends cancelled; disposal afterwards changes nothing. */
  method CancelAsCancellable() returns (invoked: seq<Callback>, outcome: Settlement<string>)
    ensures invoked == [NoOp]
    ensures outcome == Rejected(CancelledError)
  {
    var q := new MainQueue();
    var p := AsCancellable(1, Pending);
    invoked := p.Cancel(q);
    RunNextOn(p, q);
    p.Dispose(q);
    RunNextOn(p, q);
    p.SettleBody(Fulfilled("x"));
    outcome := p.state;
  }

  /** Cancelling a promise that has already fulfilled: the flag is set, but there is no
      abort, no queued rejection, and the value stays. */
  method CancelAfterFulfilment() returns (cancelled: bool, aborts: nat, queued: seq<Deferred>, outcome: Settlement<int>)
    ensures cancelled && aborts == 0 && queued == []
    ensures outcome == Fulfilled(5)
  {
    var q := new MainQueue();
    var p := new CancellablePromise<int>.Using(1, Pending, Abort(7));
    p.SettleBody(Fulfilled(5));
    var invoked := p.Cancel(q);
    cancelled, aborts, queued, outcome := p.isCancelled, p.abortCalls, q.pending, p.state;
  }

  /** Disposal of a pending promise: the token is fulfilled, the promise stays pending,
      and its later fulfilment still comes through. */
  method DisposeWhilePending() returns (afterDisposal: Settlement<int>, outcome: Settlement<int>)
    ensures afterDisposal == Pending
    ensures outcome == Fulfilled(9)
  {
    var q := new MainQueue();
    var p := new CancellablePromise<int>.Using(1, Pending, Abort(7));
    p.Dispose(q);
    RunNextOn(p, q);
    afterDisposal := p.state;
    p.SettleBody(Fulfilled(9));
    outcome := p.state;
  }

  /** `cancel()` on a pending parent aborts it and queues its token rejection; its body then
      fulfils before that rejection runs, so the closure of `then` runs on a cancelled parent:
      the child it produced is cancelled at once and registered, and the late rejection leaves
      the parent fulfilled. */
  method ThenAfterCancel() returns (parentInvoked: seq<Callback>, childCancelled: bool,
                                    childInvoked: seq<Callback>, registered: seq<Callback>,
                                    parentOutcome: Settlement<int>)
    ensures parentInvoked == [Abort(10)]
    ensures childCancelled && childInvoked == [Abort(20)]
    ensures registered == [CancelOf(2)]
    ensures parentOutcome == Fulfilled(5)
  {
    var q := new MainQueue();
    var parent := new CancellablePromise<int>.Using(1, Pending, Abort(10));
    var chained := parent.Then<int>(3);
    parentInvoked := parent.Cancel(q);
    parent.SettleBody(Fulfilled(5));
    var child := new CancellablePromise<int>.Using(2, Pending, Abort(20));
    childInvoked := parent.Adopt(child, q);
    RunNextOn(parent, q);
    childCancelled, registered, parentOutcome := child.isCancelled, parent.subsequentCancels, parent.state;
  }

  /** Cancelling the promise `then` returned invokes the parent's `cancel`; the parent has
      fulfilled, so its `cancel` invokes only the registered child's `cancel`, which aborts
      the pending child. */
  method ChainCancelReachesChild() returns (thenInvoked: seq<Callback>, parentInvoked: seq<Callback>,
                                            childInvoked: seq<Callback>)
    ensures thenInvoked == [CancelOf(1)]
    ensures parentInvoked == [CancelOf(2)]
    ensures childInvoked == [Abort(20)]
  {
    var q := new MainQueue();
    var parent := new CancellablePromise<int>.Using(1, Fulfilled(5), Abort(10));
    var chained := parent.Then<int>(3);
    var child := new CancellablePromise<int>.Using(2, Pending, Abort(20));
    var _ := parent.Adopt(child, q);
    thenInvoked := chained.Cancel(q);
    parentInvoked := parent.Cancel(q);
    childInvoked := child.Cancel(q);
  }

  /** The promise `then` returned settles as the child the closure produced: it stays
      pending while the child is, and takes the child's value once the child fulfils. */
  method ThenFollowsChild() returns (whilePending: Settlement<int>, outcome: Settlement<int>)
    ensures whilePending == Pending
    ensures outcome == Fulfilled(7)
  {
    var q := new MainQueue();
    var parent := new CancellablePromise<int>.Using(1, Fulfilled(5), Abort(10));
    var chained := parent.Then<int>(3);
    var child := new CancellablePromise<int>.Using(2, Pending, Abort(20));
    var _ := parent.Adopt(child, q);
    chained.SettleChain(parent.state, Value(child.state));
    whilePending := chained.state;
    child.SettleBody(Fulfilled(7));
    chained.SettleChain(parent.state, Value(child.state));
    outcome := chained.state;
  }

  /** A closure of `then` that throws rejects the returned promise with the thrown error,
      and a rejected parent passes its own error on without running the closure. */
  method ThenRejections() returns (thrown: Settlement<int>, passedOn: Settlement<int>)
    ensures thrown == Rejected(Thrown(3))
    ensures passedOn == Rejected(Thrown(4))
  {
    var fulfilled := new CancellablePromise<int>.Using(1, Fulfilled(5), Abort(10));
    var a := fulfilled.Then<int>(2);
    a.SettleChain(fulfilled.state, Throw(Thrown(3)));
    var rejected := new CancellablePromise<int>.Using(3, Rejected(Thrown(4)), Abort(30));
    var b := rejected.Then<int>(4);
    b.SettleChain(rejected.state, Value(Fulfilled(9)));
    thrown, passedOn := a.state, b.state;
  }

  /** `map` transforms the parent's value. */
  method MapOfFulfilled() returns (mapped: Settlement<int>)
    ensures mapped == Fulfilled(8)
  {
    var settled := new CancellablePromise<int>.Using(0, Fulfilled(4), Abort(0));
    var doubled := settled.Map(4, x => Value(2 * x));
    mapped := doubled.state;
  }

  /** Cancelling a pending mapped promise invokes the parent's `cancel`, which aborts the
      pending parent. */
  method MapCancelsParent() returns (mapInvoked: seq<Callback>, parentInvoked: seq<Callback>)
    ensures mapInvoked == [CancelOf(1)]
    ensures parentInvoked == [Abort(10)]
  {
    var q := new MainQueue();
    var parent := new CancellablePromise<int>.Using(1, Pending, Abort(10));
    var m := parent.Map(3, x => Value(2 * x));
    mapInvoked := m.Cancel(q);
    parentInvoked := parent.Cancel(q);
  }

  /** `race` over a pending and a fulfilled promise takes the fulfilled one's value. */
  method RaceFirstSettled() returns (outcome: Settlement<int>)
    ensures outcome == Fulfilled(1)
  {
    var a := new CancellablePromise<int>.Using(1, Pending, Abort(10));
    var b := new CancellablePromise<int>.Using(2, Fulfilled(1), Abort(20));
    var r := Race(3, [a, b]);
    assert States([a, b]) == [Pending, Fulfilled(1)];
    RaceOfTwo(Pending, Fulfilled(1));
    outcome := r.state;
  }

  /** The `.ensure` of a settled `race` with `autoCancel: true` cancels every input, the
      winner included; only the pending loser aborts and queues a token rejection. */
  method RaceAutoCancel() returns (invoked: seq<Callback>, queued: seq<Deferred>,
                                   winnerCancelled: bool, loserCancelled: bool)
    ensures invoked == [Abort(10)]
    ensures queued == [RejectToken(1)]
    ensures winnerCancelled && loserCancelled
  {
    var q := new MainQueue();
    var a := new CancellablePromise<int>.Using(1, Pending, Abort(10));
    var b := new CancellablePromise<int>.Using(2, Fulfilled(1), Abort(20));
    var ps := [a, b];
    var r := Race(3, ps);
    assert States(ps) == [Pending, Fulfilled(1)];
    RaceOfTwo(Pending, Fulfilled(1));
    invoked := EnsureCancelAll(r, ps, true, q);
    EffectsOfTwo(a, b);
    assert a in ps && b in ps;
    queued := q.pending;
    winnerCancelled, loserCancelled := b.isCancelled, a.isCancelled;
  }

  /** `race` with `autoCancel` cancelled while its input is pending: the composite's token
      rejection settles it as cancelled, and its `.ensure` block then cancels the input,
      which aborts and queues its own token rejection. */
  method RaceCancelledAutoCancel() returns (compositeInvoked: seq<Callback>, outcome: Settlement<int>,
                                            invoked: seq<Callback>, queued: seq<Deferred>,
                                            inputCancelled: bool)
    ensures compositeInvoked == [NoOp]
    ensures outcome == Rejected(CancelledError)
    ensures invoked == [Abort(10)]
    ensures queued == [RejectToken(1)]
    ensures inputCancelled
  {
    var q := new MainQueue();
    var a := new CancellablePromise<int>.Using(1, Pending, Abort(10));
    var r := Race(3, [a]);
    assert r.state == Pending;
    compositeInvoked := r.Cancel(q);
    RunNextOn(r, q);
    outcome := r.state;
    invoked := EnsureCancelAll(r, [a], true, q);
    assert CancelEffects([a], 1) == a.CancelEffect() && Rejections([a], 1) == [RejectToken(1)];
    queued, inputCancelled := q.pending, a.isCancelled;
  }
}
