/** `CancellablePromise`: a PromiseKit promise with a monotonic `isCancelled` flag, an abort
    callback, a list of `subsequentCancels` through which chained children are cancelled, and
    a hidden cancel token. The token is the condition of `when(_:while:)`: `cancel()` rejects
    it one turn of the main queue later, disposal fulfils it.

    Closures are named by the `Callback` datatype: invoking one is recorded in the list a
    method returns, in the order of invocation. `DispatchQueue.main.async` is the explicit
    FIFO `MainQueue`. */
module Cancellable {
  import opened Settlements
  import opened WhenWhile

  /** A callback the cancellable layer can hold and invoke. */
  datatype Callback =
    | CancelOf(target: nat)  // the `cancel` method of the cancellable promise with this id
    | Abort(tag: nat)        // an abort callback supplied by the caller
    | NoOp                   // the empty closure `{ }`

  /** A resolver action deferred to the main queue. */
  datatype Deferred =
    | RejectToken(target: nat)   // `cancelResolver.reject(CancellablePromiseError.cancelled)`
    | FulfillToken(target: nat)  // `resolver.fulfill(Void())`, from `deinit`

  /** How a deferred action resolves the token it is meant for. */
  function TokenResolution(d: Deferred): (r: Settlement<()>)
    ensures d.RejectToken? <==> r == Rejected(CancelledError)
    ensures d.FulfillToken? <==> r == Fulfilled(())
  {
    match d
    case RejectToken(_) => Rejected(CancelledError)
    case FulfillToken(_) => Fulfilled(())
  }

  /** The main dispatch queue: actions run one at a time, in the order they were enqueued. */
  class MainQueue {
    var pending: seq<Deferred>

    constructor ()
      ensures pending == []
    {
      pending := [];
    }

    /** `DispatchQueue.main.async`: runs after everything already enqueued. */
    method Async(d: Deferred)
      modifies this
      ensures pending == old(pending) + [d]
    {
      pending := pending + [d];
    }

    /** Takes the action whose turn has come, if any. */
    method Next() returns (d: Option<Deferred>)
      modifies this
      ensures old(pending) == [] ==> d == None && pending == []
      ensures old(pending) != [] ==> d == Some(old(pending)[0]) && pending == old(pending)[1..]
    {
      if pending == [] {
        d := None;
      } else {
        d := Some(pending[0]);
        pending := pending[1..];
      }
    }
  }

  /** `promise` is `when(body, while: token)` over everything observed: the history is
      monotone, ends with the current body and token, and determines the outcome. */
  ghost predicate Tracks<T>(history: seq<Observation<T>>, body: Settlement<T>, token: Settlement<()>,
                            state: Settlement<T>)
  {
    && history != []
    && Monotone(history)
    && Last(history) == Observation(body, token)
    && state == WhenOutcome(history)
  }

  /** What a resolver-style body did: returned an abort callback or threw, having possibly
      resolved its resolver synchronously before that. */
  datatype ResolverBody<+T> =
    | Returned(resolved: Settlement<T>, abort: Callback)
    | Threw(resolved: Settlement<T>, error: Error)

  /** A cancellable promise. Callbacks and deferred token actions name a promise by its `id`,
      so the model assumes that no two live promises share an id. */
  class CancellablePromise<T> {
    /** The identity other promises use to name this one's `cancel`. */
    const id: nat
    /** `cancelFunction`: the abort callback. */
    const cancelFunction: Callback

    var isCancelled: bool
    var subsequentCancels: seq<Callback>
    /** The promise the body returned, `body(cancelPromise)`. For the composites built with
        `Wrapper` (`race`, `when(fulfilled:)`, `when(resolved:)`, `asCancellable`) it is the
        inner PromiseKit promise; the closure returns `when(inner, while: cancelPromise)`, and
        by `WhenTwice` waiting on the same token twice ends as waiting once, so `state` is the
        outcome of that inner `when` as well. */
    var body: Settlement<T>
    /** The cancel token, `cancelPromise`. */
    var token: Settlement<()>
    /** `promise`, which is `when(body(cancelPromise), while: cancelPromise)`. */
    var state: Settlement<T>
    /** How many times the abort callback has been invoked. */
    var abortCalls: nat
    /** Everything observed of the body and the token so far. */
    ghost var history: seq<Observation<T>>

    /** The outcome follows the `when(_:while:)` rule, and subsequent cancels are only ever
        registered by the closure of `then`, which runs once this promise has fulfilled. */
    ghost predicate Valid()
      reads this
    {
      && Tracks(history, body, token, state)
      && (subsequentCancels != [] ==> state.Fulfilled?)
    }

    /** The callbacks one `cancel()` invokes, in order: every subsequent cancel, then the
        abort callback if the promise is still pending. */
    function CancelEffect(): (r: seq<Callback>)
      reads this`subsequentCancels, this`state
      ensures |r| == |subsequentCancels| + (if state.Pending? then 1 else 0)
      ensures r[..|subsequentCancels|] == subsequentCancels
      ensures state.Pending? ==> r[|subsequentCancels|] == cancelFunction
    {
      subsequentCancels + (if state.Pending? then [cancelFunction] else [])
    }

    /** `init(using:cancel:)`, and the private `init(_:cancel:)` whose body returned `promise`:
        the token is fresh and pending, so the promise mirrors `promise`. */
    constructor Using(id: nat, promise: Settlement<T>, cancel: Callback)
      ensures Valid()
      ensures this.id == id && cancelFunction == cancel
      ensures !isCancelled && subsequentCancels == [] && abortCalls == 0
      ensures body == promise && token == Pending && state == promise
    {
      this.id := id;
      cancelFunction := cancel;
      isCancelled := false;
      subsequentCancels := [];
      body := promise;
      token := Pending;
      abortCalls := 0;
      history := [Observation(promise, Pending)];
      state := WhenStep(Pending, promise, Pending);
    }

    /** `init(wrapper:)`: a body that sees the token, and no abort callback. */
    constructor Wrapper(id: nat, promise: Settlement<T>)
      ensures Valid()
      ensures this.id == id && cancelFunction == NoOp
      ensures !isCancelled && subsequentCancels == [] && abortCalls == 0
      ensures body == promise && token == Pending && state == promise
    {
      this.id := id;
      cancelFunction := NoOp;
      isCancelled := false;
      subsequentCancels := [];
      body := promise;
      token := Pending;
      abortCalls := 0;
      history := [Observation(promise, Pending)];
      state := WhenStep(Pending, promise, Pending);
    }

    /** `init(resolver:)`: the body's returned closure becomes the abort callback; if the
        body throws, the promise is rejected with the thrown error (unless the body had
        already resolved it) and the abort callback is `{ }`. */
    constructor FromResolver(id: nat, outcome: ResolverBody<T>)
      ensures Valid()
      ensures this.id == id
      ensures !isCancelled && subsequentCancels == [] && abortCalls == 0 && token == Pending
      ensures outcome.Returned? ==> cancelFunction == outcome.abort && state == outcome.resolved
      ensures outcome.Threw? ==> cancelFunction == NoOp
      ensures outcome.Threw? && outcome.resolved.Pending? ==> state == Rejected(outcome.error)
      ensures outcome.Threw? && !outcome.resolved.Pending? ==> state == outcome.resolved
    {
      var promise := if outcome.Returned? then outcome.resolved else Resolve(outcome.resolved, Rejected(outcome.error));
      var cancel := if outcome.Returned? then outcome.abort else NoOp;
      this.id := id;
      cancelFunction := cancel;
      isCancelled := false;
      subsequentCancels := [];
      body := promise;
      token := Pending;
      abortCalls := 0;
      history := [Observation(promise, Pending)];
      state := WhenStep(Pending, promise, Pending);
    }

    /** `cancel()`: sets the flag, invokes every subsequent cancel in list order and, if the
        promise is still pending, invokes the abort callback and enqueues the token's
        rejection behind everything already on the queue. There is no once-only guard:
        every call while pending aborts again. Nothing settles during the call itself. */
    method Cancel(q: MainQueue) returns (invoked: seq<Callback>)
      modifies this`isCancelled, this`abortCalls, q
      ensures old(Valid()) ==> Valid()
      ensures isCancelled
      ensures invoked == old(CancelEffect())
      ensures abortCalls == old(abortCalls) + (if state.Pending? then 1 else 0)
      ensures q.pending == old(q.pending) + (if state.Pending? then [RejectToken(id)] else [])
    {
      isCancelled := true;
      invoked := [];
      var i := 0;
      while i < |subsequentCancels|
        invariant 0 <= i <= |subsequentCancels|
        invariant invoked == subsequentCancels[..i]
      {
        invoked := invoked + [subsequentCancels[i]];
        i := i + 1;
      }
      if state.Pending? {
        invoked := invoked + [cancelFunction];
        abortCalls := abortCalls + 1;
        q.Async(RejectToken(id));
      }
    }

    /** `deinit`: enqueues the fulfilment of the token; it never rejects it. A queued
        token rejection holds the promise alive, so `deinit` cannot come before it runs. */
    method Dispose(q: MainQueue)
      requires Valid() && RejectToken(id) !in q.pending
      modifies q
      ensures Valid()
      ensures q.pending == old(q.pending) + [FulfillToken(id)]
    {
      q.Async(FulfillToken(id));
    }

    /** The resolver of the body's promise: its first resolution takes effect, and the
        promise follows the `when(_:while:)` rule. */
    method SettleBody(s: Settlement<T>)
      requires Valid()
      modifies this`body, this`state, this`history
      ensures Valid()
      ensures body == Resolve(old(body), s) && history == old(history) + [Observation(body, token)]
      ensures old(state).Pending? && !body.Pending? ==> state == body
      ensures body.Pending? || !old(state).Pending? ==> state == old(state)
    {
      WhenOutcomeCases(history);
      body := Resolve(body, s);
      history := history + [Observation(body, token)];
      state := WhenStep(state, body, token);
      assert history[..|history| - 1] == old(history);
    }

    /** Runs a deferred token action meant for this promise. A rejection that arrives while
        the body is pending cancels the promise; otherwise the outcome is untouched. */
    method RunDeferred(d: Deferred)
      requires Valid() && d.target == id
      modifies this`token, this`state, this`history
      ensures Valid()
      ensures token == Resolve(old(token), TokenResolution(d))
      ensures history == old(history) + [Observation(body, token)]
      ensures old(state).Pending? && d.RejectToken? && old(token).Pending? ==> state == Rejected(CancelledError)
      ensures d.FulfillToken? ==> state == old(state)
      ensures !old(state).Pending? ==> state == old(state)
    {
      token := Resolve(token, TokenResolution(d));
      history := history + [Observation(body, token)];
      state := WhenStep(state, body, token);
      assert history[..|history| - 1] == old(history);
    }

    /** The part of chaining `then` that runs in its closure, on this promise's fulfilled
        value, once the body has produced `child`: a child produced after this promise was
        cancelled is cancelled at once, and the child's `cancel` is always appended to
        `subsequentCancels`. */
    method Adopt<V>(child: CancellablePromise<V>, q: MainQueue) returns (invoked: seq<Callback>)
      requires Valid() && state.Fulfilled? && child.Valid()
      modifies this`subsequentCancels, child`isCancelled, child`abortCalls, q
      ensures Valid() && child.Valid()
      ensures subsequentCancels == old(subsequentCancels) + [CancelOf(child.id)]
      ensures old(isCancelled) ==> child.isCancelled && invoked == old(child.CancelEffect())
      ensures old(isCancelled) ==>
        && child.abortCalls == old(child.abortCalls) + (if child.state.Pending? then 1 else 0)
        && q.pending == old(q.pending) + (if child.state.Pending? then [RejectToken(child.id)] else [])
      ensures !old(isCancelled) ==>
        && invoked == []
        && child.isCancelled == old(child.isCancelled)
        && child.abortCalls == old(child.abortCalls)
        && q.pending == old(q.pending)
    {
      invoked := [];
      if isCancelled {
        invoked := child.Cancel(q);
      }
      subsequentCancels := subsequentCancels + [CancelOf(child.id)];
    }

    /** Chaining `then`: the returned promise waits for the chain and cancels through this
        promise's `cancel`. Its body settles through `SettleChain`. */
    method Then<V>(newId: nat) returns (r: CancellablePromise<V>)
      ensures fresh(r) && r.Valid()
      ensures !r.isCancelled && r.subsequentCancels == [] && r.abortCalls == 0
      ensures r.token == Pending && r.body == r.state
      ensures r.id == newId && r.cancelFunction == CancelOf(id)
      ensures r.state == Pending
    {
      r := new CancellablePromise<V>.Using(newId, Pending, CancelOf(id));
    }

    /** The body of a promise `then` returned, once PromiseKit's `then` has run its closure on
        the parent's settlement `parent`: a fulfilled parent hands on the settlement of the
        promise the closure produced, or the error the closure threw; a rejected parent hands
        on its error; a pending parent leaves the body pending. */
    method SettleChain<S>(parent: Settlement<S>, produced: Outcome<Settlement<T>>)
      requires Valid()
      modifies this`body, this`state, this`history
      ensures Valid()
      ensures body == Resolve(old(body), FlatMap(parent, _ => produced))
      ensures old(state).Pending? && !body.Pending? ==> state == body
      ensures body.Pending? || !old(state).Pending? ==> state == old(state)
    {
      SettleBody(FlatMap(parent, _ => produced));
    }

    /** `map`: the transformed promise, cancelled through this promise's `cancel`. */
    method Map<U>(newId: nat, f: T -> Outcome<U>) returns (r: CancellablePromise<U>)
      ensures fresh(r) && r.Valid()
      ensures !r.isCancelled && r.subsequentCancels == [] && r.abortCalls == 0
      ensures r.token == Pending && r.body == r.state
      ensures r.id == newId && r.cancelFunction == CancelOf(id)
      ensures r.state == Settlements.Map(state, f)
    {
      r := new CancellablePromise<U>.Using(newId, Settlements.Map(state, f), CancelOf(id));
    }

    /** `compactMap`: as `map`, with a nil result rejecting. */
    method CompactMap<U>(newId: nat, f: T -> Outcome<Option<U>>) returns (r: CancellablePromise<U>)
      ensures fresh(r) && r.Valid()
      ensures !r.isCancelled && r.subsequentCancels == [] && r.abortCalls == 0
      ensures r.token == Pending && r.body == r.state
      ensures r.id == newId && r.cancelFunction == CancelOf(id)
      ensures r.state == Settlements.CompactMap(state, f)
    {
      r := new CancellablePromise<U>.Using(newId, Settlements.CompactMap(state, f), CancelOf(id));
    }

    /** `asVoid`: `map` to the unit value. */
    method AsVoid(newId: nat) returns (r: CancellablePromise<()>)
      ensures fresh(r) && r.Valid()
      ensures !r.isCancelled && r.subsequentCancels == [] && r.abortCalls == 0
      ensures r.token == Pending && r.body == r.state
      ensures r.id == newId && r.cancelFunction == CancelOf(id)
      ensures r.state == Settlements.AsVoid(state)
    {
      r := Map(newId, _ => Value(()));
    }
  }

  /** The settlements of a list of cancellable promises. */
  function States<T>(ps: seq<CancellablePromise<T>>): (r: seq<Settlement<T>>)
    reads (set p | p in ps)`state
    ensures |r| == |ps| && forall k :: 0 <= k < |ps| ==> r[k] == ps[k].state
  {
    if ps == [] then [] else [ps[0].state] + States(ps[1..])
  }

  /** The callbacks cancelling the first `n` promises invokes: each one's cancel effect, in
      list order. */
  function CancelEffects<T>(ps: seq<CancellablePromise<T>>, n: nat): seq<Callback>
    requires n <= |ps|
    reads (set p | p in ps)`subsequentCancels, (set p | p in ps)`state
  {
    if n == 0 then [] else CancelEffects(ps, n - 1) + ps[n - 1].CancelEffect()
  }

  /** The token rejections cancelling the first `n` promises enqueues: one per pending
      promise, in list order. */
  function Rejections<T>(ps: seq<CancellablePromise<T>>, n: nat): seq<Deferred>
    requires n <= |ps|
    reads (set p | p in ps)`state
  {
    if n == 0 then []
    else Rejections(ps, n - 1) + (if ps[n - 1].state.Pending? then [RejectToken(ps[n - 1].id)] else [])
  }

  /** Cancelling two promises invokes the first one's effect, then the second one's, and
      queues the rejections of those that are pending, in that order. */
  lemma EffectsOfTwo<T>(a: CancellablePromise<T>, b: CancellablePromise<T>)
    ensures CancelEffects([a, b], 2) == a.CancelEffect() + b.CancelEffect()
    ensures Rejections([a, b], 2) == (if a.state.Pending? then [RejectToken(a.id)] else [])
                                    + (if b.state.Pending? then [RejectToken(b.id)] else [])
  {
    assert CancelEffects([a, b], 1) == a.CancelEffect();
    assert Rejections([a, b], 1) == (if a.state.Pending? then [RejectToken(a.id)] else []);
  }

  /** How many times `p` is listed among the first `n` promises of `ps`. */
  function Occurrences<T>(ps: seq<CancellablePromise<T>>, n: nat, p: CancellablePromise<T>): (c: nat)
    requires n <= |ps|
    ensures c <= n
  {
    if n == 0 then 0
    else
      Occurrences(ps, n - 1, p) + (if ps[n - 1] == p then 1 else 0)
  }

  /** The count is the multiplicity of `p` in the multiset of the listed promises. */
  lemma {:induction false} OccurrencesCountListings<T>(ps: seq<CancellablePromise<T>>, n: nat, p: CancellablePromise<T>)
    requires n <= |ps|
    ensures Occurrences(ps, n, p) == multiset(ps[..n])[p]
  {
    if n > 0 {
      OccurrencesCountListings(ps, n - 1, p);
      assert ps[..n] == ps[..n - 1] + [ps[n - 1]];
    }
  }

  /** `cancelAll(in:)`: cancels every promise of the list in order. A promise listed twice
      is cancelled, and if pending aborted, twice. */
  method CancelAll<T>(ps: seq<CancellablePromise<T>>, q: MainQueue) returns (invoked: seq<Callback>)
    modifies (set p | p in ps)`isCancelled, (set p | p in ps)`abortCalls, q
    ensures forall p | p in ps :: p.isCancelled
    ensures forall p | p in ps ::
      p.abortCalls == old(p.abortCalls) + (if p.state.Pending? then Occurrences(ps, |ps|, p) else 0)
    ensures invoked == CancelEffects(ps, |ps|)
    ensures q.pending == old(q.pending) + Rejections(ps, |ps|)
  {
    invoked := [];
    var i := 0;
    while i < |ps|
      invariant 0 <= i <= |ps|
      invariant forall k :: 0 <= k < i ==> ps[k].isCancelled
      invariant forall k :: 0 <= k < |ps| ==>
        ps[k].abortCalls == old(ps[k].abortCalls) + (if ps[k].state.Pending? then Occurrences(ps, i, ps[k]) else 0)
      invariant invoked == CancelEffects(ps, i)
      invariant q.pending == old(q.pending) + Rejections(ps, i)
    {
      var more := ps[i].Cancel(q);
      invoked := invoked + more;
      i := i + 1;
    }
    assert ps[..|ps|] == ps;
  }

  /** The `.ensure` block of `race`, `when(fulfilled:)` and `when(resolved:)`: once the
      composite's `when(inner, while: cancelPromise)` has settled, because the inner promise
      settled or because the composite was cancelled, every input, the winner included, is cancelled
      when `autoCancel` is set; the overloads without `autoCancel` pass false and cancel
      nothing. */
  method EnsureCancelAll<T, R>(composite: CancellablePromise<R>, ps: seq<CancellablePromise<T>>,
                               autoCancel: bool, q: MainQueue) returns (invoked: seq<Callback>)
    requires !composite.state.Pending?
    modifies (set p | p in ps)`isCancelled, (set p | p in ps)`abortCalls, q
    ensures autoCancel ==> invoked == CancelEffects(ps, |ps|) && forall p | p in ps :: p.isCancelled
    ensures autoCancel ==> forall p | p in ps ::
      p.abortCalls == old(p.abortCalls) + (if p.state.Pending? then Occurrences(ps, |ps|, p) else 0)
    ensures autoCancel ==> q.pending == old(q.pending) + Rejections(ps, |ps|)
    ensures !autoCancel ==> invoked == [] && q.pending == old(q.pending)
    ensures !autoCancel ==> forall p | p in ps :: p.isCancelled == old(p.isCancelled) && p.abortCalls == old(p.abortCalls)
  {
    invoked := [];
    if autoCancel {
      invoked := CancelAll(ps, q);
    }
  }

  /** The `.ensure` block of `when(_:while:autoCancel:)` on a cancellable promise: once the
      outcome has settled, the promise is cancelled when `autoCancel` is set. */
  method EnsureCancel<T>(p: CancellablePromise<T>, autoCancel: bool, q: MainQueue) returns (invoked: seq<Callback>)
    modifies p`isCancelled, p`abortCalls, q
    ensures autoCancel ==> p.isCancelled && invoked == old(p.CancelEffect())
    ensures autoCancel ==> p.abortCalls == old(p.abortCalls) + (if p.state.Pending? then 1 else 0)
    ensures autoCancel ==> q.pending == old(q.pending) + (if p.state.Pending? then [RejectToken(p.id)] else [])
    ensures !autoCancel ==> invoked == [] && q.pending == old(q.pending)
    ensures !autoCancel ==> p.isCancelled == old(p.isCancelled) && p.abortCalls == old(p.abortCalls)
  {
    invoked := [];
    if autoCancel {
      invoked := p.Cancel(q);
    }
  }

  /** `race(_:autoCancel:)`: a token-aware composite, without abort callback, whose body is
      `when(race(inputs), while: cancelPromise)`. */
  method Race<T>(newId: nat, ps: seq<CancellablePromise<T>>) returns (r: CancellablePromise<T>)
    ensures fresh(r) && r.Valid() && r.id == newId && r.cancelFunction == NoOp
    ensures !r.isCancelled && r.subsequentCancels == [] && r.abortCalls == 0
    ensures r.token == Pending && r.body == r.state
    ensures r.state == RaceStep(Pending, States(ps))
  {
    r := new CancellablePromise<T>.Wrapper(newId, RaceStep(Pending, States(ps)));
  }

  /** `when(fulfilled:autoCancel:)`: the composite of PromiseKit's `when(fulfilled:)`. */
  method WhenFulfilled<T>(newId: nat, ps: seq<CancellablePromise<T>>) returns (r: CancellablePromise<seq<T>>)
    ensures fresh(r) && r.Valid() && r.id == newId && r.cancelFunction == NoOp
    ensures !r.isCancelled && r.subsequentCancels == [] && r.abortCalls == 0
    ensures r.token == Pending && r.body == r.state
    ensures r.state == AllStep(Pending, States(ps))
  {
    r := new CancellablePromise<seq<T>>.Wrapper(newId, AllStep(Pending, States(ps)));
  }

  /** `when(resolved:autoCancel:)`: the composite of PromiseKit's `when(resolved:)`. */
  method WhenResolved<T>(newId: nat, ps: seq<CancellablePromise<T>>)
    returns (r: CancellablePromise<seq<Settlement<T>>>)
    ensures fresh(r) && r.Valid() && r.id == newId && r.cancelFunction == NoOp
    ensures !r.isCancelled && r.subsequentCancels == [] && r.abortCalls == 0
    ensures r.token == Pending && r.body == r.state
    ensures r.state == ResolvedStep(Pending, States(ps))
  {
    r := new CancellablePromise<seq<Settlement<T>>>.Wrapper(newId, ResolvedStep(Pending, States(ps)));
  }

  /** `asCancellable()`: a plain promise behind a token-aware body, without abort callback. */
  method AsCancellable<T>(newId: nat, promise: Settlement<T>) returns (r: CancellablePromise<T>)
    ensures fresh(r) && r.Valid() && r.id == newId && r.cancelFunction == NoOp
    ensures !r.isCancelled && r.subsequentCancels == [] && r.abortCalls == 0
    ensures r.token == Pending && r.body == r.state
    ensures r.state == promise
  {
    r := new CancellablePromise<T>.Wrapper(newId, WhenStep(Pending, promise, Pending));
  }
}
