/** Promise settlements and the PromiseKit operations the cancellable layer is built from:
    single-assignment resolution, `map`/`compactMap`/`asVoid`, `race`, `when(fulfilled:)`
    and `when(resolved:)`. PromiseKit's combinators are described as steps: each step looks at
    the current settlements of the inputs and the previous outcome of the combinator. */
module Settlements {

  datatype Option<+T> = None | Some(value: T)

  /** `CancellablePromiseError`: the error a cancelled promise is rejected with. */
  datatype CancellablePromiseError = Cancelled {

    /** The `isCancelled` marker catch handlers test for; the enum has no case without it. */
    function IsCancelled(): (r: bool)
      ensures r
    {
      match this
      case Cancelled => true
    }
  }

  /** The errors a promise can be rejected with. */
  datatype Error =
    | Cancellation(reason: CancellablePromiseError)  // CancellablePromiseError.cancelled
    | CompactMapNil                                  // a `compactMap` transform returned nil
    | BadInput                                       // `race` over no promises at all
    | Thrown(code: int)                              // any error thrown by user code
    | Trap                                           // a force-unwrap of nil (a runtime trap in Swift)

  const CancelledError: Error := Cancellation(Cancelled)

  /** The state of a promise: pending, then settled exactly once. */
  datatype Settlement<+T> = Pending | Fulfilled(value: T) | Rejected(error: Error)

  /** A resolver's fulfil/reject: only the first resolution of a promise takes effect. */
  function Resolve<T>(s: Settlement<T>, r: Settlement<T>): (s': Settlement<T>)
    ensures !s.Pending? ==> s' == s
    ensures s.Pending? ==> s' == r
  {
    if s.Pending? then r else s
  }

  /** What a throwing transform produces: a value, or a thrown error. */
  datatype Outcome<+U> = Value(value: U) | Throw(error: Error)

  /** PromiseKit's `map`: a throwing transform applied to the fulfilled value. */
  function Map<T, U>(s: Settlement<T>, f: T -> Outcome<U>): (r: Settlement<U>)
    ensures r.Pending? <==> s.Pending?
    ensures s.Rejected? ==> r == Rejected(s.error)
    ensures s.Fulfilled? ==> (r.Fulfilled? <==> f(s.value).Value?)
    ensures r.Fulfilled? ==> r.value == f(s.value).value
    ensures s.Fulfilled? && f(s.value).Throw? ==> r == Rejected(f(s.value).error)
  {
    match s
    case Pending => Pending
    case Rejected(e) => Rejected(e)
    case Fulfilled(v) =>
      match f(v)
      case Value(u) => Fulfilled(u)
      case Throw(e) => Rejected(e)
  }

  /** PromiseKit's `compactMap`: like `map`, but a nil result rejects the promise. */
  function CompactMap<T, U>(s: Settlement<T>, f: T -> Outcome<Option<U>>): (r: Settlement<U>)
    ensures r.Pending? <==> s.Pending?
    ensures s.Rejected? ==> r == Rejected(s.error)
    ensures s.Fulfilled? && f(s.value) == Value(None) ==> r == Rejected(CompactMapNil)
    ensures s.Fulfilled? && f(s.value).Value? && f(s.value).value.Some? ==>
      r == Fulfilled(f(s.value).value.value)
    ensures s.Fulfilled? && f(s.value).Throw? ==> r == Rejected(f(s.value).error)
  {
    match s
    case Pending => Pending
    case Rejected(e) => Rejected(e)
    case Fulfilled(v) =>
      match f(v)
      case Value(Some(u)) => Fulfilled(u)
      case Value(None) => Rejected(CompactMapNil)
      case Throw(e) => Rejected(e)
  }

  /** PromiseKit's `then`: the promise a throwing body produces from the fulfilled value
      decides the outcome. */
  function FlatMap<T, U>(s: Settlement<T>, f: T -> Outcome<Settlement<U>>): (r: Settlement<U>)
    ensures s.Pending? ==> r.Pending?
    ensures s.Rejected? ==> r == Rejected(s.error)
    ensures s.Fulfilled? && f(s.value).Value? ==> r == f(s.value).value
    ensures s.Fulfilled? && f(s.value).Throw? ==> r == Rejected(f(s.value).error)
  {
    match s
    case Pending => Pending
    case Rejected(e) => Rejected(e)
    case Fulfilled(v) =>
      match f(v)
      case Value(next) => next
      case Throw(e) => Rejected(e)
  }

  /** A `then` whose body returns an already fulfilled promise is a `map`. */
  lemma FlatMapOfFulfilledIsMap<T, U>(s: Settlement<T>, f: T -> Outcome<U>)
    ensures FlatMap(s, x => if f(x).Value? then Value(Fulfilled(f(x).value)) else Throw(f(x).error))
         == Map(s, f)
  {
    match s
    case Pending =>
    case Rejected(e) =>
    case Fulfilled(v) =>
      match f(v)
      case Value(u) =>
      case Throw(e) =>
  }

  /** Wraps a transform's value in `Some`, keeping a thrown error. */
  function SomeOf<U>(o: Outcome<U>): Outcome<Option<U>> {
    match o
    case Value(u) => Value(Some(u))
    case Throw(e) => Throw(e)
  }

  /** A `compactMap` whose transform never yields nil is the `map` of the same transform. */
  lemma CompactMapOfSomeIsMap<T, U>(s: Settlement<T>, f: T -> Outcome<U>)
    ensures CompactMap(s, x => SomeOf(f(x))) == Map(s, f)
  {
    match s
    case Pending =>
    case Rejected(e) =>
    case Fulfilled(v) =>
      match f(v)
      case Value(u) =>
      case Throw(e) =>
  }

  /** `asVoid`: forgets the value and keeps the timing and the error. */
  function AsVoid<T>(s: Settlement<T>): (r: Settlement<()>)
    ensures r.Pending? <==> s.Pending?
    ensures r.Fulfilled? <==> s.Fulfilled?
    ensures r.Fulfilled? ==> r == Fulfilled(())
    ensures s.Rejected? ==> r == Rejected(s.error)
  {
    Map(s, _ => Value(()))
  }

  /** A fulfilled `Void` promise carries the one unit value. */
  lemma UnitSettlement(x: Settlement<()>)
    ensures x.Fulfilled? ==> x == Fulfilled(())
  {
    if x.Fulfilled? {
      match x.value
      case () =>
    }
  }

  /** Any two equally long sequences of unit values are equal. */
  lemma UnitSequences(u: seq<()>, v: seq<()>)
    requires |u| == |v|
    ensures u == v
  {
    forall i | 0 <= i < |u|
      ensures u[i] == v[i]
    {
      match u[i]
      case () =>
        match v[i]
        case () =>
    }
  }

  /** The index of the first settled promise in `xs`, or `|xs|` when all are pending. */
  function FirstSettledIndex<T>(xs: seq<Settlement<T>>): (i: nat)
    ensures i <= |xs|
    ensures forall j :: 0 <= j < i ==> xs[j].Pending?
    ensures i < |xs| ==> !xs[i].Pending?
  {
    if xs == [] then 0
    else if !xs[0].Pending? then 0
    else 1 + FirstSettledIndex(xs[1..])
  }

  /** One step of PromiseKit's `race`: the first input to settle decides the outcome
      (inputs settling at the same step are taken in list order); `race` over no
      inputs rejects with `BadInput`. */
  function RaceStep<T>(prior: Settlement<T>, xs: seq<Settlement<T>>): (r: Settlement<T>)
    ensures !prior.Pending? ==> r == prior
    ensures prior.Pending? && xs == [] ==> r == Rejected(BadInput)
    ensures prior.Pending? && xs != [] ==>
      (r.Pending? <==> forall j :: 0 <= j < |xs| ==> xs[j].Pending?)
    ensures prior.Pending? && !r.Pending? && xs != [] ==> exists j :: 0 <= j < |xs| && xs[j] == r
  {
    if !prior.Pending? then prior
    else if xs == [] then Rejected(BadInput)
    else
      var i := FirstSettledIndex(xs);
      if i < |xs| then xs[i] else Pending
  }

  /** `race` of two promises: the first one's settlement if it has one, else the second's. */
  lemma RaceOfTwo<T>(x: Settlement<T>, y: Settlement<T>)
    ensures RaceStep(Pending, [x, y]) == if !x.Pending? then x else y
  {
    assert [x, y][1..] == [y] && [y][1..] == [];
    assert FirstSettledIndex([y]) == if y.Pending? then 1 else 0;
  }

  /** The index of the first rejected promise in `xs`, or `|xs|` when none is rejected. */
  function FirstRejectedIndex<T>(xs: seq<Settlement<T>>): (i: nat)
    ensures i <= |xs|
    ensures forall j :: 0 <= j < i ==> !xs[j].Rejected?
    ensures i < |xs| ==> xs[i].Rejected?
  {
    if xs == [] then 0
    else if xs[0].Rejected? then 0
    else 1 + FirstRejectedIndex(xs[1..])
  }

  /** The values of `xs` when every one of them is fulfilled. */
  function AllValues<T>(xs: seq<Settlement<T>>): (r: Option<seq<T>>)
    ensures r.Some? <==> forall j :: 0 <= j < |xs| ==> xs[j].Fulfilled?
    ensures r.Some? ==> |r.value| == |xs| && forall j :: 0 <= j < |xs| ==> r.value[j] == xs[j].value
  {
    if xs == [] then Some([])
    else if !xs[0].Fulfilled? then None
    else
      match AllValues(xs[1..])
      case None => None
      case Some(vs) => Some([xs[0].value] + vs)
  }

  /** One step of PromiseKit's `when(fulfilled:)`: rejects as soon as an input rejects, and
      fulfills with all the values, in input order, once every input is fulfilled. */
  function AllStep<T>(prior: Settlement<seq<T>>, xs: seq<Settlement<T>>): (r: Settlement<seq<T>>)
    ensures !prior.Pending? ==> r == prior
    ensures prior.Pending? ==> (r.Fulfilled? <==> forall j :: 0 <= j < |xs| ==> xs[j].Fulfilled?)
    ensures prior.Pending? && r.Fulfilled? ==>
      |r.value| == |xs| && forall j :: 0 <= j < |xs| ==> r.value[j] == xs[j].value
    ensures prior.Pending? ==> (r.Rejected? <==> exists j :: 0 <= j < |xs| && xs[j].Rejected?)
    ensures prior.Pending? && r.Rejected? ==> exists j :: 0 <= j < |xs| && xs[j] == Rejected(r.error)
  {
    if !prior.Pending? then prior
    else
      var k := FirstRejectedIndex(xs);
      if k < |xs| then Rejected(xs[k].error)
      else
        match AllValues(xs)
        case Some(vs) => Fulfilled(vs)
        case None => Pending
  }

  /** One step of PromiseKit's `when(resolved:)`: fulfills with every input's settlement,
      in input order, once all have settled; it never rejects. */
  function ResolvedStep<T>(prior: Settlement<seq<Settlement<T>>>, xs: seq<Settlement<T>>)
    : (r: Settlement<seq<Settlement<T>>>)
    ensures !prior.Rejected? ==> !r.Rejected?
    ensures prior.Pending? ==> (r.Fulfilled? <==> forall j :: 0 <= j < |xs| ==> !xs[j].Pending?)
    ensures prior.Pending? && r.Fulfilled? ==>
      |r.value| == |xs| && forall j :: 0 <= j < |xs| ==> r.value[j] == xs[j] && !r.value[j].Pending?
  {
    if !prior.Pending? then prior
    else if forall j | 0 <= j < |xs| :: !xs[j].Pending? then Fulfilled(xs)
    else Pending
  }
}
