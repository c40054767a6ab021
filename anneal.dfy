/** main's `simulated_anneal`: from the initial list, try N random moves of
    shrinking size and keep a move only when it lowers the fitness. The
    fitness is a function of the list alone; it may raise, and so may the
    schedule when there are no trials at all. */
module Anneal {
  import opened Wrappers
  import opened Numerics

  datatype AnnealError<E> =
    | NoTrials          // `(0.01 / 6.35) ** (1. / N)` with N == 0: ZeroDivisionError
    | Raised(error: E)  // the fitness function raised

  /** The first move size, and the one the schedule shrinks towards. */
  const StartSize: real := 6.35
  const EndSize: real := 0.01

  /** `add`: element-wise sum over `zip`, which stops at the shorter list. */
  function AddLists(a: seq<real>, b: seq<real>): (r: seq<real>)
    ensures |r| == if |a| < |b| then |a| else |b|
    ensures forall k :: 0 <= k < |r| ==> r[k] == a[k] + b[k]
  {
    if |a| == 0 || |b| == 0 then [] else [a[0] + b[0]] + AddLists(a[1..], b[1..])
  }

  /** One draw `(2 * random.random() - 1) * size` for a given `random()`. */
  function Draw(u: real, size: real): real {
    (2.0 * u - 1.0) * size
  }

  /** `d` is a value `make_random` can produce for the given size. */
  ghost predicate Drawable(d: real, size: real) {
    exists u :: 0.0 <= u < 1.0 && d == Draw(u, size)
  }

  /** `make_random`: n draws, with `random()` anywhere in [0, 1). */
  method MakeRandom(n: nat, size: real) returns (delta: seq<real>)
    ensures |delta| == n
    ensures forall k :: 0 <= k < n ==> Drawable(delta[k], size)
  {
    delta := [];
    while |delta| < n
      invariant |delta| <= n
      invariant forall k :: 0 <= k < |delta| ==> Drawable(delta[k], size)
    {
      var u: real :| 0.0 <= u < 1.0;
      var d := Draw(u, size);
      delta := delta + [d];
    }
  }

  /** The point the search stands on never got worse: its value is the one
      it had at the start, or strictly lower. */
  predicate NoWorse<E>(func: seq<real> -> Result<real, E>, initial: seq<real>, x: seq<real>) {
    && func(initial).Success? && func(x).Success?
    && |x| == |initial|
    && func(x).value <= func(initial).value
    && (x == initial || func(x).value < func(initial).value)
  }

  /** `simulated_anneal(func, initial, niter)`. It returns a list of the
      initial length whose fitness is no higher than the initial one, and
      which is the initial list itself unless it is strictly better. An
      empty trial count (`niter * len(initial)` zero) fails with NoTrials,
      a negative one makes no trial; the first fitness that raises ends
      the search with that error. */
  method SimulatedAnneal<E>(func: seq<real> -> Result<real, E>, initial: seq<real>, niter: int, m: Math)
    returns (r: Result<seq<real>, AnnealError<E>>)
    ensures func(initial).Failure? ==> r == Failure(Raised(func(initial).error))
    ensures func(initial).Success? && niter * |initial| == 0 ==> r == Failure(NoTrials)
    ensures niter * |initial| < 0 && func(initial).Success? ==> r == Success(initial)
    ensures r.Failure? && r.error.Raised? ==> exists x :: func(x) == Failure(r.error.error)
    ensures r.Success? ==> NoWorse(func, initial, r.value)
  {
    var x := initial;
    var first := func(x);
    if first.Failure? {
      return Failure(Raised(first.error));
    }
    var f := first.value;
    var n := niter * |initial|;
    if n == 0 {
      return Failure(NoTrials);
    }
    var size := StartSize;
    var mult := m.pow(EndSize / StartSize, 1.0 / n as real);
    var trial := 0;
    while trial < n
      invariant NoWorse(func, initial, x) && f == func(x).value
      invariant n < 0 ==> x == initial
    {
      var delta := MakeRandom(|initial|, size);
      var candidate := AddLists(x, delta);
      var next := func(candidate);
      if next.Failure? {
        return Failure(Raised(next.error));
      }
      if next.value < f {
        x, f := candidate, next.value;
      }
      size := size * mult;
      trial := trial + 1;
    }
    return Success(x);
  }
}
