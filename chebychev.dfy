/**
 * Chebyshev polynomials of the first kind, evaluated by the three-term
 * recurrence of src/math/chebychev.rs, with an error for a negative order.
 */
module Chebychev {
  import opened Wrappers

  /** The evaluator's custom error, carrying its message. */
  datatype EvalError = CustomMessage(message: string)

  const NEGATIVE_ORDER_MESSAGE: string := "Chebychev order can't be negative"

  /**
   * T_order(value). A negative order is an error; every other order
   * succeeds, because the recursion only reaches orders order-1 and
   * order-2, which stay non-negative.
   */
  function Chebychev(value: real, order: int): (r: Result<real, EvalError>)
    ensures r.Err? <==> order < 0
    ensures r.Err? ==> r.error == CustomMessage(NEGATIVE_ORDER_MESSAGE)
    decreases order
  {
    if order < 0 then
      Err(CustomMessage(NEGATIVE_ORDER_MESSAGE))
    else if order == 0 then
      Ok(1.0)
    else if order == 1 then
      Ok(value)
    else
      var previous := Chebychev(value, order - 1);
      if previous.Err? then previous
      else
        var beforePrevious := Chebychev(value, order - 2);
        if beforePrevious.Err? then beforePrevious
        else Ok(Step(value, previous.value, beforePrevious.value))
  }

  /** One step of the three-term recurrence: T_n = 2 v T_(n-1) - T_(n-2). */
  function Step(value: real, previous: real, beforePrevious: real): real {
    2.0 * value * previous - beforePrevious
  }

  /** The three-term recurrence for T_n(v), without an error path: defined for every non-negative order. */
  function T(n: nat, v: real): real
    decreases n
  {
    if n == 0 then 1.0
    else if n == 1 then v
    else Step(v, T(n - 1, v), T(n - 2, v))
  }

  /** For every non-negative order the evaluator succeeds with T_n(v): its error path is never taken. */
  lemma {:induction false} ChebychevIsT(v: real, n: nat)
    ensures Chebychev(v, n) == Ok(T(n, v))
  {
    if n >= 2 {
      ChebychevIsT(v, n - 1);
      ChebychevIsT(v, n - 2);
    }
  }

  /** Order 0 is the constant 1 and order 1 the identity. */
  lemma BaseOrders(v: real)
    ensures Chebychev(v, 0) == Ok(1.0)
    ensures Chebychev(v, 1) == Ok(v)
  {
  }

  /** From order 2 on, the evaluator follows the three-term recurrence on its own results. */
  lemma ChebychevRecurrence(v: real, n: nat)
    requires n >= 2
    ensures Chebychev(v, n).value ==
            2.0 * v * Chebychev(v, n - 1).value - Chebychev(v, n - 2).value
  {
    ChebychevIsT(v, n);
    ChebychevIsT(v, n - 1);
    ChebychevIsT(v, n - 2);
  }

  /** The three-term recurrence, stated from order j upwards. */
  lemma Recurrence(j: nat, v: real)
    ensures T(j + 2, v) == Step(v, T(j + 1, v), T(j, v))
  {
  }

  /** Every Chebyshev polynomial is 1 at 1. */
  lemma {:induction false} ValueAtOne(n: nat)
    ensures T(n, 1.0) == 1.0
    ensures Chebychev(1.0, n) == Ok(1.0)
  {
    ChebychevIsT(1.0, n);
    if n >= 2 {
      ValueAtOne(n - 1);
      ValueAtOne(n - 2);
    }
  }

  /** (-1)^n. */
  function Sign(n: nat): (s: real)
    ensures s == 1.0 || s == -1.0
    ensures n >= 1 ==> s == -Sign(n - 1)
  {
    if n % 2 == 0 then 1.0 else -1.0
  }

  /**
   * Even orders give even functions and odd orders odd ones:
   * T_n(-v) = (-1)^n T_n(v), for the evaluator as for the definition.
   */
  lemma Parity(n: nat, v: real)
    ensures T(n, -v) == if n % 2 == 0 then T(n, v) else -T(n, v)
    ensures Chebychev(-v, n) == Ok(if n % 2 == 0 then T(n, v) else -T(n, v))
  {
    ChebychevIsT(-v, n);
    var m := n / 2;
    ParityPair(m, v);
    if n % 2 == 0 {
      assert n == 2 * m;
    } else {
      assert n == 2 * m + 1;
    }
  }

  /** Parity for the pair of orders 2m and 2m + 1, by induction on m. */
  lemma {:induction false} ParityPair(m: nat, v: real)
    ensures T(2 * m, -v) == T(2 * m, v)
    ensures T(2 * m + 1, -v) == -T(2 * m + 1, v)
  {
    if m > 0 {
      var j := 2 * (m - 1);
      ParityPair(m - 1, v);
      assert j + 2 == 2 * m && j + 3 == 2 * m + 1;
      Recurrence(j, v);
      Recurrence(j, -v);
      Recurrence(j + 1, v);
      Recurrence(j + 1, -v);
      StepMirror(v, T(j + 1, v), T(j, v));
      StepMirror(v, T(j + 2, v), T(j + 1, v));
    }
  }

  /** Mirroring the argument of one recurrence step with an even and an odd predecessor. */
  lemma StepMirror(v: real, a: real, b: real)
    ensures Step(-v, -a, b) == Step(v, a, b)
    ensures Step(-v, a, -b) == -Step(v, a, b)
  {
    assert 2.0 * -v * -a == 2.0 * v * a;
    assert 2.0 * -v * a == -(2.0 * v * a);
  }

  /** Every Chebyshev polynomial is (-1)^n at -1. */
  lemma ValueAtMinusOne(n: nat)
    ensures Chebychev(-1.0, n) == Ok(Sign(n))
  {
    Parity(n, 1.0);
    ValueAtOne(n);
  }

  /** T_n(0) is 0 for odd n and alternates between 1 and -1 over the even orders. */
  lemma ValueAtZero(n: nat)
    ensures T(n, 0.0) == if n % 2 == 1 then 0.0 else Sign(n / 2)
    ensures Chebychev(0.0, n) == Ok(T(n, 0.0))
  {
    ChebychevIsT(0.0, n);
    var m := n / 2;
    ZeroPair(m);
    if n % 2 == 0 {
      assert n == 2 * m;
      assert T(n, 0.0) == Sign(m);
    } else {
      assert n == 2 * m + 1;
      assert T(n, 0.0) == 0.0;
    }
  }

  /** The values at 0 for the pair of orders 2m and 2m + 1, by induction on m. */
  lemma {:induction false} ZeroPair(m: nat)
    ensures T(2 * m, 0.0) == Sign(m)
    ensures T(2 * m + 1, 0.0) == 0.0
  {
    if m > 0 {
      var j := 2 * (m - 1);
      ZeroPair(m - 1);
      assert j + 2 == 2 * m && j + 3 == 2 * m + 1;
      Recurrence(j, 0.0);
      Recurrence(j + 1, 0.0);
    }
  }
}
