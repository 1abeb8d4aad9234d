/** JavaScript numbers as the client pages use them. Parsing (`Number`,
    `parseFloat`, `parseInt`) is not modelled: a raw field arrives as the
    number its parse produced, NaN included. Values are exact reals, so
    binary floating-point rounding is outside the model. */
module JsNumber {
  import opened Seqs

  /** A parsed JavaScript number: NaN, or a finite value. */
  datatype Num = NaN | Fin(v: real)

  /** `+` on numbers: NaN is absorbing. */
  function Add(a: Num, b: Num): (r: Num)
    ensures r.Fin? <==> a.Fin? && b.Fin?
  {
    if a.Fin? && b.Fin? then Fin(a.v + b.v) else NaN
  }

  function Neg(a: Num): Num
  {
    if a.Fin? then Fin(-a.v) else NaN
  }

  /** The number a safe-number helper yields: `Number.isNaN(n) ? 0 : n`,
      and equally `Number(x) || 0`, since a 0 stays 0. */
  function OrZero(n: Num): real
  {
    if n.Fin? then n.v else 0.0
  }

  /** `Math.max(0, x)`. */
  function Max0(x: real): (r: real)
    ensures r >= 0.0 && r >= x && (r == 0.0 || r == x)
  {
    if x > 0.0 then x else 0.0
  }

  /** A text field of a form: empty, or holding text whose parse is `n`. */
  datatype Input = Blank | Entered(n: Num)

  /** `Number(x || 0)` and `parseFloat(x || 0)`: an empty field reads as 0. */
  function ValueOf(i: Input): Num
  {
    if i.Blank? then Fin(0.0) else i.n
  }

  /** `Number(x) || 0` on a field. */
  function AmountOf(i: Input): real
  {
    OrZero(ValueOf(i))
  }

  /** Sum of numbers that may be NaN, from the left as `reduce` does: NaN
      anywhere makes the whole sum NaN. */
  function NumSum<T>(s: seq<T>, f: T -> Num): (r: Num)
    ensures r.Fin? <==> forall x :: x in s ==> f(x).Fin?
  {
    if s == [] then Fin(0.0)
    else
      var init := s[..|s| - 1];
      var last := s[|s| - 1];
      assert s == init + [last];
      Add(NumSum(init, f), f(last))
  }

  lemma {:induction false} NumSumAppend<T>(a: seq<T>, b: seq<T>, f: T -> Num)
    ensures NumSum(a + b, f) == Add(NumSum(a, f), NumSum(b, f))
    decreases |b|
  {
    if b == [] {
      assert a + b == a;
    } else {
      var b' := b[..|b| - 1];
      assert (a + b)[..|a + b| - 1] == a + b';
      NumSumAppend(a, b', f);
    }
  }

  /** When every term is finite, the NaN-aware sum is the plain real sum. */
  lemma {:induction false} NumSumFinite<T>(s: seq<T>, f: T -> Num)
    requires forall x :: x in s ==> f(x).Fin?
    ensures NumSum(s, f) == Fin(Sum(s, x => OrZero(f(x))))
  {
    if s != [] {
      var init := s[..|s| - 1];
      assert forall x :: x in init ==> x in s;
      NumSumFinite(init, f);
    }
  }
}
