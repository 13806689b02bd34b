/**
 * The advisory-lock key of an invoice (src/payments/xendit/xendit.idempotency.ts).
 * JavaScript numbers are modelled as unbounded integers; every bitwise operator applies ToInt32
 * (section 7.1.6 of ECMA-262, ES2022) explicitly. No intermediate value leaves the range in which
 * JavaScript numbers are exact.
 */
module LockKey {
  import opened Common

  const TWO_31: int := 0x8000_0000
  const TWO_32: int := 0x1_0000_0000

  /** One UTF-16 code unit, as charCodeAt returns it. */
  type CodeUnit = c: int | 0 <= c < 0x1_0000

  /** ToInt32: the residue modulo 2^32 moved into [-2^31, 2^31). */
  function ToInt32(n: int): (r: int)
    ensures -TWO_31 <= r < TWO_31
    ensures (r - n) % TWO_32 == 0
  {
    var m := n % TWO_32;
    if m < TWO_31 then m else m - TWO_32
  }

  /** The base-31 polynomial of the whole string, computed without any wrap-around. */
  function Polynomial(s: seq<CodeUnit>): int {
    if |s| == 0 then 0 else 31 * Polynomial(s[..|s| - 1]) + s[|s| - 1]
  }

  /** The key as a closed form: wrap once, at the very end. */
  function Key(s: seq<CodeUnit>): int {
    Abs(ToInt32(Polynomial(s)))
  }

  /** ToInt32 moves its argument by a multiple of 2^32. */
  lemma WrapIsShift(n: int) returns (k: int)
    ensures ToInt32(n) == n + k * TWO_32
  {
    k := (ToInt32(n) - n) / TWO_32;
  }

  lemma ResidueOfShift(n: int, k: int)
    ensures (n + k * TWO_32) % TWO_32 == n % TWO_32
  {
  }

  lemma ShiftsWrapAlike(n: int, k: int)
    ensures ToInt32(n + k * TWO_32) == ToInt32(n)
  {
    ResidueOfShift(n, k);
  }

  lemma SumOfShifts(p: int, c: int, a: int, b: int)
    ensures (p + b * TWO_32) * 32 + a * TWO_32 - (p + b * TWO_32) + c == 31 * p + c + (a + 31 * b) * TWO_32
  {
  }

  /** Wrapping the running hash and the shifted hash changes nothing modulo 2^32. */
  lemma WrappedStepMatchesPolynomialStep(h: int, p: int, c: int)
    requires h == ToInt32(p)
    ensures ToInt32(ToInt32(h * 32) - h + c) == ToInt32(31 * p + c)
  {
    var a := WrapIsShift(h * 32);
    var b := WrapIsShift(p);
    SumOfShifts(p, c, a, b);
    ShiftsWrapAlike(31 * p + c, a + 31 * b);
  }

  /** The loop of the source: it wraps after the shift and again after the addition. */
  method GenerateLockKey(invoiceId: seq<CodeUnit>) returns (key: int)
    ensures key == Key(invoiceId)
    ensures 0 <= key <= TWO_31
  {
    var hash := 0;
    var i := 0;
    while i < |invoiceId|
      invariant 0 <= i <= |invoiceId|
      invariant hash == ToInt32(Polynomial(invoiceId[..i]))
    {
      var unit := invoiceId[i];
      WrappedStepMatchesPolynomialStep(hash, Polynomial(invoiceId[..i]), unit);
      assert invoiceId[..i + 1][..i] == invoiceId[..i];
      hash := (ToInt32(hash * 32) - hash) + unit;
      hash := ToInt32(hash);
      i := i + 1;
    }
    assert invoiceId[..i] == invoiceId;
    key := Abs(hash);
  }

  /** The polynomial read from the front: the first unit has the highest power of 31. */
  function Power31(n: nat): int {
    if n == 0 then 1 else 31 * Power31(n - 1)
  }

  lemma {:induction false} PolynomialOfConcatenation(s: seq<CodeUnit>, t: seq<CodeUnit>)
    ensures Polynomial(s + t) == Polynomial(s) * Power31(|t|) + Polynomial(t)
  {
    if |t| == 0 {
      assert s + t == s;
    } else {
      var front := t[..|t| - 1];
      assert (s + t)[..|s + t| - 1] == s + front;
      PolynomialOfConcatenation(s, front);
      calc {
        Polynomial(s + t);
        31 * (Polynomial(s) * Power31(|front|) + Polynomial(front)) + t[|t| - 1];
        Polynomial(s) * Power31(|t|) + Polynomial(t);
      }
    }
  }

  /**
   * Keys are not injective, whatever surrounds the collision: exchanging the two units "Aa" for "BB"
   * anywhere inside an invoice id keeps its key. Two different invoices can therefore share a lock.
   */
  lemma DifferentInvoicesCanShareAKey(prefix: seq<CodeUnit>, suffix: seq<CodeUnit>)
    ensures prefix + [65, 97] + suffix != prefix + [66, 66] + suffix
    ensures Key(prefix + [65, 97] + suffix) == Key(prefix + [66, 66] + suffix)
  {
    var first: seq<CodeUnit> := [65, 97];
    var second: seq<CodeUnit> := [66, 66];
    assert (prefix + first + suffix)[|prefix|] == 65 && (prefix + second + suffix)[|prefix|] == 66;
    assert first[..1] == [65] && second[..1] == [66];
    assert first[..1][..0] == [] && second[..1][..0] == [];
    assert Polynomial(first) == 2112 == Polynomial(second);
    PolynomialOfConcatenation(prefix, first);
    PolynomialOfConcatenation(prefix, second);
    PolynomialOfConcatenation(prefix + first, suffix);
    PolynomialOfConcatenation(prefix + second, suffix);
  }
}
