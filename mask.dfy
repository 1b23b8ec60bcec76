/** Vertical masking of sixel characters. A sixel character's code point minus
    63 is a 6-bit field in which bit k stands for pixel row k of the band
    (bit 0 is the top row). Masking keeps some rows and clears the others. */
module Mask {

  function Pow2(n: nat): (p: nat)
    ensures p >= 1
  {
    if n == 0 then 1 else 2 * Pow2(n - 1)
  }

  /** Bit `k` of `v`. */
  function Bit(v: nat, k: nat): nat
  {
    if k == 0 then v % 2 else Bit(v / 2, k - 1)
  }

  /** Python's `a & b` on non-negative integers. */
  function BitAnd(a: nat, b: nat): (r: nat)
    ensures r <= a && r <= b
    decreases a
  {
    if a == 0 then 0
    else 2 * BitAnd(a / 2, b / 2) + (if a % 2 == 1 && b % 2 == 1 then 1 else 0)
  }

  lemma {:induction false} BitOfZero(k: nat)
    ensures Bit(0, k) == 0
  {
    if k > 0 { BitOfZero(k - 1); }
  }

  /** `&` works bit by bit. */
  lemma {:induction false} BitOfAnd(a: nat, b: nat, k: nat)
    ensures Bit(BitAnd(a, b), k) == Bit(a, k) * Bit(b, k)
    decreases k
  {
    if a == 0 {
      BitOfZero(k);
    } else if k > 0 {
      BitOfAnd(a / 2, b / 2, k - 1);
    }
  }

  /** `2**n - 1` has exactly the bits below `n` set. */
  lemma {:induction false} BitOfLowOnes(n: nat, k: nat)
    ensures Bit(Pow2(n) - 1, k) == if k < n then 1 else 0
    decreases n
  {
    if n == 0 {
      BitOfZero(k);
    } else if k > 0 {
      assert (Pow2(n) - 1) / 2 == Pow2(n - 1) - 1;
      BitOfLowOnes(n - 1, k - 1);
    }
  }

  /** Subtracting from `2**j - 1` flips each of the low `j` bits. */
  lemma {:induction false} BitOfComplement(j: nat, v: nat, k: nat)
    requires v < Pow2(j) && k < j
    ensures Bit(Pow2(j) - 1 - v, k) == 1 - Bit(v, k)
    decreases k
  {
    if k > 0 {
      assert (Pow2(j) - 1 - v) / 2 == Pow2(j - 1) - 1 - v / 2;
      BitOfComplement(j - 1, v / 2, k - 1);
    }
  }

  lemma {:induction false} Pow2Monotone(m: nat, n: nat)
    requires m <= n
    ensures Pow2(m) <= Pow2(n)
    decreases n
  {
    if m < n { Pow2Monotone(m, n - 1); }
  }

  /** The operand `63 - (2**n - 1)` of the `&` at lines 191 and 295. */
  function TopOperand(n: nat): (m: nat)
    requires n <= 6
    ensures m <= 63
  {
    Pow2Monotone(n, 6);
    63 - (Pow2(n) - 1)
  }

  /** The operand `2**n - 1` of the `&` at lines 204 and 302. */
  function BottomOperand(n: nat): (m: nat)
    requires n <= 6
    ensures m <= 63
  {
    Pow2Monotone(n, 6);
    Pow2(n) - 1
  }

  /** `63 - (2**n - 1)` has exactly bits [n, 6) set. */
  lemma TopOperandBits(n: nat, k: nat)
    requires n <= 6 && k < 6
    ensures Bit(TopOperand(n), k) == if n <= k then 1 else 0
  {
    assert Pow2(6) == 64;
    Pow2Monotone(n, 6);
    BitOfComplement(6, Pow2(n) - 1, k);
    BitOfLowOnes(n, k);
  }

  /** The pixel rows a sixel character sets, as a 6-bit field. */
  function Rows(c: char): nat
    requires c as int >= 63
  {
    c as int - 63
  }

  /** Line 191/295: `chr(((sixel - 63) & (63 - (2**n - 1))) + 63)` for a
      sixel character, which clears the top `n` pixel rows of the band. */
  function TopMask(c: char, n: nat): (r: char)
    requires n <= 6
    ensures c as int < 63 ==> r == c
    ensures c as int >= 63 ==> 63 <= r as int <= 126
    ensures c as int >= 63 ==>
              forall k :: 0 <= k < 6 ==>
                Bit(Rows(r), k) == if n <= k then Bit(Rows(c), k) else 0
  {
    if c as int >= 63 then
      var v := BitAnd(Rows(c), TopOperand(n));
      var r := (v + 63) as char;
      assert Rows(r) == v;
      assert forall k :: 0 <= k < 6 ==> Bit(v, k) == if n <= k then Bit(Rows(c), k) else 0 by {
        forall k | 0 <= k < 6
          ensures Bit(v, k) == if n <= k then Bit(Rows(c), k) else 0
        {
          BitOfAnd(Rows(c), TopOperand(n), k);
          TopOperandBits(n, k);
        }
      }
      r
    else c
  }

  /** Line 204/302: `chr(((sixel - 63) & (2**n - 1)) + 63)` for a sixel
      character, which keeps only the top `n` pixel rows of the band. */
  function BottomMask(c: char, n: nat): (r: char)
    requires n <= 6
    ensures c as int < 63 ==> r == c
    ensures c as int >= 63 ==> 63 <= r as int <= 126
    ensures c as int >= 63 ==>
              forall k :: 0 <= k < 6 ==>
                Bit(Rows(r), k) == if k < n then Bit(Rows(c), k) else 0
  {
    if c as int >= 63 then
      var v := BitAnd(Rows(c), BottomOperand(n));
      var r := (v + 63) as char;
      assert Rows(r) == v;
      assert forall k :: 0 <= k < 6 ==> Bit(v, k) == if k < n then Bit(Rows(c), k) else 0 by {
        forall k | 0 <= k < 6
          ensures Bit(v, k) == if k < n then Bit(Rows(c), k) else 0
        {
          BitOfAnd(Rows(c), BottomOperand(n), k);
          BitOfLowOnes(n, k);
        }
      }
      r
    else c
  }

  /** Which rows of the current band survive the vertical crop. */
  datatype MaskKind = Keep | Top(n: nat) | Bottom(n: nat)

  predicate ValidMask(m: MaskKind)
  {
    match m
    case Keep => true
    case Top(n) => n <= 6
    case Bottom(n) => n <= 6
  }

  function ApplyMask(m: MaskKind, c: char): (r: char)
    requires ValidMask(m)
    ensures c as int < 63 ==> r == c
    ensures m.Keep? ==> r == c
  {
    match m
    case Keep => c
    case Top(n) => TopMask(c, n)
    case Bottom(n) => BottomMask(c, n)
  }

  /** Masking every character of a text. */
  function MaskText(m: MaskKind, s: string): (r: string)
    requires ValidMask(m)
    ensures |r| == |s|
    ensures forall j :: 0 <= j < |s| ==> r[j] == ApplyMask(m, s[j])
  {
    seq(|s|, j requires 0 <= j < |s| => ApplyMask(m, s[j]))
  }

  /** Masking one more character adds its masked form at the end. */
  lemma MaskTextSnoc(m: MaskKind, s: string, c: char)
    requires ValidMask(m)
    ensures MaskText(m, s + [c]) == MaskText(m, s) + [ApplyMask(m, c)]
  {
    assert (s + [c])[|s|] == c;
  }
}
