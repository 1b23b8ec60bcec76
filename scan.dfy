/** Shared vocabulary of the Sixel crop transcoder: the ways a transcode can
    fail, the characters the scanner classifies, and the "read while" scan
    that every inner loop of the transcoder is built from. */
module Scan {

  /** Why a transcode aborts. The source raises a Python exception in each case,
      so no partial output survives. */
  datatype Fault =
    | Truncated       // `data[i]` read past the end of the input (IndexError)
    | ExtraParameter  // a digit in a fourth DCS parameter: `params[p]` with p == 3 (IndexError)
    | MissingQ        // the DCS parameters are not followed by 'q' (the failed assert)
    | EmptyDimension  // `int("")` on an empty raster width or height (ValueError)

  datatype Result<T> = Ok(value: T) | Err(fault: Fault)

  /** A Python value that may be `None`. */
  datatype Option<T> = None | Some(value: T)

  /** The escape character that opens `ESC P` and `ESC \`. */
  const ESC: char := '\U{1B}'

  /** The two characters that end a Sixel stream. */
  const StringTerminator: string := [ESC, '\\']

  predicate IsDigit(c: char) { '0' <= c <= '9' }

  /** `char in "0123456789;"` */
  predicate IsParamChar(c: char) { IsDigit(c) || c == ';' }

  /** `char in "#0123456789"` */
  predicate IsColorChar(c: char) { IsDigit(c) || c == '#' }

  /** A run of digits and ';' ends just before index `k`, on a character
      that is neither. */
  predicate ParamsEndAt(data: string, k: nat) { k < |data| && !IsParamChar(data[k]) }

  predicate AllDigits(s: string) { forall j :: 0 <= j < |s| ==> IsDigit(s[j]) }

  /** The index of the first character at or after `i` that `keep` rejects,
      or `|data|` when there is none. */
  function SpanEnd(data: string, i: nat, keep: char -> bool): (k: nat)
    requires i <= |data|
    ensures i <= k <= |data|
    ensures forall m :: i <= m < k ==> keep(data[m])
    ensures k < |data| ==> !keep(data[k])
    decreases |data| - i
  {
    if i == |data| || !keep(data[i]) then i else SpanEnd(data, i + 1, keep)
  }

  /** The end of a span is the first rejected index, so any index with
      that property is it. */
  lemma {:induction false} SpanEndAt(data: string, i: nat, k: nat, keep: char -> bool)
    requires i <= k <= |data|
    requires forall m :: i <= m < k ==> keep(data[m])
    requires k < |data| ==> !keep(data[k])
    ensures SpanEnd(data, i, keep) == k
    decreases k - i
  {
    if i < k {
      SpanEndAt(data, i + 1, k, keep);
    }
  }

  /** A span stops at the latest at any rejected character after its start. */
  lemma {:induction false} SpanEndWithin(data: string, i: nat, n: nat, keep: char -> bool)
    requires i <= n < |data| && !keep(data[n])
    ensures SpanEnd(data, i, keep) <= n
    decreases n - i
  {
    if i < n && keep(data[i]) {
      SpanEndWithin(data, i + 1, n, keep);
    }
  }

  /** Advances a cursor over the characters that `keep` accepts, the shape of
      every `while char in ...: char = data[i]; i += 1` loop of the source. */
  method ScanWhile(data: string, i: nat, keep: char -> bool) returns (k: nat)
    requires i <= |data|
    ensures k == SpanEnd(data, i, keep)
  {
    k := i;
    while k < |data| && keep(data[k])
      invariant i <= k <= |data|
      invariant SpanEnd(data, k, keep) == SpanEnd(data, i, keep)
      decreases |data| - k
    {
      k := k + 1;
    }
  }
}
