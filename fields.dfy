/** The semicolon-separated parameter lists of the DCS introducer and of the
    raster-attribute command: splitting a scanned run into fields the way the
    source's accumulation loops do, and Python's `";".join`. */
module Fields {
  import opened Scan

  /** One more character read into a field list: a ';' opens a new empty
      field, any other character extends the last one. */
  function AddChar(f: seq<string>, c: char): (g: seq<string>)
    requires |f| >= 1
    ensures |g| >= 1
  {
    if c == ';' then f + [[]] else f[..|f| - 1] + [f[|f| - 1] + [c]]
  }

  /** The fields of `s`, accumulated left to right as the source does. */
  function Split(s: string): (f: seq<string>)
    ensures |f| >= 1
    decreases |s|
  {
    if s == [] then [[]] else AddChar(Split(s[..|s| - 1]), s[|s| - 1])
  }

  /** Every field is a run of digits. */
  predicate DigitFields(f: seq<string>)
  {
    forall q :: 0 <= q < |f| ==> AllDigits(f[q])
  }

  /** `AddChar` is the source's in-place edit: `append("")` for a ';',
      `params[-1] += c` otherwise; reading a digit or ';' keeps every field
      a run of digits. */
  lemma AddCharInPlace(f: seq<string>, c: char)
    requires |f| >= 1
    ensures AddChar(f, c) == if c == ';' then f + [[]] else f[|f| - 1 := f[|f| - 1] + [c]]
    ensures DigitFields(f) && IsParamChar(c) ==> DigitFields(AddChar(f, c))
  {
  }

  /** A field that holds something still does after one more character. */
  lemma AddCharKeepsField(f: seq<string>, c: char, q: nat)
    requires |f| >= 1 && q < |f| && f[q] != []
    ensures q < |AddChar(f, c)| && AddChar(f, c)[q] != []
  {
  }

  /** A digit added to field `p` keeps every field a run of digits. */
  lemma DigitFieldsExtend(f: seq<string>, p: nat, c: char)
    requires DigitFields(f) && p < |f| && IsDigit(c)
    ensures DigitFields(f[p := f[p] + [c]])
  {
  }

  /** Python's `";".join(f)`. */
  function Join(f: seq<string>): string
    requires |f| >= 1
  {
    if |f| == 1 then f[0] else Join(f[..|f| - 1]) + ";" + f[|f| - 1]
  }

  /** The `q`-th field, or "" when the list is shorter. */
  function Field(f: seq<string>, q: nat): string
  {
    if q < |f| then f[q] else []
  }

  lemma JoinExtendLast(f: seq<string>, t: string)
    requires |f| >= 1
    ensures Join(f[..|f| - 1] + [f[|f| - 1] + t]) == Join(f) + t
  {
    var g := f[..|f| - 1] + [f[|f| - 1] + t];
    if |f| > 1 {
      assert g[..|g| - 1] == f[..|f| - 1];
    }
  }

  /** One more character: a ';' opens a field, anything else extends the last. */
  lemma SplitSnoc(s: string, c: char)
    ensures Split(s + [c]) == AddChar(Split(s), c)
  {
    assert (s + [c])[..|s + [c]| - 1] == s;
  }

  /** Reading one more character of `data` into the fields of `data[i..j]`. */
  lemma SplitSliceSnoc(data: string, i: nat, j: nat)
    requires i <= j < |data|
    ensures Split(data[i..j + 1]) == AddChar(Split(data[i..j]), data[j])
  {
    assert data[i..j + 1] == data[i..j] + [data[j]];
    SplitSnoc(data[i..j], data[j]);
  }

  /** A run of digits is a single field's worth of text. */
  lemma DigitsHaveNoSemicolon(s: string)
    requires AllDigits(s)
    ensures ';' !in s
  {
  }

  /** Joining the fields of a run gives the run back. */
  lemma {:induction false} JoinSplit(s: string)
    ensures Join(Split(s)) == s
    decreases |s|
  {
    if s != [] {
      var s' := s[..|s| - 1];
      var c := s[|s| - 1];
      var f := Split(s');
      JoinSplit(s');
      assert s == s' + [c];
      if c == ';' {
        assert (f + [[]])[..|f|] == f;
      } else {
        JoinExtendLast(f, [c]);
      }
    }
  }

  /** Appending ";" and a field free of ';' appends exactly that field. */
  lemma {:induction false} SplitAppendField(a: string, b: string)
    requires ';' !in b
    ensures Split(a + ";" + b) == Split(a) + [b]
    decreases |b|
  {
    if b == [] {
      assert a + ";" + b == a + [';'];
      SplitSnoc(a, ';');
    } else {
      var b', c := b[..|b| - 1], b[|b| - 1];
      SplitAppendField(a, b');
      assert c != ';' && b' + [c] == b;
      assert a + ";" + b == (a + ";" + b') + [c];
      SplitSnoc(a + ";" + b', c);
      var f := Split(a) + [b'];
      assert f[..|f| - 1] == Split(a);
    }
  }

  /** Splitting a join of ';'-free fields gives the fields back. */
  lemma {:induction false} SplitJoin(f: seq<string>)
    requires |f| >= 1
    requires forall q :: 0 <= q < |f| ==> ';' !in f[q]
    ensures Split(Join(f)) == f
    decreases |f|
  {
    if |f| == 1 {
      SplitNoSemicolon(f[0]);
    } else {
      var g := f[..|f| - 1];
      SplitJoin(g);
      SplitAppendField(Join(g), f[|f| - 1]);
      assert g + [f[|f| - 1]] == f;
    }
  }

  /** A text without ';' is a single field. */
  lemma {:induction false} SplitNoSemicolon(s: string)
    requires ';' !in s
    ensures Split(s) == [s]
    decreases |s|
  {
    if s != [] {
      SplitNoSemicolon(s[..|s| - 1]);
      assert s[..|s| - 1] + [s[|s| - 1]] == s;
    }
  }
}
