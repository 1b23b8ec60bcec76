/** The two parameter rewrites of the transcoder: the DCS introducer
    `ESC P P1;P2;P3 q`, whose P2 is forced to "1" when it is empty, and the
    raster attributes `"Pan;Pad;Pw;Ph`, whose width and height become the
    crop window's, filling in a missing window width or height from them. */
module Header {
  import opened Scan
  import opened Fields
  import opened Numbers
  import opened Runs

  // ---------------------------------------------------------------------
  // DCS parameters (lines 70-97)

  /** What the parameter loop after `ESC P` leaves behind: the three
      parameters, the character that stopped it and the cursor after it. */
  datatype DcsScan = DcsScan(params: seq<string>, term: char, next: nat)

  /** The loop of lines 71-80 from the character at `j` on, with `params`
      and the field index `p` as the loop left them: a ';' moves to the next
      field, a digit while `p` is 3 indexes past `params` (the IndexError of
      line 78), and running off the input is a truncation. */
  function DcsFrom(data: string, j: nat, params: seq<string>, p: nat): (r: Result<DcsScan>)
    requires j <= |data| && |params| == 3 && DigitFields(params)
    ensures r.Ok? ==> |r.value.params| == 3 && j < r.value.next <= |data|
    ensures r.Ok? ==> DigitFields(r.value.params)
    ensures r.Ok? ==> ParamsEndAt(data, r.value.next - 1) && r.value.term == data[r.value.next - 1]
    decreases |data| - j
  {
    if j == |data| then Err(Truncated)
    else if !IsParamChar(data[j]) then Ok(DcsScan(params, data[j], j + 1))
    else if data[j] == ';' then DcsFrom(data, j + 1, params, p + 1)
    else if p >= 3 then Err(ExtraParameter)
    else
      DigitFieldsExtend(params, p, data[j]);
      DcsFrom(data, j + 1, params[p := params[p] + [data[j]]], p)
  }

  /** The parameter loop after `ESC P`, started at `i` with three empty
      parameters (lines 69-80). */
  function DcsParams(data: string, i: nat): (r: Result<DcsScan>)
    requires i <= |data|
    ensures r.Ok? ==> |r.value.params| == 3 && i < r.value.next <= |data|
    ensures r.Ok? ==> DigitFields(r.value.params)
    ensures r.Ok? ==> ParamsEndAt(data, r.value.next - 1) && r.value.term == data[r.value.next - 1]
  {
    DcsFrom(data, i, [[], [], []], 0)
  }

  /** No field from the fourth on holds anything. */
  predicate NoExtraFields(f: seq<string>)
  {
    forall q :: 3 <= q < |f| ==> f[q] == []
  }

  /** The loop state after reading the fields `f`: `p` indexes the open
      field and `params` holds the first three. */
  predicate DcsAccumulated(params: seq<string>, p: nat, f: seq<string>)
  {
    |f| >= 1 && p == |f| - 1 && NoExtraFields(f) &&
    params == [Field(f, 0), Field(f, 1), Field(f, 2)]
  }

  /** One character read keeps `params` and `p` in step with the fields
      read so far. */
  lemma DcsStep(f: seq<string>, c: char, params: seq<string>, p: nat)
    requires DcsAccumulated(params, p, f)
    requires c == ';' || p < 3
    ensures c == ';' ==> DcsAccumulated(params, p + 1, AddChar(f, c))
    ensures c != ';' ==> DcsAccumulated(params[p := params[p] + [c]], p, AddChar(f, c))
  {
    var g := AddChar(f, c);
    if c == ';' {
      assert Field(g, 0) == Field(f, 0) && Field(g, 1) == Field(f, 1) && Field(g, 2) == Field(f, 2);
    } else {
      assert g == f[..p] + [f[p] + [c]];
      assert Field(g, p) == params[p] + [c];
    }
  }

  /** The DCS scan stated on the whole run of digits and ';' that starts at
      `i`, cut at its ';': a digit in a fourth or later field is an error
      (line 78 indexes past `params`), then a run that reaches the end of
      the input is a truncation, and otherwise the parameters are the run's
      first three fields. */
  function DcsSpan(data: string, i: nat): Result<DcsScan>
    requires i <= |data|
  {
    var k := SpanEnd(data, i, IsParamChar);
    var f := Split(data[i..k]);
    if !NoExtraFields(f) then Err(ExtraParameter)
    else if k == |data| then Err(Truncated)
    else Ok(DcsScan([Field(f, 0), Field(f, 1), Field(f, 2)], data[k], k + 1))
  }

  /** A field that holds something keeps holding it as the run is read on. */
  lemma {:induction false} FieldPersists(data: string, i: nat, j: nat, m: nat, q: nat)
    requires i <= j <= m <= |data|
    requires q < |Split(data[i..j])| && Split(data[i..j])[q] != []
    ensures q < |Split(data[i..m])| && Split(data[i..m])[q] != []
    decreases m - j
  {
    if j < m {
      SplitSliceSnoc(data, i, j);
      AddCharKeepsField(Split(data[i..j]), data[j], q);
      FieldPersists(data, i, j + 1, m, q);
    }
  }

  lemma {:induction false} DcsFromSpan(data: string, i: nat, j: nat, params: seq<string>, p: nat)
    requires i <= |data| && i <= j <= SpanEnd(data, i, IsParamChar)
    requires |params| == 3 && DigitFields(params)
    requires DcsAccumulated(params, p, Split(data[i..j]))
    ensures DcsFrom(data, j, params, p) == DcsSpan(data, i)
    decreases |data| - j, 1
  {
    if j < SpanEnd(data, i, IsParamChar) {
      DcsSpanStep(data, i, j, params, p);
    } else if j == |data| {
      assert DcsFrom(data, j, params, p) == Err(Truncated);
    } else {
      assert DcsFrom(data, j, params, p) == Ok(DcsScan(params, data[j], j + 1));
    }
  }

  /** The inductive step of `DcsFromSpan`: one more digit or ';'. */
  lemma {:induction false} DcsSpanStep(data: string, i: nat, j: nat, params: seq<string>, p: nat)
    requires i <= |data| && i <= j < SpanEnd(data, i, IsParamChar)
    requires |params| == 3 && DigitFields(params)
    requires DcsAccumulated(params, p, Split(data[i..j]))
    ensures DcsFrom(data, j, params, p) == DcsSpan(data, i)
    decreases |data| - j, 0
  {
    var c := data[j];
    SplitSliceSnoc(data, i, j);
    if c != ';' && p >= 3 {
      DcsExtraField(data, i, j, p);
      assert DcsFrom(data, j, params, p) == Err(ExtraParameter);
    } else {
      DcsStep(Split(data[i..j]), c, params, p);
      if c == ';' {
        DcsFromSpan(data, i, j + 1, params, p + 1);
        assert DcsFrom(data, j, params, p) == DcsFrom(data, j + 1, params, p + 1);
      } else {
        DigitFieldsExtend(params, p, c);
        DcsFromSpan(data, i, j + 1, params[p := params[p] + [c]], p);
        assert DcsFrom(data, j, params, p) == DcsFrom(data, j + 1, params[p := params[p] + [c]], p);
      }
    }
  }

  /** A digit read into the fourth or a later field makes the whole run
      an `ExtraParameter` error. */
  lemma DcsExtraField(data: string, i: nat, j: nat, p: nat)
    requires i <= |data| && i <= j < SpanEnd(data, i, IsParamChar) && data[j] != ';'
    requires 3 <= p == |Split(data[i..j])| - 1
    ensures DcsSpan(data, i) == Err(ExtraParameter)
  {
    var k := SpanEnd(data, i, IsParamChar);
    SplitSliceSnoc(data, i, j);
    AddCharInPlace(Split(data[i..j]), data[j]);
    FieldPersists(data, i, j + 1, k, p);
    assert Split(data[i..k])[p] != [];
  }

  /** The character-by-character scan after `ESC P` agrees with its
      statement on the whole run: it fails with `ExtraParameter` exactly
      when a fourth or later field holds a digit, with `Truncated` when the
      run otherwise reaches the end of the input, and succeeds with the
      run's first three fields in every other case. */
  lemma DcsParamsSpan(data: string, i: nat)
    requires i <= |data|
    ensures DcsParams(data, i) == DcsSpan(data, i)
  {
    assert data[i..i] == [];
    DcsFromSpan(data, i, i, [[], [], []], 0);
  }

  /** The loop of lines 69-80: it reads the run of digits and ';' after
      `ESC P`, filling `params[p]` in place. */
  method ScanDcsParams(data: string, i: nat) returns (r: Result<DcsScan>)
    requires i <= |data|
    ensures r == DcsParams(data, i)
  {
    var params: seq<string> := [[], [], []];
    var p: nat := 0;
    var j := i;
    while j < |data| && IsParamChar(data[j])
      invariant i <= j <= |data| && |params| == 3 && DigitFields(params)
      invariant DcsFrom(data, j, params, p) == DcsParams(data, i)
      decreases |data| - j
    {
      if data[j] == ';' {
        p := p + 1;
      } else {
        if p >= 3 {
          return Err(ExtraParameter);
        }
        params := params[p := params[p] + [data[j]]];
      }
      j := j + 1;
    }
    if j == |data| {
      return Err(Truncated);
    }
    r := Ok(DcsScan(params, data[j], j + 1));
  }

  /** The parameter text yielded at line 93 after line 88's default: read
      back, it is exactly three fields, P1 and P3 as they were and P2 forced
      to "1" when it was empty. */
  function DcsHeaderText(params: seq<string>): (s: string)
    requires |params| == 3
    requires DigitFields(params)
    ensures |Split(s)| == 3
    ensures Split(s)[0] == params[0] && Split(s)[2] == params[2]
    ensures Split(s)[1] == if params[1] == [] then "1" else params[1]
  {
    var p := params[1 := if params[1] == [] then "1" else params[1]];
    DigitsHaveNoSemicolon(params[0]);
    DigitsHaveNoSemicolon(params[1]);
    DigitsHaveNoSemicolon(params[2]);
    SplitJoin(p);
    Join(p)
  }

  // ---------------------------------------------------------------------
  // Raster attributes (lines 106-135)

  /** What the parameter loop after `"` leaves behind. */
  datatype RasterScan = RasterScan(params: seq<string>, term: char, next: nat)

  /** The loop of lines 111-118 from the character at `j` on: a ';'
      appends an empty field, any other digit extends the last one, and
      running off the input is a truncation. */
  function RasterFrom(data: string, j: nat, params: seq<string>): (r: Result<RasterScan>)
    requires j <= |data| && |params| >= 1 && DigitFields(params)
    ensures r.Ok? ==> |r.value.params| >= 1 && j < r.value.next <= |data|
    ensures r.Ok? ==> DigitFields(r.value.params)
    ensures r.Ok? ==> ParamsEndAt(data, r.value.next - 1) && r.value.term == data[r.value.next - 1]
    decreases |data| - j
  {
    if j == |data| then Err(Truncated)
    else if !IsParamChar(data[j]) then Ok(RasterScan(params, data[j], j + 1))
    else
      AddCharInPlace(params, data[j]);
      RasterFrom(data, j + 1, AddChar(params, data[j]))
  }

  /** The parameter loop after `"`, started at `i` with one empty field
      (lines 108-118). */
  function RasterParams(data: string, i: nat): (r: Result<RasterScan>)
    requires i <= |data|
    ensures r.Ok? ==> |r.value.params| >= 1 && i < r.value.next <= |data|
    ensures r.Ok? ==> DigitFields(r.value.params)
    ensures r.Ok? ==> ParamsEndAt(data, r.value.next - 1) && r.value.term == data[r.value.next - 1]
  {
    RasterFrom(data, i, [[]])
  }

  /** The raster scan stated on the whole run of digits and ';' that starts
      at `i`: its fields, or a truncation when the run reaches the end of
      the input. */
  function RasterSpan(data: string, i: nat): Result<RasterScan>
    requires i <= |data|
  {
    var k := SpanEnd(data, i, IsParamChar);
    if k == |data| then Err(Truncated) else Ok(RasterScan(Split(data[i..k]), data[k], k + 1))
  }

  lemma {:induction false} RasterFromSpan(data: string, i: nat, j: nat, params: seq<string>)
    requires i <= |data| && i <= j <= SpanEnd(data, i, IsParamChar)
    requires params == Split(data[i..j]) && DigitFields(params)
    ensures RasterFrom(data, j, params) == RasterSpan(data, i)
    decreases |data| - j, 1
  {
    if j < SpanEnd(data, i, IsParamChar) {
      RasterSpanStep(data, i, j, params);
    } else if j == |data| {
      assert RasterFrom(data, j, params) == Err(Truncated);
    } else {
      assert !IsParamChar(data[j]);
      assert RasterFrom(data, j, params) == Ok(RasterScan(params, data[j], j + 1));
    }
  }

  /** The inductive step of `RasterFromSpan`: one more digit or ';'. */
  lemma {:induction false} RasterSpanStep(data: string, i: nat, j: nat, params: seq<string>)
    requires i <= |data| && i <= j < SpanEnd(data, i, IsParamChar)
    requires params == Split(data[i..j]) && DigitFields(params)
    ensures RasterFrom(data, j, params) == RasterSpan(data, i)
    decreases |data| - j, 0
  {
    var c := data[j];
    AddCharInPlace(params, c);
    SplitSliceSnoc(data, i, j);
    RasterFromSpan(data, i, j + 1, AddChar(params, c));
    assert RasterFrom(data, j, params) == RasterFrom(data, j + 1, AddChar(params, c));
  }

  /** The character-by-character scan reads the whole run of digits and ';'
      after `"` and cuts it at its ';'; joined back with ';' the fields give
      the run. */
  lemma RasterParamsSpan(data: string, i: nat)
    requires i <= |data|
    ensures RasterParams(data, i) == RasterSpan(data, i)
    ensures RasterParams(data, i).Ok? ==>
              var d := RasterParams(data, i).value;
              Join(d.params) == data[i..d.next - 1]
  {
    assert RasterParams(data, i) == RasterSpan(data, i) by {
      assert data[i..i] == [];
      RasterFromSpan(data, i, i, [[]]);
    }
    var k := SpanEnd(data, i, IsParamChar);
    if k < |data| {
      JoinSplit(data[i..k]);
    }
  }

  /** The loop of lines 108-118: it reads the run of digits and ';' after
      `"`, appending a field at each ';' and extending the last field
      otherwise. */
  method ScanRasterParams(data: string, i: nat) returns (r: Result<RasterScan>)
    requires i <= |data|
    ensures r == RasterParams(data, i)
  {
    var params: seq<string> := [[]];
    var j := i;
    while j < |data| && IsParamChar(data[j])
      invariant i <= j <= |data| && |params| >= 1 && DigitFields(params)
      invariant RasterFrom(data, j, params) == RasterParams(data, i)
      decreases |data| - j
    {
      AddCharInPlace(params, data[j]);
      if data[j] == ';' {
        params := params + [[]];
      } else {
        params := params[|params| - 1 := params[|params| - 1] + [data[j]]];
      }
      j := j + 1;
    }
    if j == |data| {
      return Err(Truncated);
    }
    r := Ok(RasterScan(params, data[j], j + 1));
  }

  /** The rewritten raster parameters and the crop window's width and height
      after lines 119-133. */
  datatype Raster = Raster(params: seq<string>, w: Option<int>, h: Option<int>)


  /** `params` padded with empty fields to at least four (lines 127-128). */
  function PadTo4(params: seq<string>): (p: seq<string>)
    ensures |p| == Max(4, |params|)
    ensures forall q :: 0 <= q < |p| ==> p[q] == Field(params, q)
  {
    params + seq(Max(0, 4 - |params|), _ => [])
  }

  /** Lines 130-133: the padded fields with Ph replaced by the height from
      the top of the window's first band, `y - y % 6`, down to `y + h`, and
      Pw replaced by the window width, where those are known. */
  function RewriteFields(params: seq<string>, y: int, w: Option<int>, h: Option<int>)
    : (p: seq<string>)
    ensures |p| == Max(4, |params|)
    ensures forall q :: 0 <= q < |p| && q != 2 && q != 3 ==> p[q] == Field(params, q)
    ensures p[2] == if w.Some? then IntToString(w.value) else Field(params, 2)
    ensures p[3] == if h.Some? then IntToString(h.value + y % 6) else Field(params, 3)
  {
    var p := PadTo4(params);
    var p := if h.Some? then p[3 := IntToString(y + h.value - (y - y % 6))] else p;
    if w.Some? then p[2 := IntToString(w.value)] else p
  }

  /** Lines 119-126 for one window dimension: one not given is taken from
      field `q` of the raster attributes, less the window's offset, once
      that field exists; an empty field is `int("")`, an error. */
  function Dimension(params: seq<string>, q: nat, offset: int, given: Option<int>): (r: Result<Option<int>>)
    requires DigitFields(params)
    ensures r.Err? <==> given.None? && q < |params| && params[q] == []
    ensures r.Err? ==> r.fault == EmptyDimension
    ensures r.Ok? && given.Some? ==> r.value == given
    ensures r.Ok? && given.None? && q < |params| ==> r.value == Some(Decimal(params[q]) - offset)
    ensures r.Ok? && given.None? && q >= |params| ==> r.value == None
  {
    if given.Some? || q >= |params| then Ok(given)
    else if params[q] == [] then Err(EmptyDimension)
    else Ok(Some(Decimal(params[q]) - offset))
  }

  /** Lines 119-133: the window width and height are resolved from Pw
      (less x) and Ph (less y) where they were not given, and then the
      fields are rewritten. */
  function ResolveRaster(params: seq<string>, x: int, y: int, w: Option<int>, h: Option<int>)
    : (r: Result<Raster>)
    requires DigitFields(params)
    ensures r.Err? <==> Dimension(params, 2, x, w).Err? || Dimension(params, 3, y, h).Err?
    ensures r.Err? ==> r.fault == EmptyDimension
    ensures r.Ok? ==> r.value.w == Dimension(params, 2, x, w).value &&
                      r.value.h == Dimension(params, 3, y, h).value
    ensures r.Ok? ==> r.value.params == RewriteFields(params, y, r.value.w, r.value.h)
  {
    match Dimension(params, 2, x, w)
    case Err(f) => Err(f)
    case Ok(w') =>
      match Dimension(params, 3, y, h)
      case Err(f) => Err(f)
      case Ok(h') => Ok(Raster(RewriteFields(params, y, w', h'), w', h'))
  }

  /** Lines 126-127: empty fields appended until there are four. */
  method PadParams(params: seq<string>) returns (ps: seq<string>)
    ensures ps == PadTo4(params)
  {
    ps := params;
    while |ps| < 4
      invariant |params| <= |ps| <= Max(4, |params|)
      invariant forall q :: 0 <= q < |ps| ==> ps[q] == Field(params, q)
      decreases 4 - |ps|
    {
      ps := ps + [[]];
    }
  }

  /** Lines 119-133 as the source runs them: assignments to the captured
      `w` and `h` and in-place edits of `params`. */
  method RewriteRaster(params: seq<string>, x: int, y: int, w: Option<int>, h: Option<int>)
    returns (r: Result<Raster>)
    requires DigitFields(params)
    ensures r == ResolveRaster(params, x, y, w, h)
  {
    var w', h' := w, h;
    if |params| >= 3 {
      if w'.None? {
        if params[2] == [] {
          return Err(EmptyDimension);
        }
        w' := Some(Decimal(params[2]) - x);
      }
    }
    assert Dimension(params, 2, x, w) == Ok(w');
    if |params| >= 4 && h'.None? {
      if params[3] == [] {
        return Err(EmptyDimension);
      }
      h' := Some(Decimal(params[3]) - y);
    }
    assert Dimension(params, 3, y, h) == Ok(h');
    var ps := PadParams(params);
    if h'.Some? {
      ps := ps[3 := IntToString(y + h'.value - (y - y % 6))];
    }
    if w'.Some? {
      ps := ps[2 := IntToString(w'.value)];
    }
    assert ps == RewriteFields(params, y, w', h');
    r := Ok(Raster(ps, w', h'));
  }

  /** The raster text yielded at line 135 reads back as the rewritten
      fields: in particular the window width is its third field and the
      band-aligned height its fourth. */
  lemma RasterTextFields(params: seq<string>, x: int, y: int, w: Option<int>, h: Option<int>)
    requires DigitFields(params)
    requires ResolveRaster(params, x, y, w, h).Ok?
    ensures var out := ResolveRaster(params, x, y, w, h).value;
            Split(Join(out.params)) == out.params &&
            |Split(Join(out.params))| == Max(4, |params|) &&
            (out.w.Some? && out.w.value >= 0 ==> Decimal(Split(Join(out.params))[2]) == out.w.value)
  {
    var out := ResolveRaster(params, x, y, w, h).value;
    assert |out.params| == Max(4, |params|);
    assert forall q :: 0 <= q < |out.params| ==> ';' !in out.params[q] by {
      forall q | 0 <= q < |out.params| ensures ';' !in out.params[q] {
        if q != 2 && q != 3 {
          assert out.params[q] == Field(params, q);
          DigitsHaveNoSemicolon(Field(params, q));
        } else if q == 2 && out.w.None? {
          DigitsHaveNoSemicolon(Field(params, 2));
        } else if q == 3 && out.h.None? {
          DigitsHaveNoSemicolon(Field(params, 3));
        }
      }
    }
    SplitJoin(out.params);
    if out.w.Some? && out.w.value >= 0 {
      IntToStringReadsBack(out.w.value);
    }
  }
}
