/** The colour loop that runs at the start of a sixel row band (lines
    141-166): palette definitions (`#Pc;Pu;Px;Py;Pz`, which hold a ';') are
    written out as they are, colour selections (`#Pc`) are remembered as the
    colour to restore at the start of the next band that is written out. */
module Colors {
  import opened Scan

  /** What the colour loop leaves behind: the palette definitions written
      out, the last colour selection, and the index of the character that
      stopped the loop. */
  datatype ColorScan = ColorScan(palette: string, colorPrev: string, next: nat)

  /** `cmd` is the command that ends just before index `next`: its first
      character starts it, the rest are digits and ';', and it holds no ';'. */
  predicate LastCommand(data: string, next: nat, cmd: string)
  {
    1 <= |cmd| <= next <= |data| && data[next - |cmd|..next] == cmd && ';' !in cmd &&
    forall m :: next - |cmd| < m < next ==> IsParamChar(data[m])
  }

  /** Lines 141-166 from the command that starts at `data[j]`, with
      `palette` the palette definitions already written out. Every command
      is the character at the cursor followed by the digits and ';' after
      it; the loop only leaves after a selection that is not followed by
      '#', so the colour it hands back never depends on the one it was given. */
  function ColorsFrom(data: string, j: nat, palette: string): (r: Result<ColorScan>)
    requires j < |data|
    ensures r.Ok? ==> j < r.value.next < |data|
    ensures r.Ok? ==> palette <= r.value.palette
    ensures r.Ok? ==> |r.value.palette| - |palette| + |r.value.colorPrev| <= r.value.next - j
    ensures r.Ok? ==> data[r.value.next] != '#' && !IsParamChar(data[r.value.next])
    ensures r.Ok? ==> LastCommand(data, r.value.next, r.value.colorPrev)
    ensures r.Err? ==> r.fault == Truncated
    decreases |data| - j
  {
    var k := SpanEnd(data, j + 1, IsParamChar);
    if k == |data| then Err(Truncated)
    else
      var cmd := data[j..k];
      if ';' in cmd then ColorsFrom(data, k, palette + cmd)
      else if data[k] != '#' then Ok(ColorScan(palette, cmd, k))
      else ColorsFrom(data, k, palette)
  }

  // ---------------------------------------------------------------------
  // The colour loop read as a whole

  /** `s` cut into colour commands: each command is one character followed
      by the digits and ';' after it. */
  function Commands(s: string): (cs: seq<string>)
    ensures |cs| == 0 <==> s == []
    ensures forall q :: 0 <= q < |cs| ==> cs[q] != []
    ensures s != [] ==> cs[0][0] == s[0]
    decreases |s|
  {
    if s == [] then []
    else
      var k := SpanEnd(s, 1, IsParamChar);
      [s[..k]] + Commands(s[k..])
  }

  /** The commands written one after the other. */
  function Concat(cs: seq<string>): string
  {
    if cs == [] then [] else cs[0] + Concat(cs[1..])
  }

  /** The commands that hold a ';' (the palette definitions), one after the
      other in the order they were read; selections are left out. */
  function Definitions(cs: seq<string>): string
  {
    if cs == [] then [] else (if ';' in cs[0] then cs[0] else []) + Definitions(cs[1..])
  }

  /** Cutting into commands loses nothing: written one after the other, the
      commands give the text back; every command after the first starts with
      a character that is neither a digit nor ';', and all later characters
      of a command are digits or ';'. */
  lemma {:induction false} CommandsConcat(s: string)
    ensures Concat(Commands(s)) == s
    ensures forall q :: 0 < q < |Commands(s)| ==> !IsParamChar(Commands(s)[q][0])
    ensures forall q, m :: 0 <= q < |Commands(s)| && 0 < m < |Commands(s)[q]| ==>
                           IsParamChar(Commands(s)[q][m])
  {
    ConcatCommands(s);
    CommandsStart(s);
    CommandsParams(s);
  }

  lemma {:induction false} ConcatCommands(s: string)
    ensures Concat(Commands(s)) == s
    decreases |s|
  {
    if s != [] {
      var k := SpanEnd(s, 1, IsParamChar);
      var cs := Commands(s);
      assert cs == [s[..k]] + Commands(s[k..]);
      ConcatCommands(s[k..]);
      assert cs[1..] == Commands(s[k..]);
      assert s == s[..k] + s[k..];
    }
  }

  lemma {:induction false} CommandsStart(s: string)
    ensures forall q :: 0 < q < |Commands(s)| ==> !IsParamChar(Commands(s)[q][0])
    decreases |s|
  {
    if s != [] {
      var k := SpanEnd(s, 1, IsParamChar);
      var cs := Commands(s);
      assert cs == [s[..k]] + Commands(s[k..]);
      CommandsStart(s[k..]);
      if k < |s| {
        assert !IsParamChar(s[k]) && s[k..][0] == s[k];
      }
    }
  }

  lemma {:induction false} CommandsParams(s: string)
    ensures forall q, m :: 0 <= q < |Commands(s)| && 0 < m < |Commands(s)[q]| ==>
                           IsParamChar(Commands(s)[q][m])
    decreases |s|
  {
    if s != [] {
      var k := SpanEnd(s, 1, IsParamChar);
      var cs := Commands(s);
      assert cs == [s[..k]] + Commands(s[k..]);
      CommandsParams(s[k..]);
    }
  }

  /** Every command but the last is a definition or is followed by a
      command that starts with '#'. */
  predicate Chained(cs: seq<string>)
    requires forall q :: 0 <= q < |cs| ==> cs[q] != []
  {
    |cs| <= 1 || ((';' in cs[0] || cs[1][0] == '#') && Chained(cs[1..]))
  }

  /** The colour loop entered at `j` leaves at `n`: the loop does not go on
      with `data[n]`, the last command read is a selection, and every
      earlier command is a definition or is followed by a '#'. */
  predicate ColorRun(data: string, j: nat, n: nat)
  {
    j < n < |data| && !IsParamChar(data[n]) && data[n] != '#' &&
    var cs := Commands(data[j..n]);
    ';' !in cs[|cs| - 1] && Chained(cs)
  }

  /** The first command from `j` is `data[j..k]`, and the rest follow. */
  lemma CommandsCons(data: string, j: nat, k: nat, n: nat)
    requires j < n <= |data| && k == SpanEnd(data, j + 1, IsParamChar) && k <= n
    ensures Commands(data[j..n]) == [data[j..k]] + Commands(data[k..n])
  {
    var s := data[j..n];
    assert forall m :: 1 <= m < k - j ==> IsParamChar(s[m]) by {
      forall m | 1 <= m < k - j ensures IsParamChar(s[m]) {
        assert s[m] == data[j + m];
      }
    }
    SpanEndAt(s, 1, k - j, IsParamChar);
    assert Commands(s) == [s[..k - j]] + Commands(s[k - j..]);
    assert s[..k - j] == data[j..k];
    assert s[k - j..] == data[k..n];
  }

  /** A definition, or a command followed by a '#', in front of a
      `ColorRun` makes a longer `ColorRun`. */
  lemma ColorRunCons(data: string, j: nat, k: nat, n: nat)
    requires j < |data| && k == SpanEnd(data, j + 1, IsParamChar)
    requires ColorRun(data, k, n) && (';' in data[j..k] || data[k] == '#')
    ensures ColorRun(data, j, n)
    ensures Commands(data[j..n])[1..] == Commands(data[k..n])
    ensures Commands(data[j..n])[0] == data[j..k]
  {
    CommandsCons(data, j, k, n);
    var cs' := Commands(data[k..n]);
    var cs := Commands(data[j..n]);
    assert cs == [data[j..k]] + cs';
    assert cs'[0][0] == data[k..n][0] == data[k];
    assert cs[1..] == cs';
  }

  lemma Associative(a: string, b: string, c: string)
    ensures a + b + c == a + (b + c)
  {
  }

  /** The palette after the first command of `cs` is read. */
  lemma {:induction false} DefinitionsCons(cs: seq<string>, palette: string)
    requires cs != []
    ensures var palette' := if ';' in cs[0] then palette + cs[0] else palette;
      palette' + Definitions(cs[1..]) == palette + Definitions(cs)
  {
    if ';' in cs[0] {
      assert Definitions(cs) == cs[0] + Definitions(cs[1..]);
      Associative(palette, cs[0], Definitions(cs[1..]));
    } else {
      assert Definitions(cs) == [] + Definitions(cs[1..]);
    }
  }

  /** A successful colour loop read a `ColorRun`: it wrote exactly the
      definitions among its commands, in order, and carries the last
      command, a selection. */
  lemma {:induction false} ColorsFromRun(data: string, j: nat, palette: string)
    requires j < |data| && ColorsFrom(data, j, palette).Ok?
    ensures ReadRun(data, j, palette, ColorsFrom(data, j, palette).value)
    decreases |data| - j
  {
    var k := SpanEnd(data, j + 1, IsParamChar);
    if ';' !in data[j..k] && data[k] != '#' {
      LastSelection(data, j, k, palette);
    } else {
      var palette' := if ';' in data[j..k] then palette + data[j..k] else palette;
      assert ColorsFrom(data, j, palette) == ColorsFrom(data, k, palette');
      ColorsFromRun(data, k, palette');
      EarlierCommand(data, j, k, palette, palette', ColorsFrom(data, k, palette').value);
    }
  }

  /** `c` is what the colour loop leaves behind after reading the
      `ColorRun` from `j` to `c.next`: the definitions among its commands
      added to `palette`, and its last command. */
  predicate ReadRun(data: string, j: nat, palette: string, c: ColorScan)
  {
    ColorRun(data, j, c.next) &&
    var cs := Commands(data[j..c.next]);
    c.palette == palette + Definitions(cs) && c.colorPrev == cs[|cs| - 1]
  }

  /** A selection not followed by '#' ends the loop, and is the whole run. */
  lemma LastSelection(data: string, j: nat, k: nat, palette: string)
    requires j < k < |data| && k == SpanEnd(data, j + 1, IsParamChar)
    requires ';' !in data[j..k] && data[k] != '#'
    ensures ColorsFrom(data, j, palette) == Ok(ColorScan(palette, data[j..k], k))
    ensures ReadRun(data, j, palette, ColorScan(palette, data[j..k], k))
  {
    CommandsCons(data, j, k, k);
    assert data[k..k] == [];
    assert Definitions([data[j..k]]) == [] + Definitions([]);
  }

  /** A definition, or a selection followed by '#', adds itself in front of
      the run read from the next command `data[k]` on. */
  lemma EarlierCommand(data: string, j: nat, k: nat, palette: string, palette': string, c: ColorScan)
    requires j < |data| && k == SpanEnd(data, j + 1, IsParamChar)
    requires ';' in data[j..k] || (k < |data| && data[k] == '#')
    requires palette' == if ';' in data[j..k] then palette + data[j..k] else palette
    requires ReadRun(data, k, palette', c)
    ensures ReadRun(data, j, palette, c)
  {
    ColorRunCons(data, j, k, c.next);
    LastOfTail(Commands(data[j..c.next]), Commands(data[k..c.next]));
    DefinitionsCons(Commands(data[j..c.next]), palette);
  }

  lemma LastOfTail<T>(cs: seq<T>, tail: seq<T>)
    requires cs != [] && tail != [] && cs[1..] == tail
    ensures cs[|cs| - 1] == tail[|tail| - 1]
  {
    assert cs[|cs| - 1] == cs[1..][|cs| - 2];
  }

  /** Conversely, a `ColorRun` from `j` to `n` is what the colour loop
      reads: it leaves at `n`, having written the definitions among the
      commands and carrying the last one. */
  lemma {:induction false} RunColorsFrom(data: string, j: nat, n: nat, palette: string)
    requires ColorRun(data, j, n)
    ensures ColorsFrom(data, j, palette).Ok? && ColorsFrom(data, j, palette).value.next == n
    ensures ReadRun(data, j, palette, ColorsFrom(data, j, palette).value)
    decreases n - j
  {
    var k := SpanEnd(data, j + 1, IsParamChar);
    SpanEndWithin(data, j + 1, n, IsParamChar);
    if k == n {
      SingleCommand(data, j, n);
      LastSelection(data, j, k, palette);
    } else {
      RunTail(data, j, n);
      var palette' := if ';' in data[j..k] then palette + data[j..k] else palette;
      RunColorsFrom(data, k, n, palette');
      assert ColorsFrom(data, j, palette) == ColorsFrom(data, k, palette');
      EarlierCommand(data, j, k, palette, palette', ColorsFrom(data, k, palette').value);
    }
  }

  /** A `ColorRun` made of one command: that command is a selection. */
  lemma SingleCommand(data: string, j: nat, n: nat)
    requires ColorRun(data, j, n) && SpanEnd(data, j + 1, IsParamChar) == n
    ensures ';' !in data[j..n]
  {
    CommandsCons(data, j, n, n);
    assert data[n..n] == [];
    assert Commands(data[j..n]) == [data[j..n]];
  }

  /** A `ColorRun` of more than one command: its first command is a
      definition or is followed by '#', and the rest is a `ColorRun`. */
  lemma RunTail(data: string, j: nat, n: nat)
    requires ColorRun(data, j, n) && SpanEnd(data, j + 1, IsParamChar) < n
    ensures var k := SpanEnd(data, j + 1, IsParamChar);
      ColorRun(data, k, n) && (';' in data[j..k] || data[k] == '#')
  {
    var k := SpanEnd(data, j + 1, IsParamChar);
    CommandsCons(data, j, k, n);
    var cs := Commands(data[j..n]);
    var cs' := Commands(data[k..n]);
    assert cs[1..] == cs' && cs[1] == cs'[0];
    assert cs'[0][0] == data[k..n][0] == data[k];
    assert cs[|cs| - 1] == cs'[|cs'| - 1];
  }

  /** The colour loop entered at `j` succeeds exactly when some `ColorRun`
      starts there, and then it is the one at which the loop leaves. */
  lemma ColorsFromRunIff(data: string, j: nat, palette: string)
    requires j < |data|
    ensures ColorsFrom(data, j, palette).Ok? <==> exists n :: ColorRun(data, j, n)
    ensures forall n: nat :: ColorRun(data, j, n) ==>
              ColorsFrom(data, j, palette).Ok? && ColorsFrom(data, j, palette).value.next == n
    ensures ColorsFrom(data, j, palette).Ok? ==> ReadRun(data, j, palette, ColorsFrom(data, j, palette).value)
  {
    if ColorsFrom(data, j, palette).Ok? {
      ColorsFromRun(data, j, palette);
    }
    forall n: nat | ColorRun(data, j, n)
      ensures ColorsFrom(data, j, palette).Ok? && ColorsFrom(data, j, palette).value.next == n
    {
      RunColorsFrom(data, j, n, palette);
    }
  }

  /** The colour loop of lines 141-166, entered on a '#' at `data[j]`. */
  method CollectColors(data: string, j: nat) returns (r: Result<ColorScan>)
    requires j < |data|
    ensures r == ColorsFrom(data, j, [])
  {
    var palette: string := [];
    var cur := j;
    while true
      invariant cur < |data|
      invariant ColorsFrom(data, cur, palette) == ColorsFrom(data, j, [])
      decreases |data| - cur
    {
      var k := ScanWhile(data, cur + 1, IsParamChar);
      if k == |data| {
        return Err(Truncated);
      }
      var cmd := data[cur..k];
      if ';' in cmd {
        palette := palette + cmd;
      } else if data[k] != '#' {
        return Ok(ColorScan(palette, cmd, k));
      }
      cur := k;
    }
  }

  // ---------------------------------------------------------------------
  // Single commands, for following the loop on a given text

  /** One command of the loop, whose end the caller names. */
  lemma ColorsStep(data: string, j: nat, palette: string, k: nat)
    requires j < k < |data|
    requires forall m :: j < m < k ==> IsParamChar(data[m])
    requires !IsParamChar(data[k])
    ensures ColorsFrom(data, j, palette) ==
              if ';' in data[j..k] then ColorsFrom(data, k, palette + data[j..k])
              else if data[k] != '#' then Ok(ColorScan(palette, data[j..k], k))
              else ColorsFrom(data, k, palette)
  {
    SpanEndAt(data, j + 1, k, IsParamChar);
  }

  /** A command holding a ';' at `q` is a palette definition: it is
      written out and the loop goes on at `k`. */
  lemma DefinitionStep(data: string, j: nat, q: nat, k: nat, palette: string)
    requires j < q < k < |data| && data[q] == ';'
    requires forall m :: j < m < k ==> IsParamChar(data[m])
    requires !IsParamChar(data[k])
    ensures ColorsFrom(data, j, palette) == ColorsFrom(data, k, palette + data[j..k])
  {
    ColorsStep(data, j, palette, k);
    assert data[j..k][q - j] == ';';
  }

  /** A command free of ';' is a selection: the loop goes on at `k` if a
      '#' follows and stops there otherwise. */
  lemma SelectionStep(data: string, j: nat, k: nat, palette: string)
    requires j < k < |data| && data[j] != ';'
    requires forall m :: j < m < k ==> IsDigit(data[m])
    requires !IsParamChar(data[k])
    ensures ColorsFrom(data, j, palette) ==
              if data[k] != '#' then Ok(ColorScan(palette, data[j..k], k))
              else ColorsFrom(data, k, palette)
  {
    ColorsStep(data, j, palette, k);
    assert ';' !in data[j + 1..k];
    assert data[j..k] == [data[j]] + data[j + 1..k];
  }

  /** A palette definition followed by a selection and the first sixel
      keeps the definition and remembers the selection. */
  lemma DefineThenSelect(data: string)
    requires data == "#0;2;0;0;0#0~"
    ensures ColorsFrom(data, 0, []) == Ok(ColorScan("#0;2;0;0;0", "#0", 12))
  {
    DefinitionStep(data, 0, 2, 10, []);
    assert [] + data[0..10] == "#0;2;0;0;0";
    SelectionStep(data, 10, 12, "#0;2;0;0;0");
    assert data[10..12] == "#0";
  }

  /** As written, the loop does not look at the character after a palette
      definition before starting the next command with it: a sixel written
      directly after a definition is swallowed as if it were a command. */
  lemma DefinitionSwallowsNextSixel(data: string)
    requires data == "#1;2;3;4;5~#7-"
    ensures ColorsFrom(data, 0, []) == Ok(ColorScan("#1;2;3;4;5", "#7", 13))
  {
    DefinitionStep(data, 0, 2, 10, []);
    assert [] + data[0..10] == "#1;2;3;4;5";
    SelectionStep(data, 10, 11, "#1;2;3;4;5");
    SelectionStep(data, 11, 13, "#1;2;3;4;5");
    assert data[11..13] == "#7";
  }
}
