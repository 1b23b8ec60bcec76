/** A whole transcode worked through step by step (a width crop of a
    one-band image), and the bands of an image whose window starts at a
    band boundary, where the colour selection made above the window is not
    carried into it. */
module Examples {
  import opened Scan
  import opened Fields
  import opened Numbers
  import opened Header
  import opened Mask
  import opened Runs
  import opened Colors
  import opened Crop
  import opened Band
  import opened Transcoder

  /** A 6 x 6 image in colour 0 (defined as black), one band of six full
      sixels. */
  function Image(): string
  {
    [ESC, 'P', 'q'] + "\"1;1;6;6" + "#0;2;0;0;0" + "#0" + "~~~~~~-" + StringTerminator
  }

  /** The image cropped to its three leftmost columns. */
  function Cropped(): string
  {
    "\U{1B}P;1;q\"1;1;3;6#0;2;0;0;0#0~~~-\U{1B}\\"
  }

  /** The image character by character: the introducer and the raster
      attributes, the palette definition and the selection, and the band
      and the string terminator. */
  predicate ImageText(data: string)
  {
    |data| == 32 && ImageHead(data) && ImageColorText(data) && ImageBandText(data)
  }

  predicate ImageHead(data: string)
    requires |data| == 32
  {
    data[0] == ESC && data[1] == 'P' && data[2] == 'q' && data[3] == '"' && data[4] == '1' && data[5] == ';' &&
    data[6] == '1' && data[7] == ';' && data[8] == '6' && data[9] == ';' && data[10] == '6'
  }

  predicate ImageColorText(data: string)
    requires |data| == 32
  {
    data[11] == '#' && data[12] == '0' && data[13] == ';' && data[14] == '2' && data[15] == ';' && data[16] == '0' &&
    data[17] == ';' && data[18] == '0' && data[19] == ';' && data[20] == '0' && data[21] == '#' && data[22] == '0'
  }

  predicate ImageBandText(data: string)
    requires |data| == 32
  {
    data[23] == '~' && data[24] == '~' && data[25] == '~' && data[26] == '~' && data[27] == '~' && data[28] == '~' &&
    data[29] == '-' && data[30] == ESC && data[31] == '\\'
  }

  lemma ImageHeadLayout(data: string)
    requires data == Image()
    ensures |data| == 32 && ImageHead(data)
  {
  }

  lemma ImageColorLayout(data: string)
    requires data == Image()
    ensures |data| == 32 && ImageColorText(data)
  {
  }

  lemma ImageBandLayout(data: string)
    requires data == Image()
    ensures |data| == 32 && ImageBandText(data)
  {
  }

  /** The image satisfies its character-by-character description. */
  lemma ImageLayout(data: string)
    requires data == Image()
    ensures ImageText(data)
  {
    ImageHeadLayout(data);
    ImageColorLayout(data);
    ImageBandLayout(data);
  }

  /** The introducer `ESC P q`: no parameters, so P2 becomes "1". */
  lemma ImageHeader(data: string)
    requires ImageText(data)
    ensures MainStep(data, Start(Some(3), Some(6)), 0, 0) ==
              Ok(Continue(State(3, 0, [], Some(3), Some(6), [ESC, 'P', ';', '1', ';', 'q'])))
  {
    assert DcsParams(data, 2) == Ok(DcsScan(["", "", ""], 'q', 3));
    var p := ["", "1", ""];
    assert p[..2] == ["", "1"] && p[..2][..1] == [""];
    assert Join(p) == ";1;";
    assert ["", "", ""][1 := "1"] == p;
    assert DcsHeaderText(["", "", ""]) == ";1;";
    assert data[0] == ESC && data[1] == 'P';
    var s := Start(Some(3), Some(6));
    assert s.out + [ESC, 'P'] + ";1;" + "q" == [ESC, 'P', ';', '1', ';', 'q'];
    assert EscapeStep(data, s) == Ok(Continue(s.(i := 3, out := [ESC, 'P', ';', '1', ';', 'q'])));
  }

  /** `";".join` of four one-character fields. */
  lemma JoinFour(f: seq<string>, a: char, b: char, c: char, d: char)
    requires f == [[a], [b], [c], [d]]
    ensures Join(f) == [a, ';', b, ';', c, ';', d]
  {
    var f1, f2, f3 := f[..1], f[..2], f[..3];
    assert Join(f1) == [a];
    assert f2[..1] == f1;
    assert Join(f2) == Join(f1) + ";" + [b] == [a, ';', b];
    assert f3[..2] == f2;
    assert Join(f3) == Join(f2) + ";" + [c] == [a, ';', b, ';', c];
    assert f[..3] == f3;
    assert Join(f) == Join(f3) + ";" + [d];
  }

  /** The raster attributes `"1;1;6;6` hold four fields. */
  lemma ImageRasterFields(data: string)
    requires ImageText(data)
    ensures RasterParams(data, 4) == Ok(RasterScan(["1", "1", "6", "6"], '#', 12))
  {
    var fields := ["1", "1", "6", "6"];
    var run := data[4..11];
    assert run == Join(fields) by {
      JoinFour(fields, '1', '1', '6', '6');
      assert run == "1;1;6;6";
    }
    assert Split(run) == fields by {
      SplitJoin(fields);
    }
    assert SpanEnd(data, 4, IsParamChar) == 11 by {
      SpanEndAt(data, 4, 11, IsParamChar);
    }
    RasterParamsSpan(data, 4);
  }

  /** A window of width 3 and height 6 at the origin replaces the size. */
  lemma ImageRasterResolved()
    ensures ResolveRaster(["1", "1", "6", "6"], 0, 0, Some(3), Some(6)) ==
              Ok(Raster(["1", "1", "3", "6"], Some(3), Some(6)))
  {
    var params := ["1", "1", "6", "6"];
    assert IntToString(3) == "3" && IntToString(6 + 0 % 6) == "6";
    var p := RewriteFields(params, 0, Some(3), Some(6));
    assert |p| == 4 && p[0] == "1" && p[1] == "1" && p[2] == "3" && p[3] == "6";
    assert p == ["1", "1", "3", "6"];
  }

  /** Raster attributes `"1;1;6;6` at index 3 take the window's width 3. */
  lemma ImageRaster(data: string, header: string)
    requires 3 < |data| && data[3] == '"'
    requires RasterParams(data, 4) == Ok(RasterScan(["1", "1", "6", "6"], '#', 12))
    ensures RasterStep(data, State(3, 0, [], Some(3), Some(6), header), 0, 0) ==
              Ok(Resume(State(3, 0, [], Some(3), Some(6), header + "\"1;1;3;6"), 11))
  {
    var s := State(3, 0, [], Some(3), Some(6), header);
    var fields := ["1", "1", "3", "6"];
    ImageRasterResolved();
    var raster := RasterScan(["1", "1", "6", "6"], '#', 12);
    assert RasterStep(data, s, 0, 0) == RasterWrite(s, raster, 0, 0);
    RasterWriteOk(s, 0, 0, raster, Raster(fields, Some(3), Some(6)), s.(out := header + "\"" + Join(fields)));
    JoinFour(fields, '1', '1', '3', '6');
    assert header + "\"" + Join(fields) == header + "\"1;1;3;6";
  }

  /** The palette definition of colour 0 is the first command. */
  lemma ImagePalette(data: string)
    requires ImageText(data)
    ensures ColorsFrom(data, 11, []) == ColorsFrom(data, 21, "#0;2;0;0;0")
  {
    ColorsStep(data, 11, [], 21);
    assert data[11..21] == "#0;2;0;0;0";
    assert data[11..21][2] == ';';
    assert [] + data[11..21] == data[11..21];
  }

  /** The selection of colour 0 is the second, and the band follows. */
  lemma ImageSelection(data: string, palette: string)
    requires ImageText(data)
    ensures ColorsFrom(data, 21, palette) == Ok(ColorScan(palette, "#0", 23))
  {
    ColorsStep(data, 21, palette, 23);
    assert data[21..23] == "#0";
  }

  /** The palette definition of colour 0 is written, and colour 0 is the
      selection carried into the band. */
  lemma ImageColors(data: string, s: State)
    requires ImageText(data)
    ensures ColorStep(data, s, 11) == Ok(Resume(s.(colorPrev := "#0", out := s.out + "#0;2;0;0;0"), 23))
  {
    assert data[11] == '#';
    ImagePalette(data);
    ImageSelection(data, "#0;2;0;0;0");
    assert ColorsFrom(data, 11, []) == Ok(ColorScan("#0;2;0;0;0", "#0", 23));
  }

  /** The raster attributes take the window's width, then the palette
      definition is written and colour 0 selected. */
  lemma ImageOpen(data: string, header: string)
    requires ImageText(data)
    ensures OpenBand(data, State(3, 0, [], Some(3), Some(6), header), 0, 0) ==
              Ok(Resume(State(3, 0, "#0", Some(3), Some(6), header + "\"1;1;3;6" + "#0;2;0;0;0"), 23))
  {
    assert data[3] == '"';
    var s := State(3, 0, [], Some(3), Some(6), header);
    var s' := State(3, 0, [], Some(3), Some(6), header + "\"1;1;3;6");
    ImageRasterFields(data);
    ImageRaster(data, header);
    assert OpenBand(data, s, 0, 0) == ColorStep(data, s', 11);
    ImageColors(data, s');
  }

  /** The first sixel is inside the window: it is written after the
      carried colour selection. */
  lemma ImageFirstSixel(data: string)
    requires ImageText(data)
    ensures CropToken(data, 23, StartCursor("#0"), Window(0, 0, 3, 6, 0)) ==
              Ok(Next(Cursor("#0~", [], [], 1), 24))
  {
    assert data[23] == '~' && data[24] == '~';
    assert ReadRepeat(data, 23, 0, 0, 3) == Ok(Repeat(1, 1, [], 23));
    assert ApplyMask(CropMask(0, 0, 6), '~') == '~';
    assert Emits(1, 1, 0, 0, 3);
    assert AppendRun([], "#0", [], [], '~') == Emitted("#0~", []);
  }

  /** The second sixel is inside the window. */
  lemma ImageSecondSixel(data: string)
    requires ImageText(data)
    ensures CropToken(data, 24, Cursor("#0~", [], [], 1), Window(0, 0, 3, 6, 0)) ==
              Ok(Next(Cursor("#0~~", [], [], 2), 25))
  {
    assert data[24] == '~' && data[25] == '~';
    assert ReadRepeat(data, 24, 1, 0, 3) == Ok(Repeat(1, 1, [], 24));
    assert ApplyMask(CropMask(0, 0, 6), '~') == '~';
    assert Emits(1, 1, 1, 0, 3);
    assert AppendRun("#0~", [], [], [], '~') == Emitted("#0~~", []);
  }

  /** The third sixel reaches the window's right edge: the rest of the
      band is skipped to its '-'. */
  lemma ImageThirdSixel(data: string)
    requires ImageText(data)
    ensures CropToken(data, 25, Cursor("#0~~", [], [], 2), Window(0, 0, 3, 6, 0)) ==
              Ok(Next(Cursor("#0~~~", [], [], 3), 29))
  {
    assert data[25] == '~' && data[26] == '~';
    assert ReadRepeat(data, 25, 2, 0, 3) == Ok(Repeat(1, 1, [], 25));
    assert ApplyMask(CropMask(0, 0, 6), '~') == '~';
    assert Emits(1, 1, 2, 0, 3);
    assert AppendRun("#0~~", [], [], [], '~') == Emitted("#0~~~", []);
    SpanEndAt(data, 26, 29, NotRowEnd);
  }

  /** The band keeps its first three sixels, preceded by the carried
      colour selection, and skips the other three to its '-'. */
  lemma ImageBand(data: string)
    requires ImageText(data)
    ensures BandBody(data, 23, 0, "#0", 0, 0, Some(3), Some(6)) == Ok(Done("#0~~~-", [], 30))
  {
    var win := Window(0, 0, 3, 6, 0);
    ImageFirstSixel(data);
    ImageSecondSixel(data);
    ImageThirdSixel(data);
    assert data[23] == '~' && data[24] == '~' && data[25] == '~' && data[29] == '-';
    assert "#0~~~" + [data[29]] == "#0~~~-";
    assert CropLoop(data, 29, Cursor("#0~~~", [], [], 3), win) == Ok(Done("#0~~~-", [], 30));
    assert CropLoop(data, 25, Cursor("#0~~", [], [], 2), win) == Ok(Done("#0~~~-", [], 30));
    assert CropLoop(data, 24, Cursor("#0~", [], [], 1), win) == Ok(Done("#0~~~-", [], 30));
    assert CropLoop(data, 23, StartCursor("#0"), win) == Ok(Done("#0~~~-", [], 30));
  }

  /** The one band of the image lies in the window; after it the window's
      bottom edge is reached and the stream is ended. */
  lemma ImageOnlyBand(data: string)
    requires ImageText(data)
    ensures MainStep(data, State(3, 0, [], Some(3), Some(6), [ESC, 'P', ';', '1', ';', 'q']), 0, 0) ==
              Ok(Finish(Cropped()))
  {
    var header := [ESC, 'P', ';', '1', ';', 'q'];
    var s1 := State(3, 0, [], Some(3), Some(6), header);
    var s2 := State(3, 0, "#0", Some(3), Some(6), header + "\"1;1;3;6" + "#0;2;0;0;0");
    assert data[3] != ESC;
    ImageOpen(data, header);
    assert OpenBand(data, s1, 0, 0) == Ok(Resume(s2, 23));
    ImageBand(data);
    assert BandBody(data, 23, s2.pixelRow, s2.colorPrev, 0, 0, s2.w, s2.h) == Ok(Done("#0~~~-", [], 30));
    ImageEnd(s2.(i := 30, colorPrev := []));
  }

  /** The band at pixel row 0 is written, and the next would start at the
      window's bottom edge. */
  lemma ImageEnd(s: State)
    requires s == State(30, 0, [], Some(3), Some(6),
                        [ESC, 'P', ';', '1', ';', 'q'] + "\"1;1;3;6" + "#0;2;0;0;0")
    ensures EndBand(s, "#0~~~-", 0) == Finish(Cropped())
  {
    assert s.out + "#0~~~-" + StringTerminator == Cropped();
  }

  /** Cropping the image to a 3 x 6 window keeps its header with P2 set,
      the palette, and three columns of the band, then ends the stream. */
  lemma CropThreeColumns(data: string)
    requires data == Image()
    ensures Sixelcrop(data, 0, 0, Some(3), Some(6)) == Ok(Cropped())
  {
    ImageLayout(data);
    var s0 := Start(Some(3), Some(6));
    var s1 := State(3, 0, [], Some(3), Some(6), [ESC, 'P', ';', '1', ';', 'q']);
    assert DcsAt(data, 0);
    ImageHeader(data);
    ImageOnlyBand(data);
    assert Run(data, s1, 0, 0) == Ok(Cropped());
    assert Run(data, s0, 0, 0) == Run(data, s1, 0, 0);
  }

  /** The band just above a window whose top is a band boundary (y = 6,
      so the band at pixel row 0 = y - 6) is still cropped: its first run
      writes the carried selection `#1` into the band's text. */
  lemma HiddenBandSixel(data: string)
    requires |data| == 4 && data[0] == '~' && data[1] == '-' && data[2] == '~' && data[3] == '-'
    ensures CropToken(data, 0, StartCursor("#1"), Window(0, 6, 1, 6, 0)) == Ok(Next(Cursor("#1~", [], [], 1), 1))
  {
    assert ReadRepeat(data, 0, 0, 0, 1) == Ok(Repeat(1, 1, [], 0));
    assert ApplyMask(CropMask(0, 6, 6), '~') == '~';
    assert Emits(1, 1, 0, 0, 1);
    assert AppendRun([], "#1", [], [], '~') == Emitted("#1~", []);
    SpanEndAt(data, 1, 1, NotRowEnd);
  }

  /** So the whole band is cropped, and the carried colour is reset to the
      band's own (none). */
  lemma HiddenBandTakesColor(data: string)
    requires |data| == 4 && data[0] == '~' && data[1] == '-' && data[2] == '~' && data[3] == '-'
    ensures BandBody(data, 0, 0, "#1", 0, 6, Some(1), Some(6)) == Ok(Done("#1~-", [], 2))
  {
    HiddenBandLoop(data);
    assert data[0] != '-';
  }

  lemma HiddenBandLoop(data: string)
    requires |data| == 4 && data[0] == '~' && data[1] == '-' && data[2] == '~' && data[3] == '-'
    ensures CropLoop(data, 0, StartCursor("#1"), Window(0, 6, 1, 6, 0)) == Ok(Done("#1~-", [], 2))
  {
    var win := Window(0, 6, 1, 6, 0);
    HiddenBandSixel(data);
    assert "#1~" + [data[1]] == "#1~-";
    assert CropLoop(data, 1, Cursor("#1~", [], [], 1), win) == Ok(Done("#1~-", [], 2));
  }

  /** That band lies outside the rows written out, (y - 6, y + h). */
  lemma HiddenBandNotWritten(out: string)
    ensures EndBand(State(2, 0, [], Some(1), Some(6), out), "#1~-", 6) ==
              Continue(State(2, 6, [], Some(1), Some(6), out))
  {
  }

  /** The window's first band starts with a run written without any
      colour selection. */
  lemma FirstBandSixel(data: string)
    requires |data| == 4 && data[0] == '~' && data[1] == '-' && data[2] == '~' && data[3] == '-'
    ensures CropToken(data, 2, StartCursor([]), Window(0, 6, 1, 6, 6)) == Ok(Next(Cursor("~", [], [], 1), 3))
  {
    assert ReadRepeat(data, 2, 0, 0, 1) == Ok(Repeat(1, 1, [], 2));
    assert ApplyMask(CropMask(6, 6, 6), '~') == '~';
    assert Emits(1, 1, 0, 0, 1);
    assert AppendRun([], [], [], [], '~') == Emitted("~", []);
    SpanEndAt(data, 3, 3, NotRowEnd);
  }

  /** The window's first band is then written without any colour
      selection, so its sixels take whatever colour the terminal has. */
  lemma FirstBandWithoutColor(data: string)
    requires |data| == 4 && data[0] == '~' && data[1] == '-' && data[2] == '~' && data[3] == '-'
    ensures BandBody(data, 2, 6, [], 0, 6, Some(1), Some(6)) == Ok(Done("~-", [], 4))
  {
    FirstBandLoop(data);
    assert data[2] != '-';
  }

  lemma FirstBandLoop(data: string)
    requires |data| == 4 && data[0] == '~' && data[1] == '-' && data[2] == '~' && data[3] == '-'
    ensures CropLoop(data, 2, StartCursor([]), Window(0, 6, 1, 6, 6)) == Ok(Done("~-", [], 4))
  {
    var win := Window(0, 6, 1, 6, 6);
    FirstBandSixel(data);
    assert "~" + [data[3]] == "~-";
    assert CropLoop(data, 3, Cursor("~", [], [], 1), win) == Ok(Done("~-", [], 4));
  }
}
