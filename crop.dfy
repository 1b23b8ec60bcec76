/** The horizontal crop of one sixel row band (lines 219-344): the band is
    read command by command, colour selections are remembered, repeat counts
    are clipped to the window columns, the band's first and last pixel rows
    outside the window are masked, and runs outside the window are dropped. */
module Crop {
  import opened Scan
  import opened Numbers
  import opened Mask
  import opened Runs

  /** `char not in "-$"`: the skip after the right edge (lines 338-342)
      stops at the end of the band or at a graphics carriage return. */
  predicate NotRowEnd(c: char) { c != '-' && c != '$' }

  /** The window columns [x, x + w), the window rows [y, y + h) and the
      first pixel row of the band being cropped. */
  datatype Window = Window(x: int, y: int, w: int, h: int, pixelRow: int)

  /** The state of the crop loop: the band text kept so far, the colour
      selection in effect in the output, the last selection read in this
      band, and the pixel column of the next sixel. */
  datatype Cursor = Cursor(line: string, colorPrev: string, color: string, pixelCol: int)

  /** How the processing of a band ends: with its text, the colour in
      effect and the cursor after its last character; or with the whole
      transcode returning after writing `tail`. */
  datatype BandEnd = Done(line: string, colorPrev: string, next: nat) | Halt(tail: string)

  /** One command of the crop loop either moves the cursor or returns. */
  datatype Token = Next(cur: Cursor, j: nat) | Stop(tail: string)

  /** Lines 220-221 and 292-302: the mask of a band the x-crop processes.
      A band that holds the window's top edge loses its pixel rows above it;
      otherwise one that holds the bottom edge loses its rows at and below it. */
  function CropMask(pixelRow: int, y: int, h: int): (m: MaskKind)
    ensures ValidMask(m)
    ensures m.Top? <==> pixelRow < y < pixelRow + 6
    ensures m.Bottom? <==> !(pixelRow < y < pixelRow + 6) && pixelRow < y + h < pixelRow + 6
    ensures m.Top? ==> 1 <= m.n <= 5 && pixelRow + m.n == y
    ensures m.Bottom? ==> 1 <= m.n <= 5 && pixelRow + m.n == y + h
  {
    if pixelRow < y < pixelRow + 6 then Top(y - pixelRow)
    else if pixelRow < y + h < pixelRow + 6 then Bottom(y + h - pixelRow)
    else Keep
  }

  /** In pixel terms: pixel row `pixelRow + k` of a sixel survives the crop
      mask unless it lies above the window in the top band, or at or below
      the window's bottom edge in the bottom band. */
  lemma CropMaskRows(pixelRow: int, y: int, h: int, c: char, k: nat)
    requires c as int >= 63 && k < 6
    ensures var r := ApplyMask(CropMask(pixelRow, y, h), c);
      r as int >= 63 &&
      Bit(Rows(r), k) ==
        if pixelRow < y < pixelRow + 6 && pixelRow + k < y then 0
        else if !(pixelRow < y < pixelRow + 6) && pixelRow < y + h < pixelRow + 6 &&
                pixelRow + k >= y + h then 0
        else Bit(Rows(c), k)
  {
  }

  /** Lines 237-242: a colour selection inside the band becomes the colour
      of the runs that follow it. It is the longest run of '#' and digits
      at the cursor. */
  function ReadColor(data: string, j: nat, cur: Cursor): (r: Result<Token>)
    requires j < |data| && data[j] == '#'
    ensures r.Ok? ==> r.value.Next? && j < r.value.j < |data|
    ensures r.Ok? ==> r.value.cur == cur.(color := data[j..r.value.j])
    ensures r.Ok? ==> !IsColorChar(data[r.value.j]) &&
                      forall m :: j <= m < r.value.j ==> IsColorChar(data[m])
    ensures r.Err? ==> r.fault == Truncated && forall m :: j <= m < |data| ==> IsColorChar(data[m])
  {
    var k := SpanEnd(data, j, IsColorChar);
    if k == |data| then Err(Truncated) else Ok(Next(cur.(color := data[j..k]), k))
  }

  /** A run as read at the cursor: its length in the input, its clipped
      length, the repeat introducer to write before it, and the index of
      the sixel (or '$') that follows. */
  datatype Repeat = Repeat(repeats: int, clipped: int, text: string, at: nat)

  /** Lines 247-280: a bare character is a run of one, written without an
      introducer; `!` and the digits after it (none meaning 1) give the
      run's length, which is clipped to the window and written back as
      `!` and the clipped count. */
  function ReadRepeat(data: string, j: nat, pixelCol: int, x: int, w: int): (r: Result<Repeat>)
    requires j < |data|
    ensures data[j] != '!' ==> r == Ok(Repeat(1, 1, [], j))
    ensures r.Ok? ==> j <= r.value.at < |data| && r.value.repeats >= 0
    ensures r.Ok? && data[j] == '!' ==>
              j < r.value.at && !IsDigit(data[r.value.at]) && AllDigits(data[j + 1..r.value.at]) &&
              r.value.repeats == (if r.value.at == j + 1 then 1 else Decimal(data[j + 1..r.value.at])) &&
              r.value.clipped == ClipRepeat(pixelCol, r.value.repeats, x, w) &&
              r.value.text == "!" + IntToString(r.value.clipped)
    ensures r.Err? ==> r.fault == Truncated
  {
    if data[j] != '!' then Ok(Repeat(1, 1, [], j))
    else if j + 1 == |data| then Err(Truncated)
    else
      var k := SpanEnd(data, j + 1, IsDigit);
      if k == |data| then Err(Truncated)
      else
        var digits := data[j + 1..k];
        var repeats := if digits == [] then 1 else Decimal(digits);
        var n := ClipRepeat(pixelCol, repeats, x, w);
        Ok(Repeat(repeats, n, "!" + IntToString(n), k))
  }

  /** Lines 292-342 for a run that is not a graphics carriage return: the
      sixel is masked, the run is written out when it lies in the window,
      the pixel column moves past it, and the band is skipped to its next
      '-' or '$' once the column reaches the window's right edge. An `ESC`
      after the run ends the transcode with the string terminator. */
  function PlaceRun(data: string, rep: Repeat, cur: Cursor, win: Window): (r: Result<Token>)
    requires rep.at < |data|
    ensures r.Ok? && r.value.Next? ==> rep.at < r.value.j < |data|
    ensures r.Ok? && r.value.Next? ==> r.value.cur.pixelCol == cur.pixelCol + rep.repeats
    ensures r.Ok? && r.value.Next? ==> r.value.cur.color == cur.color && cur.line <= r.value.cur.line
    ensures r.Ok? && r.value.Next? && !Emits(rep.clipped, rep.repeats, cur.pixelCol, win.x, win.w) ==>
              r.value.cur == cur.(pixelCol := cur.pixelCol + rep.repeats)
    ensures r.Ok? && r.value.Next? && Emits(rep.clipped, rep.repeats, cur.pixelCol, win.x, win.w) ==>
              r.value.cur.colorPrev == cur.color &&
              r.value.cur.line ==
                AppendRun(cur.line, cur.colorPrev, cur.color, rep.text,
                          ApplyMask(CropMask(win.pixelRow, win.y, win.h), data[rep.at])).line
    ensures r.Ok? && r.value.Next? && cur.pixelCol + rep.repeats >= win.x + win.w ==>
              data[r.value.j] == '-' || data[r.value.j] == '$'
    ensures r.Ok? && r.value.Next? ==> forall m :: rep.at < m < r.value.j ==> NotRowEnd(data[m])
    ensures r.Ok? && r.value.Next? && cur.pixelCol + rep.repeats < win.x + win.w ==>
              r.value.j == rep.at + 1
    ensures r.Ok? && r.value.Stop? ==>
              r.value.tail == StringTerminator && rep.at + 1 < |data| && data[rep.at + 1] == ESC
    ensures rep.at + 1 < |data| && data[rep.at + 1] == ESC ==> r == Ok(Stop(StringTerminator))
    ensures r.Err? ==> r.fault == Truncated && forall m :: rep.at < m < |data| ==> NotRowEnd(data[m])
  {
    var sixel := ApplyMask(CropMask(win.pixelRow, win.y, win.h), data[rep.at]);
    var e := if Emits(rep.clipped, rep.repeats, cur.pixelCol, win.x, win.w)
             then AppendRun(cur.line, cur.colorPrev, cur.color, rep.text, sixel)
             else Emitted(cur.line, cur.colorPrev);
    var pixelCol := cur.pixelCol + rep.repeats;
    var next := Cursor(e.line, e.colorPrev, cur.color, pixelCol);
    var k := rep.at + 1;
    if k == |data| then Err(Truncated)
    else if data[k] == ESC then Ok(Stop(StringTerminator))
    else if pixelCol >= win.x + win.w then
      var k' := SpanEnd(data, k, NotRowEnd);
      if k' == |data| then Err(Truncated) else Ok(Next(next, k'))
    else Ok(Next(next, k))
  }

  /** One pass of the loop at lines 231-342, at a character that is neither
      '-' nor `ESC`: a colour selection, a graphics carriage return (which
      keeps the '$', drops any repeat introducer before it and moves back
      to column 0) or a run. */
  function CropToken(data: string, j: nat, cur: Cursor, win: Window): (r: Result<Token>)
    requires j < |data|
    ensures r.Ok? && r.value.Next? ==> j < r.value.j < |data|
    ensures r.Ok? && r.value.Next? ==> cur.line <= r.value.cur.line
    ensures r.Ok? && r.value.Stop? ==> r.value.tail == StringTerminator
    ensures r.Err? ==> r.fault == Truncated
    ensures data[j] == '$' ==>
              (r.Err? <==> j + 1 == |data|) &&
              (r.Ok? ==> r.value == Next(cur.(line := cur.line + "$", pixelCol := 0), j + 1))
    ensures data[j] != '#' && data[j] != '!' && data[j] != '$' ==>
              r == PlaceRun(data, Repeat(1, 1, [], j), cur, win)
  {
    if data[j] == '#' then ReadColor(data, j, cur)
    else
      match ReadRepeat(data, j, cur.pixelCol, win.x, win.w)
      case Err(f) => Err(f)
      case Ok(rep) =>
        if data[rep.at] == '$' then
          if rep.at + 1 == |data| then Err(Truncated)
          else Ok(Next(cur.(line := cur.line + "$", pixelCol := 0), rep.at + 1))
        else PlaceRun(data, rep, cur, win)
  }

  /** The text `s` ends with the character `c`. */
  predicate EndsWith(s: string, c: char)
  {
    |s| >= 1 && s[|s| - 1] == c
  }

  /** The loop at lines 231-344 from the cursor at `data[j]`: commands are
      processed until a '-' or an `ESC`, which ends the band text. */
  function CropLoop(data: string, j: nat, cur: Cursor, win: Window): (r: Result<BandEnd>)
    requires j < |data|
    ensures r.Ok? && r.value.Done? ==> j < r.value.next <= |data| && cur.line <= r.value.line
    ensures r.Ok? && r.value.Done? ==>
              (data[r.value.next - 1] == '-' || data[r.value.next - 1] == ESC) &&
              EndsWith(r.value.line, data[r.value.next - 1])
    ensures r.Ok? && r.value.Halt? ==> r.value.tail == StringTerminator
    ensures r.Err? ==> r.fault == Truncated
    decreases |data| - j
  {
    if data[j] == '-' || data[j] == ESC then
      Ok(Done(cur.line + [data[j]], cur.colorPrev, j + 1))
    else
      var t := CropToken(data, j, cur, win);
      if t.Err? then Err(t.fault)
      else if t.value.Stop? then Ok(Halt(t.value.tail))
      else
        var r := CropLoop(data, t.value.j, t.value.cur, win);
        r
  }

  /** The band as the loop starts it (lines 222-227): nothing kept, no
      colour read yet, column 0. */
  function StartCursor(colorPrev: string): Cursor
  {
    Cursor([], colorPrev, [], 0)
  }

  /** Lines 247-280, reading a run's repeat introducer at the cursor. */
  method ScanRepeat(data: string, j: nat, pixelCol: int, x: int, w: int) returns (r: Result<Repeat>)
    requires j < |data|
    ensures r == ReadRepeat(data, j, pixelCol, x, w)
  {
    if data[j] != '!' {
      return Ok(Repeat(1, 1, [], j));
    }
    if j + 1 == |data| {
      return Err(Truncated);
    }
    var k := ScanWhile(data, j + 1, IsDigit);
    if k == |data| {
      return Err(Truncated);
    }
    var digits := data[j + 1..k];
    var repeats := if digits == [] then 1 else Decimal(digits);
    var n := repeats;
    if x < pixelCol + repeats < x + w {
      n := Min(pixelCol + repeats - x, n);
    } else if x + w < pixelCol + repeats {
      n := Min(n, x + w - pixelCol);
    }
    n := Min(n, w);
    r := Ok(Repeat(repeats, n, "!" + IntToString(n), k));
  }

  /** Lines 292-342 for a run that is not a graphics carriage return. */
  method StepRun(data: string, rep: Repeat, cur: Cursor, win: Window) returns (r: Result<Token>)
    requires rep.at < |data|
    ensures r == PlaceRun(data, rep, cur, win)
  {
    var sixel := ApplyMask(CropMask(win.pixelRow, win.y, win.h), data[rep.at]);
    var line, colorPrev := cur.line, cur.colorPrev;
    if Emits(rep.clipped, rep.repeats, cur.pixelCol, win.x, win.w) {
      if line == [] {
        line := line + colorPrev;
      }
      if cur.color != colorPrev {
        colorPrev := cur.color;
        line := line + cur.color;
      }
      line := line + rep.text + [sixel];
    }
    var pixelCol := cur.pixelCol + rep.repeats;
    var k := rep.at + 1;
    if k == |data| {
      return Err(Truncated);
    }
    if data[k] == ESC {
      return Ok(Stop(StringTerminator));
    }
    if pixelCol >= win.x + win.w {
      k := ScanWhile(data, k, NotRowEnd);
      if k == |data| {
        return Err(Truncated);
      }
    }
    r := Ok(Next(Cursor(line, colorPrev, cur.color, pixelCol), k));
  }

  /** One pass of the loop at lines 231-342. */
  method StepCrop(data: string, j: nat, cur: Cursor, win: Window) returns (r: Result<Token>)
    requires j < |data|
    ensures r == CropToken(data, j, cur, win)
  {
    if data[j] == '#' {
      var k := ScanWhile(data, j, IsColorChar);
      if k == |data| {
        return Err(Truncated);
      }
      return Ok(Next(cur.(color := data[j..k]), k));
    }
    var rep := ScanRepeat(data, j, cur.pixelCol, win.x, win.w);
    if rep.Err? {
      return Err(rep.fault);
    }
    var at := rep.value.at;
    if data[at] == '$' {
      if at + 1 == |data| {
        return Err(Truncated);
      }
      return Ok(Next(cur.(line := cur.line + "$", pixelCol := 0), at + 1));
    }
    r := StepRun(data, rep.value, cur, win);
  }

  /** The crop loop of lines 219-344 over one band, from `data[j]`. */
  method CropBand(data: string, j: nat, colorPrev: string, win: Window) returns (r: Result<BandEnd>)
    requires j < |data|
    ensures r == CropLoop(data, j, StartCursor(colorPrev), win)
  {
    var cur := StartCursor(colorPrev);
    var k := j;
    while data[k] != '-' && data[k] != ESC
      invariant k < |data|
      invariant CropLoop(data, k, cur, win) == CropLoop(data, j, StartCursor(colorPrev), win)
      decreases |data| - k
    {
      var t := StepCrop(data, k, cur, win);
      if t.Err? {
        return Err(t.fault);
      }
      if t.value.Stop? {
        return Ok(Halt(t.value.tail));
      }
      cur, k := t.value.cur, t.value.j;
    }
    r := Ok(Done(cur.line + [data[k]], cur.colorPrev, k + 1));
  }
}
