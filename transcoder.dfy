/** The Sixel crop transcoder `sixelcrop(data, x, y, w, h)` (lines 11-360):
    a single pass over a Sixel stream that copies the DCS introducer with
    P2 forced to 1, rewrites the raster attributes to the window's size,
    writes palette definitions through, skips the row bands above the
    window, crops the bands inside it and ends with the string terminator
    once the window's last band has been written. The window's width and
    height may be left out (`None`) and are then taken from the raster
    attributes. */
module Transcoder {
  import opened Scan
  import opened Fields
  import opened Header
  import opened Colors
  import opened Crop
  import opened Band
  import opened Runs

  /** The generator's variables at the top of its main loop: the read
      cursor, the first pixel row of the next band, the colour selection
      carried between bands, the window width and height as resolved so
      far, and everything written out. */
  datatype State = State(i: nat, pixelRow: int, colorPrev: string,
                         w: Option<int>, h: Option<int>, out: string)

  /** The state after a command and the index of the character to look
      at next. */
  datatype Resume = Resume(s: State, j: nat)

  /** One pass of the main loop either goes on or returns. */
  datatype Step = Continue(s: State) | Finish(out: string)

  /** Python's truth value of `h`: present and non-zero. */
  predicate Truthy(h: Option<int>) { h.Some? && h.value != 0 }

  /** `ESC P` begins at index `k`. */
  predicate DcsAt(data: string, k: nat) { k + 1 < |data| && data[k] == ESC && data[k + 1] == 'P' }

  /** `data.find("\x1bP", from)`: the first `ESC P` at or after `from`. */
  function FindDcs(data: string, from: nat): (r: Option<nat>)
    requires from <= |data|
    ensures r.Some? ==> from <= r.value && DcsAt(data, r.value)
    ensures r.Some? ==> forall k :: from <= k < r.value ==> !DcsAt(data, k)
    ensures r.None? ==> forall k :: from <= k < |data| ==> !DcsAt(data, k)
    decreases |data| - from
  {
    if from == |data| then None
    else if DcsAt(data, from) then Some(from)
    else FindDcs(data, from + 1)
  }

  /** Lines 60-103: an escape. `ESC P` opens the image and has its
      parameters rewritten; `ESC \` ends the transcode; after any other
      character the escape alone is written. */
  function EscapeStep(data: string, s: State): (r: Result<Step>)
    requires s.i < |data| && data[s.i] == ESC
    ensures r.Ok? && r.value.Continue? ==>
              s.i < r.value.s.i <= |data| && r.value.s == s.(i := r.value.s.i, out := r.value.s.out)
    ensures r.Ok? && r.value.Continue? ==> s.i + 1 < |data|
    ensures r.Ok? && r.value.Continue? && data[s.i + 1] == 'P' ==>
              DcsParams(data, s.i + 2).Ok? &&
              var d := DcsParams(data, s.i + 2).value;
              d.term == 'q' && r.value.s.i == d.next &&
              r.value.s.out == s.out + [ESC, 'P'] + DcsHeaderText(d.params) + "q"
    ensures r.Ok? && r.value.Continue? && data[s.i + 1] != 'P' ==>
              r.value.s.i == s.i + 2 && r.value.s.out == s.out + [ESC]
    ensures r.Ok? && r.value.Finish? <==>
              s.i + 1 < |data| && data[s.i + 1] == '\\'
    ensures r.Ok? && r.value.Finish? ==> r.value.out == s.out + StringTerminator
    ensures r.Err? && s.i + 1 < |data| && data[s.i + 1] == 'P' && DcsParams(data, s.i + 2).Ok? ==>
              r.fault == MissingQ
  {
    if s.i + 1 == |data| then Err(Truncated)
    else if data[s.i + 1] == 'P' then
      match DcsParams(data, s.i + 2)
      case Err(f) => Err(f)
      case Ok(d) =>
        if d.term != 'q' then Err(MissingQ)
        else Ok(Continue(s.(i := d.next, out := s.out + [ESC, 'P'] + DcsHeaderText(d.params) + "q")))
    else if data[s.i + 1] == '\\' then Ok(Finish(s.out + StringTerminator))
    else Ok(Continue(s.(i := s.i + 2, out := s.out + [ESC])))
  }

  /** Lines 105-133: a raster attributes command at `data[s.i]` is written
      out with the window's width and height; the returned index is that of
      the character that ended its parameters. */
  function RasterStep(data: string, s: State, x: int, y: int): (r: Result<Resume>)
    requires s.i < |data| && data[s.i] == '"'
    ensures r.Ok? ==> s.i < r.value.j && ParamsEndAt(data, r.value.j)
    ensures r.Ok? ==> r.value.s == s.(w := r.value.s.w, h := r.value.s.h, out := r.value.s.out)
    ensures r.Ok? ==> s.out + "\"" <= r.value.s.out
  {
    match RasterParams(data, s.i + 1)
    case Err(f) => Err(f)
    case Ok(raster) => RasterWrite(s, raster, x, y)
  }

  /** Lines 119-135 once the raster parameters are read: the window's
      width and height are resolved and the rewritten fields written out
      after the '"'. */
  function RasterWrite(s: State, raster: RasterScan, x: int, y: int): (r: Result<Resume>)
    requires DigitFields(raster.params) && raster.next >= 1
    ensures r.Ok? ==> r.value.j == raster.next - 1
    ensures r.Ok? ==> r.value.s == s.(w := r.value.s.w, h := r.value.s.h, out := r.value.s.out)
    ensures r.Ok? ==> s.out + "\"" <= r.value.s.out
    ensures r.Err? <==> ResolveRaster(raster.params, x, y, s.w, s.h).Err?
  {
    match ResolveRaster(raster.params, x, y, s.w, s.h)
    case Err(f) => Err(f)
    case Ok(resolved) =>
      Ok(Resume(s.(w := resolved.w, h := resolved.h, out := s.out + "\"" + Join(resolved.params)),
          raster.next - 1))
  }

  /** Lines 119-135: when both dimensions resolve, the raster step writes
      `"` and the rewritten fields joined with `;`, takes the resolved width
      and height, and resumes at the character that ended the parameters. */
  lemma RasterWriteOk(s: State, x: int, y: int, raster: RasterScan, resolved: Raster, s': State)
    requires DigitFields(raster.params) && raster.next >= 1
    requires ResolveRaster(raster.params, x, y, s.w, s.h) == Ok(resolved)
    requires s' == s.(w := resolved.w, h := resolved.h, out := s.out + "\"" + Join(resolved.params))
    ensures RasterWrite(s, raster, x, y) == Ok(Resume(s', raster.next - 1))
  {
  }

  /** Lines 141-166 at `data[j]`: the palette definitions are written out
      and the last colour selection becomes the one carried. */
  function ColorStep(data: string, s: State, j: nat): (r: Result<Resume>)
    requires j < |data|
    ensures data[j] != '#' ==> r == Ok(Resume(s, j))
    ensures r.Ok? ==> j <= r.value.j < |data| && s.out <= r.value.s.out
    ensures r.Ok? ==> r.value.s == s.(colorPrev := r.value.s.colorPrev, out := r.value.s.out)
    ensures r.Ok? && data[j] == '#' ==>
              ColorsFrom(data, j, []).Ok? &&
              r.value.s.out == s.out + ColorsFrom(data, j, []).value.palette &&
              r.value.s.colorPrev == ColorsFrom(data, j, []).value.colorPrev
  {
    if data[j] != '#' then Ok(Resume(s, j))
    else
      match ColorsFrom(data, j, [])
      case Err(f) => Err(f)
      case Ok(c) => Ok(Resume(s.(colorPrev := c.colorPrev, out := s.out + c.palette), c.next))
  }

  /** Lines 104-166: the raster attributes, if any, then the colour commands,
      if any, that open a band; the returned index is that of the band's
      first character. */
  function OpenBand(data: string, s: State, x: int, y: int): (r: Result<Resume>)
    requires s.i < |data|
    ensures r.Ok? ==> s.i <= r.value.j < |data| && s.out <= r.value.s.out
    ensures r.Ok? ==> r.value.s.i == s.i && r.value.s.pixelRow == s.pixelRow
  {
    if data[s.i] == '"' then
      match RasterStep(data, s, x, y)
      case Err(f) => Err(f)
      case Ok(Resume(s', j)) => ColorStep(data, s', j)
    else ColorStep(data, s, s.i)
  }

  /** The band of six pixel rows that starts at `row` has a row in the
      window's rows [y, y + h). */
  predicate MeetsWindow(row: int, y: int, h: int)
  {
    Overlap(row, row + 6, y, y + h) > 0
  }

  /** No band after the one at `row` (they start six rows apart) meets the
      window's rows. */
  ghost predicate LaterBandsMiss(row: int, y: int, h: int)
  {
    forall later :: row < later && (later - row) % 6 == 0 ==> !MeetsWindow(later, y, h)
  }

  /** For a window of positive height, the bands after `row` all miss it
      exactly when the next one starts at or below its bottom edge. */
  lemma LaterBandsMissIff(row: int, y: int, h: int)
    requires h > 0
    ensures LaterBandsMiss(row, y, h) <==> row + 6 >= y + h
  {
    if row + 6 < y + h {
      var later := if row + 12 > y then row + 6 else row + 6 * ((y - row) / 6);
      assert later - row == 6 * ((later - row) / 6);
      assert MeetsWindow(later, y, h);
    }
  }

  /** Pixel row `k` lies in the band of six rows that starts at `row`. */
  predicate InBand(row: int, k: int)
  {
    row <= k < row + 6
  }

  /** The band that starts at `row` holds every pixel row from `lo` to `hi`. */
  ghost predicate HoldsRows(row: int, lo: int, hi: int)
  {
    forall k :: lo <= k <= hi ==> InBand(row, k)
  }

  /** A non-empty range of rows lies in a band exactly when both its ends do. */
  lemma HoldsRowsIff(row: int, lo: int, hi: int)
    requires lo <= hi
    ensures HoldsRows(row, lo, hi) <==> row <= lo && hi < row + 6
  {
    if HoldsRows(row, lo, hi) {
      assert InBand(row, lo) && InBand(row, hi);
    }
  }

  /** Band `later` starts above pixel row `bottom`. */
  predicate StartsAbove(later: int, bottom: int)
  {
    later < bottom
  }

  /** No band after the one at `row` starts above pixel row `bottom`. */
  ghost predicate LaterBandsBelow(row: int, bottom: int)
  {
    forall later :: row < later && (later - row) % 6 == 0 ==> !StartsAbove(later, bottom)
  }

  /** The bands after `row` all start at or below `bottom` exactly when the
      next one does. */
  lemma LaterBandsBelowIff(row: int, bottom: int)
    ensures LaterBandsBelow(row, bottom) <==> row + 6 >= bottom
  {
    if row + 6 >= bottom {
      forall later | row < later && (later - row) % 6 == 0
        ensures !StartsAbove(later, bottom)
      {
        assert later >= row + 6;
      }
    } else {
      assert (row + 6 - row) % 6 == 0;
      assert StartsAbove(row + 6, bottom);
    }
  }

  /** Lines 347-358. For a window of positive height the band's text is
      written out exactly when the band has a row in the window, and the
      string terminator ends the transcode exactly when no later band can
      have one; without a height nothing is written and the transcode goes
      on. For a negative height the window holds no row: the band is written
      exactly when it holds every row from `y + h - 1` to `y`, and the
      transcode ends exactly when no later band starts above row `y + h`.
      In every case that goes on, the next band starts six rows further
      down and nothing else changes. */
  function EndBand(s: State, line: string, y: int): (r: Step)
    ensures r.Continue? ==> r.s == s.(pixelRow := s.pixelRow + 6, out := r.s.out)
    ensures !Truthy(s.h) ==> r == Continue(s.(pixelRow := s.pixelRow + 6))
    ensures s.h.Some? && s.h.value > 0 ==>
      var out := if MeetsWindow(s.pixelRow, y, s.h.value) then s.out + line else s.out;
      r == if LaterBandsMiss(s.pixelRow, y, s.h.value) then Finish(out + StringTerminator)
           else Continue(s.(pixelRow := s.pixelRow + 6, out := out))
    ensures s.h.Some? && s.h.value < 0 ==>
      var out := if HoldsRows(s.pixelRow, y + s.h.value - 1, y) then s.out + line else s.out;
      r == if LaterBandsBelow(s.pixelRow, y + s.h.value) then Finish(out + StringTerminator)
           else Continue(s.(pixelRow := s.pixelRow + 6, out := out))
  {
    var out := if Truthy(s.h) && y - 6 < s.pixelRow < y + s.h.value then s.out + line else s.out;
    var pixelRow := s.pixelRow + 6;
    assert s.h.Some? && s.h.value > 0 ==>
        (LaterBandsMiss(s.pixelRow, y, s.h.value) <==> pixelRow >= y + s.h.value) by {
      if s.h.Some? && s.h.value > 0 {
        LaterBandsMissIff(s.pixelRow, y, s.h.value);
      }
    }
    assert s.h.Some? && s.h.value < 0 ==>
        (HoldsRows(s.pixelRow, y + s.h.value - 1, y) <==> y - 6 < s.pixelRow < y + s.h.value) &&
        (LaterBandsBelow(s.pixelRow, y + s.h.value) <==> pixelRow >= y + s.h.value) by {
      if s.h.Some? && s.h.value < 0 {
        HoldsRowsIff(s.pixelRow, y + s.h.value - 1, y);
        LaterBandsBelowIff(s.pixelRow, y + s.h.value);
      }
    }
    if Truthy(s.h) && pixelRow >= y + s.h.value then Finish(out + StringTerminator)
    else Continue(s.(pixelRow := pixelRow, out := out))
  }

  /** One pass of the main loop (lines 56-358). */
  function MainStep(data: string, s: State, x: int, y: int): (r: Result<Step>)
    requires s.i <= |data|
    ensures s.i == |data| ==> r == Err(Truncated)
    ensures r.Ok? && r.value.Continue? ==> s.i < r.value.s.i <= |data| && s.out <= r.value.s.out
    ensures r.Ok? && r.value.Finish? ==> s.out <= r.value.out
  {
    if s.i == |data| then Err(Truncated)
    else if data[s.i] == ESC then EscapeStep(data, s)
    else BandStep(data, s, x, y)
  }

  /** A pass of the main loop that does not start on an `ESC`: a row band,
      with the raster attributes and colour commands before it. */
  function BandStep(data: string, s: State, x: int, y: int): (r: Result<Step>)
    requires s.i < |data| && data[s.i] != ESC
    ensures r.Ok? && r.value.Continue? ==> s.i < r.value.s.i <= |data| && s.out <= r.value.s.out
    ensures r.Ok? && r.value.Finish? ==> s.out <= r.value.out
  {
    match OpenBand(data, s, x, y)
    case Err(f) => Err(f)
    case Ok(Resume(s', j)) => BandResult(data, s', j, x, y)
  }

  /** The band that starts at `data[j]`, cropped, then the decision whether
      it is kept and whether the image ends with it (lines 168-358). */
  function BandResult(data: string, s: State, j: nat, x: int, y: int): (r: Result<Step>)
    requires j < |data|
    ensures r.Ok? && r.value.Continue? ==> j < r.value.s.i <= |data| && s.out <= r.value.s.out
    ensures r.Ok? && r.value.Finish? ==> s.out <= r.value.out
  {
    match BandBody(data, j, s.pixelRow, s.colorPrev, x, y, s.w, s.h)
    case Err(f) => Err(f)
    case Ok(Halt(tail)) => Ok(Finish(s.out + tail))
    case Ok(Done(line, colorPrev, next)) => Ok(EndBand(s.(i := next, colorPrev := colorPrev), line, y))
  }

  /** The main loop from state `s` to the generator's return. What has been
      written out is never taken back: the result extends `s.out`. */
  function Run(data: string, s: State, x: int, y: int): (r: Result<string>)
    requires s.i <= |data|
    ensures r.Ok? ==> s.out <= r.value
    decreases |data| - s.i
  {
    match MainStep(data, s, x, y)
    case Err(f) => Err(f)
    case Ok(Finish(out)) => Ok(out)
    case Ok(Continue(s')) => Run(data, s', x, y)
  }

  /** The generator's variables as it starts (lines 37-46). */
  function Start(w: Option<int>, h: Option<int>): State
  {
    State(0, 0, [], w, h, [])
  }

  /** `sixelcrop(data, x, y, w, h)` (lines 11-360): the text before the
      first `ESC P` is dropped, and without one the result is empty. An
      exception anywhere in the generator is an `Err`. */
  function Sixelcrop(data: string, x: int, y: int, w: Option<int>, h: Option<int>): (r: Result<string>)
    ensures (forall k :: 0 <= k < |data| ==> !DcsAt(data, k)) ==> r == Ok([])
    ensures FindDcs(data, 0).Some? ==> r == Run(data[FindDcs(data, 0).value..], Start(w, h), x, y)
  {
    if DcsAt(data, 0) then assert data[0..] == data; Run(data, Start(w, h), x, y)
    else
      match FindDcs(data, 0)
      case None => Ok([])
      case Some(k) => Run(data[k..], Start(w, h), x, y)
  }

  // ---------------------------------------------------------------------
  // The imperative transcoder

  /** Lines 60-103. */
  method Escape(data: string, s: State) returns (r: Result<Step>)
    requires s.i < |data| && data[s.i] == ESC
    ensures r == EscapeStep(data, s)
  {
    if s.i + 1 == |data| {
      return Err(Truncated);
    }
    var c := data[s.i + 1];
    if c == 'P' {
      var d := ScanDcsParams(data, s.i + 2);
      if d.Err? {
        return Err(d.fault);
      }
      if d.value.term != 'q' {
        return Err(MissingQ);
      }
      return Ok(Continue(s.(i := d.value.next,
                            out := s.out + [ESC, 'P'] + DcsHeaderText(d.value.params) + "q")));
    } else if c == '\\' {
      return Ok(Finish(s.out + StringTerminator));
    }
    r := Ok(Continue(s.(i := s.i + 2, out := s.out + [ESC])));
  }

  /** Lines 105-133. */
  method Raster(data: string, s: State, x: int, y: int) returns (r: Result<Resume>)
    requires s.i < |data| && data[s.i] == '"'
    ensures r == RasterStep(data, s, x, y)
  {
    var raster := ScanRasterParams(data, s.i + 1);
    if raster.Err? {
      return Err(raster.fault);
    }
    r := WriteRaster(s, raster.value, x, y);
  }

  /** Lines 119-135. */
  method WriteRaster(s: State, raster: RasterScan, x: int, y: int) returns (r: Result<Resume>)
    requires DigitFields(raster.params) && raster.next >= 1
    ensures r == RasterWrite(s, raster, x, y)
  {
    var resolved := RewriteRaster(raster.params, x, y, s.w, s.h);
    if resolved.Err? {
      return Err(resolved.fault);
    }
    r := Ok(Resume(s.(w := resolved.value.w, h := resolved.value.h,
                out := s.out + "\"" + Join(resolved.value.params)),
             raster.next - 1));
  }

  /** Lines 141-166. */
  method ColorCommands(data: string, s: State, j: nat) returns (r: Result<Resume>)
    requires j < |data|
    ensures r == ColorStep(data, s, j)
  {
    if data[j] != '#' {
      return Ok(Resume(s, j));
    }
    var colors := CollectColors(data, j);
    if colors.Err? {
      return Err(colors.fault);
    }
    r := Ok(Resume(s.(colorPrev := colors.value.colorPrev, out := s.out + colors.value.palette),
             colors.value.next));
  }

  /** Lines 104-166. */
  method Open(data: string, s: State, x: int, y: int) returns (r: Result<Resume>)
    requires s.i < |data|
    ensures r == OpenBand(data, s, x, y)
  {
    if data[s.i] == '"' {
      var raster := Raster(data, s, x, y);
      if raster.Err? {
        return Err(raster.fault);
      }
      r := ColorCommands(data, raster.value.s, raster.value.j);
    } else {
      r := ColorCommands(data, s, s.i);
    }
  }

  /** Lines 347-358. */
  method CloseBand(s: State, line: string, y: int) returns (r: Step)
    ensures r == EndBand(s, line, y)
  {
    var out := s.out;
    if Truthy(s.h) && y - 6 < s.pixelRow < y + s.h.value {
      out := out + line;
    }
    var pixelRow := s.pixelRow + 6;
    if Truthy(s.h) && pixelRow >= y + s.h.value {
      return Finish(out + StringTerminator);
    }
    r := Continue(s.(pixelRow := pixelRow, out := out));
  }

  /** Lines 104-358: one band. */
  method ProcessLine(data: string, s: State, x: int, y: int) returns (r: Result<Step>)
    requires s.i < |data| && data[s.i] != ESC
    ensures r == MainStep(data, s, x, y)
  {
    var start := Open(data, s, x, y);
    if start.Err? {
      return Err(start.fault);
    }
    var t, j := start.value.s, start.value.j;
    var band := ProcessBand(data, j, t.pixelRow, t.colorPrev, x, y, t.w, t.h);
    if band.Err? {
      return Err(band.fault);
    }
    if band.value.Halt? {
      return Ok(Finish(t.out + band.value.tail));
    }
    var step := CloseBand(t.(i := band.value.next, colorPrev := band.value.colorPrev), band.value.line, y);
    r := Ok(step);
  }

  /** One pass of the main loop (lines 56-358). */
  method Advance(data: string, s: State, x: int, y: int) returns (r: Result<Step>)
    requires s.i <= |data|
    ensures r == MainStep(data, s, x, y)
  {
    if s.i == |data| {
      return Err(Truncated);
    }
    if data[s.i] == ESC {
      r := Escape(data, s);
    } else {
      r := ProcessLine(data, s, x, y);
    }
  }

  /** `sixelcrop(data, x, y, w, h)`: the generator's main loop, run to its
      return, with everything it yields joined. */
  method Transcode(data: string, x: int, y: int, w: Option<int>, h: Option<int>)
    returns (r: Result<string>)
    ensures r == Sixelcrop(data, x, y, w, h)
  {
    var input := data;
    if !DcsAt(data, 0) {
      var start := FindDcs(data, 0);
      if start.None? {
        return Ok([]);
      }
      input := data[start.value..];
    }
    var s := Start(w, h);
    while true
      invariant s.i <= |input|
      invariant Run(input, s, x, y) == Sixelcrop(data, x, y, w, h)
      decreases |input| - s.i
    {
      var step := Advance(input, s, x, y);
      if step.Err? {
        return Err(step.fault);
      }
      if step.value.Finish? {
        return Ok(step.value.out);
      }
      s := step.value.s;
    }
  }
}
