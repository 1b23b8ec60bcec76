/** What happens to one sixel row band after its colour commands (lines
    168-345): a band above the window is skipped, a band is copied with its
    edge rows masked when only the height is cropped, and it is cropped
    column by column when a window width is known. */
module Band {
  import opened Scan
  import opened Mask
  import opened Crop

  /** `char != "-"` */
  predicate NotNewline(c: char) { c != '-' }

  /** `char != "-"` and not `ESC`: the skip above the window (lines
      171-178) also gives up at an escape. */
  predicate NotNewlineOrEsc(c: char) { c != '-' && c != ESC }

  /** Lines 185-211: the mask of a band copied when only the height is
      cropped. Unlike the x-crop's, the bottom case is only taken for a band
      below the first one. */
  function HeightMask(pixelRow: int, y: int, h: Option<int>): (m: MaskKind)
    ensures ValidMask(m)
    ensures m.Top? <==> pixelRow < y < pixelRow + 6
    ensures m.Bottom? <==> !(pixelRow < y < pixelRow + 6) && h.Some? && pixelRow > 0 &&
                           pixelRow < y + h.value < pixelRow + 6
    ensures m.Top? ==> 1 <= m.n <= 5 && pixelRow + m.n == y
    ensures m.Bottom? ==> 1 <= m.n <= 5 && pixelRow + m.n == y + h.value
  {
    if pixelRow < y < pixelRow + 6 then Top(y - pixelRow)
    else if h.Some? && pixelRow > 0 && pixelRow < y + h.value < pixelRow + 6 then
      Bottom(y + h.value - pixelRow)
    else Keep
  }

  /** Lines 185-216: the band from `data[j]` up to and including its '-',
      each character masked. The copy does not stop at an escape. */
  function CopyBand(data: string, j: nat, m: MaskKind): (r: Result<(string, nat)>)
    requires j <= |data| && ValidMask(m)
    ensures r.Ok? ==> j < r.value.1 <= |data| && |r.value.0| == r.value.1 - j
    ensures r.Ok? ==> data[r.value.1 - 1] == '-' && r.value.0[|r.value.0| - 1] == '-'
    ensures r.Ok? ==> forall q :: j <= q < r.value.1 - 1 ==>
                        data[q] != '-' && r.value.0[q - j] == ApplyMask(m, data[q])
    ensures r.Err? ==> r.fault == Truncated && forall q :: j <= q < |data| ==> data[q] != '-'
  {
    var k := SpanEnd(data, j, NotNewline);
    if k == |data| then Err(Truncated) else Ok((MaskText(m, data[j..k]) + "-", k + 1))
  }

  /** Copying without a mask hands the band's text back unchanged. */
  lemma CopyBandKeeps(data: string, j: nat)
    requires j <= |data|
    ensures var r := CopyBand(data, j, Keep);
      r.Ok? ==> r.value.0 == data[j..r.value.1]
  {
    var r := CopyBand(data, j, Keep);
    if r.Ok? {
      var k := r.value.1;
      assert forall q :: 0 <= q < k - j ==> r.value.0[q] == data[j..k][q] by {
        forall q | 0 <= q < k - j
          ensures r.value.0[q] == data[j..k][q]
        {
          if q < k - j - 1 {
            assert r.value.0[q] == ApplyMask(Keep, data[j + q]);
          }
        }
      }
    }
  }

  /** Lines 171-178: the rest of a band above the window is read up to its
      '-'; meeting an escape first ends the transcode with nothing more
      written. The character at `data[j]` itself is not looked at. */
  function SkipBand(data: string, j: nat): (r: Result<BandEnd>)
    requires j < |data|
    ensures r.Ok? && r.value.Done? ==>
              r.value.line == [] && j + 1 < r.value.next <= |data| && data[r.value.next - 1] == '-'
    ensures r.Ok? && r.value.Done? ==> forall q :: j < q < r.value.next - 1 ==> NotNewlineOrEsc(data[q])
    ensures r.Ok? && r.value.Halt? ==>
              r.value.tail == [] && exists k :: j < k < |data| && data[k] == ESC &&
                                     forall q :: j < q < k ==> data[q] != '-'
    ensures r.Err? ==> r.fault == Truncated
  {
    var k := SpanEnd(data, j + 1, NotNewlineOrEsc);
    if k == |data| then Err(Truncated)
    else if data[k] == ESC then Ok(Halt([]))
    else Ok(Done([], [], k + 1))
  }

  /** Lines 168-345 for the band whose first character (after any colour
      commands) is `data[j]`; `colorPrev` is the colour selection carried
      from the bands before. */
  function BandBody(data: string, j: nat, pixelRow: int, colorPrev: string,
                    x: int, y: int, w: Option<int>, h: Option<int>): (r: Result<BandEnd>)
    requires j < |data|
    ensures r.Ok? && r.value.Done? ==> j < r.value.next <= |data|
    ensures r.Ok? && r.value.Halt? ==> r.value.tail == [] || r.value.tail == StringTerminator
    ensures data[j] == '-' ==> r == Ok(Done([], colorPrev, j + 1))
    ensures data[j] != '-' && pixelRow < y - 6 ==>
              r.Ok? ==> r.value.Done? ==> r.value.line == []
    ensures data[j] != '-' && !(pixelRow < y - 6) && w.None? ==>
              r.Ok? ==> r.value.Done? && r.value.colorPrev == colorPrev
    ensures r.Err? ==> r.fault == Truncated
  {
    if data[j] == '-' then Ok(Done([], colorPrev, j + 1))
    else if pixelRow < y - 6 then
      match SkipBand(data, j)
      case Ok(Done(_, _, next)) => Ok(Done([], colorPrev, next))
      case other => other
    else if w.None? then
      match CopyBand(data, j, HeightMask(pixelRow, y, h))
      case Ok((line, next)) => Ok(Done(line, colorPrev, next))
      case Err(f) => Err(f)
    else if h.Some? && h.value != 0 then
      CropLoop(data, j, StartCursor(colorPrev), Window(x, y, w.value, h.value, pixelRow))
    else Ok(Done([], colorPrev, j + 1))
  }

  /** The copy loops of lines 185-216. */
  method CopyMasked(data: string, j: nat, m: MaskKind) returns (r: Result<(string, nat)>)
    requires j <= |data| && ValidMask(m)
    ensures r == CopyBand(data, j, m)
  {
    var line: string := [];
    var k := j;
    while k < |data| && data[k] != '-'
      invariant j <= k <= |data|
      invariant SpanEnd(data, k, NotNewline) == SpanEnd(data, j, NotNewline)
      invariant line == MaskText(m, data[j..k])
      decreases |data| - k
    {
      assert data[j..k + 1] == data[j..k] + [data[k]];
      MaskTextSnoc(m, data[j..k], data[k]);
      line := line + [ApplyMask(m, data[k])];
      k := k + 1;
    }
    if k == |data| {
      return Err(Truncated);
    }
    r := Ok((line + "-", k + 1));
  }

  /** Lines 168-345 for one band. */
  method ProcessBand(data: string, j: nat, pixelRow: int, colorPrev: string,
                     x: int, y: int, w: Option<int>, h: Option<int>) returns (r: Result<BandEnd>)
    requires j < |data|
    ensures r == BandBody(data, j, pixelRow, colorPrev, x, y, w, h)
  {
    if data[j] == '-' {
      return Ok(Done([], colorPrev, j + 1));
    }
    if pixelRow < y - 6 {
      var k := ScanWhile(data, j + 1, NotNewlineOrEsc);
      if k == |data| {
        return Err(Truncated);
      }
      if data[k] == ESC {
        return Ok(Halt([]));
      }
      return Ok(Done([], colorPrev, k + 1));
    }
    if w.None? {
      var copied := CopyMasked(data, j, HeightMask(pixelRow, y, h));
      if copied.Err? {
        return Err(copied.fault);
      }
      return Ok(Done(copied.value.0, colorPrev, copied.value.1));
    }
    if h.Some? && h.value != 0 {
      r := CropBand(data, j, colorPrev, Window(x, y, w.value, h.value, pixelRow));
      return;
    }
    r := Ok(Done([], colorPrev, j + 1));
  }
}
