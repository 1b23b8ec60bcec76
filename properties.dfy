/** Properties of the whole transcode that relate several of its steps. */
module Properties {
  import opened Scan
  import opened Header
  import opened Mask
  import opened Crop
  import opened Band
  import opened Transcoder

  /** `find` returns the first `ESC P` at or after `from`. */
  lemma {:induction false} FindDcsFirst(data: string, from: nat, k: nat)
    requires from <= k && DcsAt(data, k)
    requires forall m :: from <= m < k ==> !DcsAt(data, m)
    ensures FindDcs(data, from) == Some(k)
    decreases k - from
  {
    if from < k {
      FindDcsFirst(data, from + 1, k);
    }
  }

  /** Lines 49-55: input without `ESC P` holds no image, and the result is
      empty. */
  lemma NoImageNoOutput(data: string, x: int, y: int, w: Option<int>, h: Option<int>)
    requires forall k :: 0 <= k < |data| ==> !DcsAt(data, k)
    ensures Sixelcrop(data, x, y, w, h) == Ok([])
  {
  }

  /** Lines 49-55: whatever comes before the image's `ESC P` is dropped;
      the transcode of the whole input is that of the image alone. */
  lemma LeadingTextIgnored(junk: string, image: string, x: int, y: int, w: Option<int>, h: Option<int>)
    requires DcsAt(image, 0)
    requires forall k :: 0 <= k < |junk| - 1 ==> !(junk[k] == ESC && junk[k + 1] == 'P')
    ensures Sixelcrop(junk + image, x, y, w, h) == Sixelcrop(image, x, y, w, h)
  {
    var data := junk + image;
    if junk != [] {
      assert data[|junk|..] == image;
      assert forall m :: 0 <= m < |junk| ==> !DcsAt(data, m) by {
        forall m | 0 <= m < |junk|
          ensures !DcsAt(data, m)
        {
          if m + 1 < |junk| {
            assert data[m] == junk[m] && data[m + 1] == junk[m + 1];
          } else {
            assert data[m + 1] == image[0] == ESC;
          }
        }
      }
      FindDcsFirst(data, 0, |junk|);
    } else {
      assert data == image;
    }
  }

  /** Lines 60-97: an image's output opens with its DCS introducer, `ESC P`
      and the parameters with P2 forced to "1" when it was left empty, then
      'q'. */
  lemma HeaderFirst(data: string, x: int, y: int, w: Option<int>, h: Option<int>)
    requires DcsAt(data, 0)
    requires Sixelcrop(data, x, y, w, h).Ok?
    ensures DcsParams(data, 2).Ok? && DcsParams(data, 2).value.term == 'q'
    ensures [ESC, 'P'] + DcsHeaderText(DcsParams(data, 2).value.params) + "q" <=
              Sixelcrop(data, x, y, w, h).value
  {
    var s := Start(w, h);
    var step := MainStep(data, s, x, y);
    assert step == EscapeStep(data, s);
    assert step.Ok? && step.value.Continue?;
    assert Run(data, s, x, y) == Run(data, step.value.s, x, y);
  }

  /** Lines 185-216: when only the height is cropped, a band that holds
      neither edge of the window is copied through unchanged, up to and
      including its '-'. */
  lemma InnerBandCopied(data: string, j: nat, pixelRow: int, colorPrev: string,
                        x: int, y: int, h: Option<int>)
    requires j < |data| && data[j] != '-'
    requires !(pixelRow < y - 6) && !(pixelRow < y < pixelRow + 6)
    requires !(h.Some? && pixelRow > 0 && pixelRow < y + h.value < pixelRow + 6)
    ensures var r := BandBody(data, j, pixelRow, colorPrev, x, y, None, h);
      r.Ok? ==> r.value.Done? && r.value.line == data[j..r.value.next] && data[r.value.next - 1] == '-'
  {
    assert HeightMask(pixelRow, y, h) == Keep;
    CopyBandKeeps(data, j);
  }
}
