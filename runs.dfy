/** Horizontal cropping of one run of sixels: a sixel character repeated
    `repeats` times (`!repeats` followed by the character, or the bare
    character for one) that starts at pixel column `pixelCol`, against the
    window columns [x, x + w). */
module Runs {

  function Min(a: int, b: int): int { if a <= b then a else b }
  function Max(a: int, b: int): int { if a >= b then a else b }

  /** How many columns [a, b) and [c, d) have in common. */
  function Overlap(a: int, b: int, c: int, d: int): (n: int)
    ensures n >= 0
    ensures n > 0 <==> (a < d && c < b && a < b && c < d)
  {
    Max(0, Min(b, d) - Max(a, c))
  }

  /** Lines 260-276: the repeat count written out for a run. It never exceeds
      the original count nor the window width, and for a run that meets the
      window it is exactly the number of window columns the run covers. */
  function ClipRepeat(pixelCol: int, repeats: int, x: int, w: int): (n: int)
    ensures n <= repeats && n <= w
    ensures Overlap(pixelCol, pixelCol + repeats, x, x + w) > 0 ==>
              n == Overlap(pixelCol, pixelCol + repeats, x, x + w)
  {
    var n :=
      if x < pixelCol + repeats < x + w then Min(pixelCol + repeats - x, repeats)
      else if x + w < pixelCol + repeats then Min(repeats, x + w - pixelCol)
      else repeats;
    Min(n, w)
  }

  /** Lines 306-310: the run is written out. */
  predicate Emits(clipped: int, repeats: int, pixelCol: int, x: int, w: int)
  {
    clipped != 0 && x < pixelCol + repeats && pixelCol + clipped <= x + w
  }

  /** While the cursor is left of the window's right edge (which the skip at
      lines 338-342 guarantees), a run is written out exactly when it meets
      the window, and then with exactly the columns it has in the window. */
  lemma EmitsIffOverlap(pixelCol: int, repeats: int, x: int, w: int)
    requires 0 <= repeats && 0 <= w && pixelCol < x + w
    ensures Emits(ClipRepeat(pixelCol, repeats, x, w), repeats, pixelCol, x, w) <==>
              Overlap(pixelCol, pixelCol + repeats, x, x + w) > 0
  {
  }

  function Sum(runs: seq<nat>): nat
  {
    if runs == [] then 0 else runs[0] + Sum(runs[1..])
  }

  /** The number of columns the x-crop loop (lines 231-342) writes out for a
      band made of runs of the given lengths starting at column `pixelCol`:
      each run contributes its clipped count when it is emitted, and once the
      cursor reaches the window's right edge the rest of the band is skipped. */
  function Covered(runs: seq<nat>, pixelCol: int, x: int, w: int): int
  {
    if runs == [] || pixelCol >= x + w then 0
    else
      var n := ClipRepeat(pixelCol, runs[0], x, w);
      (if Emits(n, runs[0], pixelCol, x, w) then n else 0) +
      Covered(runs[1..], pixelCol + runs[0], x, w)
  }

  /** The runs written out tile the part of the window the band spans:
      together they cover exactly the columns that [pixelCol, pixelCol + the
      band's width) shares with the window, with no gap and no overlap. */
  lemma {:induction false} ClippedRunsTile(runs: seq<nat>, pixelCol: int, x: int, w: int)
    requires 0 <= w
    ensures Covered(runs, pixelCol, x, w) == Overlap(pixelCol, pixelCol + Sum(runs), x, x + w)
    decreases |runs|
  {
    if runs != [] && pixelCol < x + w {
      EmitsIffOverlap(pixelCol, runs[0], x, w);
      ClippedRunsTile(runs[1..], pixelCol + runs[0], x, w);
      OverlapSplits(pixelCol, pixelCol + runs[0], pixelCol + Sum(runs), x, x + w);
    }
  }

  /** Cutting an interval in two cuts its overlap with another in two. */
  lemma OverlapSplits(a: int, b: int, c: int, lo: int, hi: int)
    requires a <= b <= c && lo <= hi
    ensures Overlap(a, b, lo, hi) + Overlap(b, c, lo, hi) == Overlap(a, c, lo, hi)
  {
  }

  /** A row band that starts at column 0 and reaches past the window's
      right edge gets exactly `w` columns written out. */
  lemma FullBandWidth(runs: seq<nat>, x: int, w: int)
    requires 0 <= x && 0 <= w && Sum(runs) >= x + w
    ensures Covered(runs, 0, x, w) == w
  {
    ClippedRunsTile(runs, 0, x, w);
  }

  /** What lines 314-321 leave behind when a run is written out. */
  datatype Emitted = Emitted(line: string, colorPrev: string)

  /** Lines 314-321: the first text of a band is the carried colour
      selection; a colour selection is written only when it differs from the
      carried one, which it then replaces; then the run itself. */
  function AppendRun(line: string, colorPrev: string, color: string, repeatText: string, c: char)
    : (r: Emitted)
    ensures r.colorPrev == color
    ensures |r.line| == |if line == [] then colorPrev else line|
                        + (if color != colorPrev then |color| else 0) + |repeatText| + 1
    ensures line != [] ==> r.line[..|line|] == line
    ensures line == [] ==> r.line[..|colorPrev|] == colorPrev
    ensures r.line[|r.line| - |repeatText| - 1..] == repeatText + [c]
    ensures color != colorPrev ==>
              r.line[|r.line| - |repeatText| - 1 - |color|..|r.line| - |repeatText| - 1] == color
  {
    var l := if line == [] then line + colorPrev else line;
    if color != colorPrev then Emitted(l + color + repeatText + [c], color)
    else Emitted(l + repeatText + [c], colorPrev)
  }
}
