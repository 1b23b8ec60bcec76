# sixelcrop in Dafny

A model of `sixelcrop(data, x, y, w, h)`, the Sixel crop transcoder of
`sixelcrop/__init__.py`, with proofs about it. The transcoder crops a DEC
Sixel image to the window of pixel columns `[x, x + w)` and pixel rows
`[y, y + h)`. It works on the encoded text in one left-to-right pass and
never decodes pixels. The pass does the following:

- It drops everything before the first `ESC P`. Without one, the result is empty.
- It copies the DCS introducer `ESC P P1;P2;P3 q`, with P2 forced to `1` when it is empty.
- It reads the raster attributes `"Pan;Pad;Pw;Ph`. A window width or height the caller
  left out (`None`) is taken from `Pw - x` and `Ph - y`. Pw and Ph are then rewritten to
  the window's width and its band-aligned height.
- It writes the palette definitions (`#Pc;Pu;Px;Py;Pz`) at the start of each row band,
  and it remembers the last colour selection (`#Pc`).
- It handles each six-pixel row band in one of five ways:
  - a band above the window is skipped;
  - when only the height is cropped, a band is copied, and the window's top and
    bottom edge bands are bit-masked;
  - when a width and a non-zero height are known, a band is cropped run by run: `!n` repeat counts are
    clipped to the window columns, runs outside it are dropped, and the carried
    colour selection is written before the band's first run;
  - with a width but no (or a zero) height, the pass reads a single character as the
    band and writes nothing (line 220);
  - a band is written out only when it overlaps the window rows.
- It ends with the string terminator `ESC \` once the band at the window's bottom edge
  has been handled, when the input's own `ESC \` is reached, or when an `ESC` directly
  follows a run in a cropped band (lines 327-333).
- An `ESC` met while a band above the window is skipped ends the output with nothing
  more, not even `ESC \` (line 177).
- An `ESC` read where a command starts in a cropped band (at the band's start, after `$`
  or after a colour selection) only ends that band's loop (line 231). It is written as the
  band's last character in place of `-` (line 345), and the transcode goes on after it.
- Two other `ESC`s in a cropped band do neither:
  - once the column is at or past the window's right edge, the rest of the band is
    skipped up to the next `-` or `$` (lines 338-342), so an `ESC` there is dropped and
    the band ends at its `-`;
  - an `ESC` right after `!` and its digits is read as that run's sixel (lines 253-258)
    and is written as such when the run is kept (line 321).

## Structure

- The loops of the generator `_crop` are specification functions over the read cursor:
  `Header.DcsFrom`, `Header.RasterFrom`, `Colors.ColorsFrom`, `Crop.CropLoop` and
  `Transcoder.Run`.
  - Each loop is also an imperative method with a `while` loop, proved equal to its
    function. Examples are `Header.ScanDcsParams`, `Colors.CollectColors`,
    `Crop.CropBand` and `Transcoder.Transcode`.
  - Where the source edits a list in place (`params[p] += char`, `params.append("")`,
    `params[3] = ...`), the method does the same on a `seq`.
- Every Python exception the generator can raise on the inputs the model covers becomes
  an `Err` carrying a `Fault` (Python's limit on the digits of `int()` and `str()` is the
  exception; see "## Left out").
  There are three exception kinds and four faults:
  - `IndexError` from `data[i]` past the end of the input: `Truncated`;
  - `IndexError` from `params[p]` with `p == 3`, at line 78: `ExtraParameter`;
  - `AssertionError` from the `assert` at line 96: `MissingQ`;
  - `ValueError` from `int("")` at lines 122 and 125: `EmptyDimension`.
- `Transcoder.Sixelcrop` is the whole function. `Transcoder.Transcode` is its
  imperative form, and `Examples.CropThreeColumns` works one image through it.

Modules:

- `Scan`: faults, characters, and the "read while" primitive.
- `Fields`: `;`-separated fields and `";".join`.
- `Numbers`: `int()` and `str()`.
- `Mask`: the 6-bit masks.
- `Header`: the DCS and raster parameters.
- `Colors`: the colour loop at a band's start.
- `Runs`: repeat clipping and run emission.
- `Crop`: the x-crop loop over one band.
- `RunBand`: what the x-crop loop writes for a band made only of runs, stated without
  the loop: each run clipped to its columns in the window.
- `Band`: skip, copy or crop one band.
- `Transcoder`: the main loop.
- `Properties`: facts across steps.
- `Examples`: concrete transcodes.

The model follows the code where it departs from what a reader might expect:

- The rewritten raster attributes have at least four fields, not exactly four. A fifth
  or later field is kept.
- A fourth DCS parameter is an error only when it holds a digit: `1;2;3;q` is accepted.
- After a palette definition the colour loop restarts at the next character whatever it
  is. So a sixel written right after a definition is taken as a colour selection
  (`Colors.DefinitionSwallowsNextSixel`).
- When the window's top is a band boundary, the band just above it (`pixel_row == y - 6`)
  is still x-cropped though it is never written. Line 318 can there reset the carried
  colour to `""`, and the window's first band is then written without a colour
  selection (`Examples.FirstBandWithoutColor`).
- The height-only copy masks the bottom band only when `pixel_row > 0`. The x-crop does
  not have that condition, and it applies only the top mask to a band that holds both
  edges (`Band.HeightMask`, `Crop.CropMask`).
- An `ESC` read right after a run in a cropped band drops the band's text built so far and
  ends the output with `ESC \` (lines 327-333). Read where a command starts (at the band's
  start, after `$` or after a colour selection), it is kept as the band's last character
  and the main loop goes on after it (lines 231 and 345). An `ESC` in the skipped rest of
  a band, past the window's right edge, is dropped (lines 338-342); an `ESC` right after
  `!` and its digits is the run's sixel (lines 253-258 and 321).
- An `ESC` in a skipped band ends the output without the string terminator (line 177).

## Model

| member | source | states |
|---|---|---|
| Scan.SpanEnd | sixelcrop/__init__.py:255-258 | a "read while" loop stops at the first character outside the set, or at the end of the input; every character it passed is in the set |
| Scan.ScanWhile | sixelcrop/__init__.py:237-240 | the imperative read-while loop stops where `SpanEnd` says |
| Fields.AddCharInPlace | sixelcrop/__init__.py:112-116 | reading one character into the field list is `append("")` for `;` and `params[-1] += c` otherwise, and it keeps every field a run of digits |
| Fields.JoinSplit | sixelcrop/__init__.py:112-118 | joining with `;` the fields a run was cut into gives the run back |
| Fields.SplitJoin | sixelcrop/__init__.py:135 | cutting `";".join(f)` at its `;` gives `f` back when no field holds a `;` |
| Fields.SplitNoSemicolon | sixelcrop/__init__.py:112-118 | a run without `;` is one field |
| Numbers.NatToString | sixelcrop/__init__.py:131-133 | `str(n)` of a natural number is a non-empty run of digits |
| Numbers.NatToStringReadsBack | sixelcrop/__init__.py:131-133 | `int(str(n)) == n`, and `str(n)` has no leading zero |
| Numbers.IntToString | sixelcrop/__init__.py:131-133 | `str(n)` holds no `;`, and starts with `-` exactly when `n < 0` |
| Numbers.IntToStringReadsBack | sixelcrop/__init__.py:131-133 | the digits of `str(n)` read back as `abs(n)` |
| Mask.BitAnd | sixelcrop/__init__.py:191 | `a & b` is at most each operand |
| Mask.BitOfAnd | sixelcrop/__init__.py:191 | bit `k` of `a & b` is set exactly when it is set in both |
| Mask.BitOfLowOnes | sixelcrop/__init__.py:204 | `2**n - 1` has exactly the bits below `n` set |
| Mask.BitOfComplement | sixelcrop/__init__.py:191 | subtracting `v` from `2**j - 1` flips each of the low `j` bits of `v` |
| Mask.TopOperand | sixelcrop/__init__.py:191 | `63 - (2**n - 1)` fits in six bits |
| Mask.BottomOperand | sixelcrop/__init__.py:204 | `2**n - 1` fits in six bits |
| Mask.TopOperandBits | sixelcrop/__init__.py:191 | `63 - (2**n - 1)` has exactly bits `[n, 6)` set |
| Mask.TopMask | sixelcrop/__init__.py:190-191 | a character below 63 is unchanged; a sixel stays in 63..126 and keeps exactly its pixel rows `[n, 6)` |
| Mask.BottomMask | sixelcrop/__init__.py:203-204 | a character below 63 is unchanged; a sixel stays in 63..126 and keeps exactly its pixel rows `[0, n)` |
| Mask.ApplyMask | sixelcrop/__init__.py:294-302 | no mask changes nothing, and no mask changes a character below 63 |
| Mask.MaskText | sixelcrop/__init__.py:187-195 | a masked text has the same length and each character masked in place |
| Header.DcsFrom | sixelcrop/__init__.py:74-80 | the DCS parameter loop, from any point: on success it stops just after a character that is neither a digit nor `;`, with three fields of digits |
| Header.DcsParams | sixelcrop/__init__.py:70-80 | the DCS parameter loop from three empty parameters: the same guarantees |
| Header.DcsStep | sixelcrop/__init__.py:75-78 | one `;` or digit keeps `params` equal to the first three fields read so far and `p` the index of the open field |
| Header.DcsExtraField | sixelcrop/__init__.py:78 | a digit read into the fourth or a later field makes the scan an `ExtraParameter` error |
| Header.DcsParamsSpan | sixelcrop/__init__.py:70-80 | the character loop agrees with the whole-run statement `DcsSpan`: `ExtraParameter` exactly when a fourth or later field holds a digit; otherwise `Truncated` when the run reaches the end; otherwise the run's first three fields and the character after the run |
| Header.ScanDcsParams | sixelcrop/__init__.py:70-80 | the imperative loop with `params[p] += char` computes `DcsParams` |
| Header.DcsHeaderText | sixelcrop/__init__.py:88-93 | the written parameters read back as exactly three fields, P1 and P3 unchanged and P2 forced to "1" when it was empty |
| Header.RasterFrom | sixelcrop/__init__.py:112-118 | the raster parameter loop, from any point: on success it stops just after a character that is neither a digit nor `;`, with fields of digits |
| Header.RasterParams | sixelcrop/__init__.py:109-118 | the raster parameter loop from one empty field: the same guarantees |
| Header.RasterParamsSpan | sixelcrop/__init__.py:109-118 | the loop equals the whole-run statement `RasterSpan` (`Truncated` when the run reaches the end, its fields otherwise), and the fields joined with `;` give the run back |
| Header.ScanRasterParams | sixelcrop/__init__.py:109-118 | the imperative loop with `append("")` and `params[-1] += char` computes `RasterParams` |
| Header.PadTo4 | sixelcrop/__init__.py:127-128 | padding gives `max(4, n)` fields; each old field is kept and each new one is empty |
| Header.PadParams | sixelcrop/__init__.py:127-128 | the imperative padding loop computes `PadTo4` |
| Header.RewriteFields | sixelcrop/__init__.py:127-133 | after padding, Pw becomes `str(w)` and Ph `str(h + y % 6)` when they are known; every other field passes through |
| Header.Dimension | sixelcrop/__init__.py:119-125 | a given dimension is kept; a missing one becomes `int(field) - offset` when the field exists; an empty field fails with `EmptyDimension` and nothing else fails |
| Header.ResolveRaster | sixelcrop/__init__.py:119-133 | width and height resolve as `Dimension` says, it fails exactly when one of them fails, and the fields are rewritten with the resolved values |
| Header.RewriteRaster | sixelcrop/__init__.py:119-133 | the imperative assignments to `w`, `h` and `params` compute `ResolveRaster` |
| Header.RasterTextFields | sixelcrop/__init__.py:130-135 | the written raster text reads back as the rewritten fields, `max(4, n)` of them, and its third field reads back as a non-negative window width |
| Colors.ColorsFrom | sixelcrop/__init__.py:141-166 | on success the loop stops at a character that is neither `#` nor a digit nor `;`; what it writes extends the palette text; the remembered selection is the `;`-free command just before the stop; only truncation fails |
| Colors.CollectColors | sixelcrop/__init__.py:141-166 | the imperative colour loop computes `ColorsFrom` |
| Colors.Commands | sixelcrop/__init__.py:145-151 | a text cut into commands, each the character at the cursor and the digits and `;` after it; empty exactly for the empty text |
| Colors.CommandsConcat | sixelcrop/__init__.py:145-151 | the commands written one after the other give the text back; each command after the first starts with a character other than a digit or `;`, all later characters of a command are digits or `;` |
| Colors.ColorsFromRun | sixelcrop/__init__.py:141-166 | a colour loop that succeeds has read a `ColorRun`: the last command is a selection, every earlier command is a definition or is followed by `#`, the stop character is neither `#` nor a digit nor `;`; the palette written is exactly the definitions among the commands, in order (no selection is written), and the carried colour is the last command |
| Colors.RunColorsFrom | sixelcrop/__init__.py:141-166 | conversely, any `ColorRun` from the loop's start is what the loop reads, with that palette and that carried colour |
| Colors.ColorsFromRunIff | sixelcrop/__init__.py:141-166 | the loop succeeds exactly when a `ColorRun` starts where it is entered, and then its result is the closed form at that run's end; so it fails (truncation) exactly when none does |
| Colors.DefineThenSelect | sixelcrop/__init__.py:141-166 | `#0;2;0;0;0#0~` writes the definition and remembers `#0` |
| Colors.DefinitionSwallowsNextSixel | sixelcrop/__init__.py:155-157 | in `#1;2;3;4;5~#7-` the `~` after the definition is read as a command |
| Runs.Overlap | sixelcrop/__init__.py:264-276 | two column ranges overlap by a positive amount exactly when they meet |
| Runs.ClipRepeat | sixelcrop/__init__.py:260-276 | the clipped count is at most the original count and at most `w`, and for a run that meets the window it is exactly the number of window columns the run covers |
| Runs.EmitsIffOverlap | sixelcrop/__init__.py:306-310 | left of the window's right edge, a run is written exactly when it meets the window |
| Runs.ClippedRunsTile | sixelcrop/__init__.py:264-342 | `Covered`, the count of columns written for runs of the given lengths, equals the window columns the band spans: no gap, no overlap; `RunBand.WrittenCovered` ties it to the runs the x-crop loop writes for a band of runs |
| Runs.FullBandWidth | sixelcrop/__init__.py:264-342 | for a band from column 0 that reaches past the window's right edge, `Covered` is exactly `w`, and by `RunBand.WrittenCovered` so are the columns the loop writes for a band of runs |
| Runs.AppendRun | sixelcrop/__init__.py:314-321 | a band's text starts with the carried colour; a selection is written only when it differs from the carried one, and it then becomes the carried one; the run's repeat text and sixel come last |
| Crop.CropMask | sixelcrop/__init__.py:221-222 | the x-crop masks the band holding the window's top edge by `y - pixel_row` rows; only otherwise does it mask the band holding the bottom edge, by `y + h - pixel_row` rows |
| Crop.CropMaskRows | sixelcrop/__init__.py:292-302 | pixel row `pixel_row + k` of a sixel survives unless it lies above the window in the top band, or at or below its bottom edge in the bottom band |
| Crop.ReadColor | sixelcrop/__init__.py:235-241 | a selection inside a band is the longest run of `#` and digits (no `;`) and becomes the current colour |
| Crop.ReadRepeat | sixelcrop/__init__.py:245-279 | a bare character is a run of one written bare; `!` and its digits (none meaning 1) give the count, which is written back clipped |
| Crop.ScanRepeat | sixelcrop/__init__.py:245-279 | the imperative repeat read computes `ReadRepeat` |
| Crop.PlaceRun | sixelcrop/__init__.py:292-342 | the column always advances by the original count; the text grows by `AppendRun` with the masked sixel exactly when the run is written; while the column is left of the right edge the loop resumes right after the run, and past it the cursor skips to the first `-` or `$` after the run; an `ESC` after a run ends the output with `ESC \`; only truncation fails, when no `-` or `$` follows |
| Crop.StepRun | sixelcrop/__init__.py:292-342 | the imperative run step computes `PlaceRun` |
| Crop.CropToken | sixelcrop/__init__.py:233-342 | one command moves the cursor forward and never takes text back; `$` is copied and resets the column to 0; a bare character is a run of one |
| Crop.StepCrop | sixelcrop/__init__.py:233-342 | the imperative command step computes `CropToken` |
| Crop.CropLoop | sixelcrop/__init__.py:231-345 | the band's text ends with the `-` or `ESC` that ended the band and extends the text kept so far; a return ends with `ESC \`; for a band made only of runs the text is given in closed form by `RunBand.CroppedBandOfRuns` |
| Crop.CropBand | sixelcrop/__init__.py:220-345 | the imperative x-crop loop computes `CropLoop` from an empty band at column 0 |
| RunBand.WrittenRunColumns | sixelcrop/__init__.py:260-321 | a run written out covers exactly the columns it has in the window, and a run with none is not written |
| RunBand.WrittenColumns | sixelcrop/__init__.py:231-342 | the columns of the runs written for a band add up to the columns `[pixel_col, pixel_col + the band's width)` shares with the window |
| RunBand.WrittenCovered | sixelcrop/__init__.py:231-342 | the same count equals `Covered` over the runs' lengths, which ties `Runs.ClippedRunsTile` and `Runs.FullBandWidth` to what is written |
| RunBand.RunsEnd | sixelcrop/__init__.py:338-342 | from any run of a band of runs, the skip to the band's end stops at the band's `-` |
| RunBand.RunToken | sixelcrop/__init__.py:245-279 | a run written in the input, bare or with `!` and digits, is read with its original count and its clipped count as `RunRepeat` gives them, and its sixel is the run's character |
| RunBand.RunPlaced | sixelcrop/__init__.py:292-342 | one run of a band of runs moves the cursor as `After` says: past the run's columns, with the run written when it has columns in the window; the loop resumes at the next run while left of the right edge and at the band's `-` once past it |
| RunBand.KeptStep | sixelcrop/__init__.py:314-321 | the band text kept after a band's runs is the text kept after its first run followed by the rest's, and so is the carried colour |
| RunBand.CropLoopRuns | sixelcrop/__init__.py:231-345 | from any cursor left of the window's right edge, on a band made of runs, the loop ends at the band's `-`, keeping the `Written` runs after the carried colour selection when any run is written |
| RunBand.CroppedBandOfRuns | sixelcrop/__init__.py:220-345 | from the start of a band made of runs, the x-crop loop writes the carried selection and the `Written` runs, each clipped to its window columns, then `-`; with nothing written the band is just `-` and the selection is carried on; otherwise no selection is carried |
| Band.HeightMask | sixelcrop/__init__.py:185-199 | the height-only copy masks the top edge band by `y - pixel_row` rows and, only below the first band, the bottom edge band by `y + h - pixel_row` rows |
| Band.CopyBand | sixelcrop/__init__.py:184-216 | the copy ends at the band's `-`, keeps it, and masks every character before it; with no `-` left it is a truncation |
| Band.CopyBandKeeps | sixelcrop/__init__.py:210-216 | copying without a mask gives the band's text unchanged |
| Band.CopyMasked | sixelcrop/__init__.py:184-216 | the imperative copy loop computes `CopyBand` |
| Band.SkipBand | sixelcrop/__init__.py:172-178 | a band above the window writes nothing and ends after its `-`; an `ESC` met first ends the output with nothing more |
| Band.BandBody | sixelcrop/__init__.py:169-345 | an empty band writes nothing; a band above the window writes nothing; the height-only copy keeps the carried colour; the cursor only moves forward |
| Band.ProcessBand | sixelcrop/__init__.py:169-345 | the imperative band step computes `BandBody` |
| Transcoder.FindDcs | sixelcrop/__init__.py:48-50 | `find` gives the first `ESC P` at or after the start, or none when there is none |
| Transcoder.EscapeStep | sixelcrop/__init__.py:61-103 | `ESC P` writes `ESC P`, the rewritten parameters and `q`, and fails with `MissingQ` when the parameters end otherwise; `ESC \` ends the output with `ESC \`; any other escape writes `ESC` and skips a character |
| Transcoder.RasterStep | sixelcrop/__init__.py:106-135 | the raster command writes `"` and more, changes only `w`, `h` and the output, and stops at the character that ended its parameters |
| Transcoder.RasterWrite | sixelcrop/__init__.py:119-135 | writing the resolved raster fails exactly when `ResolveRaster` does, and changes only `w`, `h` and the output |
| Transcoder.RasterWriteOk | sixelcrop/__init__.py:119-135 | when both dimensions resolve, the raster step writes `"` and the rewritten fields joined with `;`, takes the resolved `w` and `h`, and resumes at the character that ended the parameters |
| Transcoder.ColorStep | sixelcrop/__init__.py:141-166 | without a `#` nothing happens; otherwise the palette definitions are written and the last selection is carried |
| Transcoder.OpenBand | sixelcrop/__init__.py:105-166 | the band's opening commands only add output and leave the cursor and pixel row alone |
| Transcoder.EndBand | sixelcrop/__init__.py:347-358 | for a window of positive height, the band's text is written exactly when its six pixel rows overlap the window's rows (`MeetsWindow`), and the output ends with `ESC \` exactly when no later band can overlap them (`LaterBandsMiss`); for a negative height the band is written exactly when it holds every row from `y + h - 1` to `y` (`HoldsRows`), and the output ends exactly when no later band starts above row `y + h` (`LaterBandsBelow`); without a truthy `h` nothing is written and the pass goes on; a pass that goes on moves the pixel row down by 6 and changes nothing else |
| Transcoder.LaterBandsMissIff | sixelcrop/__init__.py:352-355 | for a positive height, no band after the one at `pixel_row` meets the window exactly when `pixel_row + 6 >= y + h`, the test the code makes |
| Transcoder.HoldsRowsIff | sixelcrop/__init__.py:348 | a band holds every row of a non-empty range exactly when it holds both ends, so for a negative height the test `y - 6 < pixel_row < y + h` says the band holds rows `y + h - 1` to `y` |
| Transcoder.LaterBandsBelowIff | sixelcrop/__init__.py:352-355 | no band after the one at `pixel_row` starts above a given row exactly when the next one does not, so the code's `pixel_row >= y + h` test says no later band starts above row `y + h` |
| Transcoder.MainStep | sixelcrop/__init__.py:56-358 | each pass reads at least one character and never takes output back; at the end of the input it is a truncation |
| Transcoder.BandStep | sixelcrop/__init__.py:105-358 | a pass that starts on anything but `ESC` reads at least one character and never takes output back |
| Transcoder.BandResult | sixelcrop/__init__.py:168-358 | a band that has been opened ends past its first character and never takes output back |
| Transcoder.Run | sixelcrop/__init__.py:56-358 | the finished output extends everything written so far |
| Transcoder.Sixelcrop | sixelcrop/__init__.py:11-54 | input with no `ESC P` gives the empty string, and otherwise the result is the main loop run from the first `ESC P` (the join at line 360 is the returned string); `Properties.NoImageNoOutput`, `Properties.LeadingTextIgnored` and `Properties.HeaderFirst` state what follows for the caller |
| Transcoder.Escape | sixelcrop/__init__.py:61-103 | the imperative escape handling computes `EscapeStep` |
| Transcoder.Raster | sixelcrop/__init__.py:106-135 | the imperative raster handling computes `RasterStep` |
| Transcoder.WriteRaster | sixelcrop/__init__.py:119-135 | the imperative raster rewrite computes `RasterWrite` |
| Transcoder.ColorCommands | sixelcrop/__init__.py:141-166 | the imperative colour handling computes `ColorStep` |
| Transcoder.Open | sixelcrop/__init__.py:105-166 | the imperative band opening computes `OpenBand` |
| Transcoder.CloseBand | sixelcrop/__init__.py:347-358 | the imperative band end computes `EndBand` |
| Transcoder.ProcessLine | sixelcrop/__init__.py:105-358 | the imperative pass over one band computes `MainStep` |
| Transcoder.Advance | sixelcrop/__init__.py:56-358 | the imperative pass of the main loop computes `MainStep` |
| Transcoder.Transcode | sixelcrop/__init__.py:47-360 | the imperative transcoder computes `Sixelcrop` |
| Properties.FindDcsFirst | sixelcrop/__init__.py:49 | `find` returns the first `ESC P` |
| Properties.NoImageNoOutput | sixelcrop/__init__.py:47-54 | input without `ESC P` gives the empty string |
| Properties.LeadingTextIgnored | sixelcrop/__init__.py:47-54 | text before the image's `ESC P` does not change the result |
| Properties.HeaderFirst | sixelcrop/__init__.py:65-97 | a successful transcode starts with `ESC P`, the parameters with P2 defaulted, and `q` |
| Properties.InnerBandCopied | sixelcrop/__init__.py:210-216 | in the height-only crop, a band holding neither window edge is copied unchanged up to its `-` |
| Examples.ImageHeader | sixelcrop/__init__.py:61-97 | `ESC P q` becomes `ESC P ;1; q` |
| Examples.ImageRasterFields | sixelcrop/__init__.py:109-118 | `"1;1;6;6` is read as four fields |
| Examples.ImageRasterResolved | sixelcrop/__init__.py:119-133 | a 3 x 6 window at the origin turns `1;1;6;6` into `1;1;3;6` |
| Examples.ImageRaster | sixelcrop/__init__.py:106-135 | the raster command of the example image is written as `"1;1;3;6` |
| Examples.ImagePalette | sixelcrop/__init__.py:155-157 | the example's palette definition is written |
| Examples.ImageSelection | sixelcrop/__init__.py:159-166 | the example's selection `#0` is remembered, and the band follows |
| Examples.ImageColors | sixelcrop/__init__.py:141-166 | the definition is written and `#0` is carried into the band |
| Examples.ImageOpen | sixelcrop/__init__.py:105-166 | the example's raster and colour commands together |
| Examples.ImageFirstSixel | sixelcrop/__init__.py:314-321 | the band's first written run is preceded by the carried `#0` |
| Examples.ImageSecondSixel | sixelcrop/__init__.py:317-321 | an unchanged colour is not written again |
| Examples.ImageThirdSixel | sixelcrop/__init__.py:338-342 | at the right edge the rest of the band is skipped to its `-` |
| Examples.ImageBand | sixelcrop/__init__.py:220-345 | the example band is cropped to `#0~~~-` |
| Examples.ImageOnlyBand | sixelcrop/__init__.py:56-358 | the main loop's pass over the example band ends the output |
| Examples.ImageEnd | sixelcrop/__init__.py:347-355 | the band in the window is written and then `ESC \` |
| Examples.CropThreeColumns | sixelcrop/__init__.py:47-360 | cropping the 6 x 6 one-colour image to 3 x 6 gives the header with P2 set, `"1;1;3;6`, the palette, `#0~~~-` and `ESC \` |
| Examples.HiddenBandSixel | sixelcrop/__init__.py:314-321 | in the band just above a band-aligned window, the first run writes the carried colour |
| Examples.HiddenBandLoop | sixelcrop/__init__.py:231-345 | that band is cropped and resets the carried colour to `""` |
| Examples.HiddenBandTakesColor | sixelcrop/__init__.py:317-319 | the band above the window resets the carried colour |
| Examples.HiddenBandNotWritten | sixelcrop/__init__.py:348 | that band is not written |
| Examples.FirstBandSixel | sixelcrop/__init__.py:314-315 | the window's first band then starts with no colour selection |
| Examples.FirstBandLoop | sixelcrop/__init__.py:231-345 | the window's first band is cropped without a colour selection |
| Examples.FirstBandWithoutColor | sixelcrop/__init__.py:314-321 | the window's first band is written without any colour selection |

## Left out

- `cli()` (lines 363-408) is not part of this model: argument parsing, file and standard-input reading, and writing to standard output are I/O.
- The generator's laziness is not modelled. `yield` and `yield from` are appends to the output string, which `Transcoder.Sixelcrop` returns whole as line 360 joins it.
- Exceptions are modelled as `Err` results, which drop the partial output. The caller of `sixelcrop` never sees partial output either, since line 360 joins only a finished generator. Python's three exception kinds map onto the four `Fault` values: `IndexError` onto `Truncated` and `ExtraParameter`, `AssertionError` onto `MissingQ`, `ValueError` onto `EmptyDimension`.
- Python's limit on integer digits is not modelled. Since Python 3.11, `int()` of a digit string longer than 4300 characters raises `ValueError`, and so does `str()` of such an integer. That affects lines 122, 125 and 256, and the `str()` calls that write dimensions and counts. The model reads and writes numbers of any length and returns `Ok` for these inputs.
- Strings are sequences of Unicode code points, as Python's are. Python's lone surrogate code points are not modelled.
- Windows partly or fully outside the declared raster, including negative `w` or `h`, get no precondition and no clamping. The model computes what the code computes, `str()` of negative numbers included.
- Pixel decoding is not modelled, so whole-image statements about decoded pixels (for example, that cropping to the full raster leaves the pixels unchanged) are not stated. Masking is stated bit by bit per sixel, and clipping column by column per band.
- Transcoder.MainStep: its contract states progress and that output is never taken back. The output of a whole pass is given by the functions it is built from, one contract per part.
- RunBand.CroppedBandOfRuns: stated only for a band written as a sequence of runs, each a sixel or `!`, digits and a sixel. A band with a colour selection, a `$` or an `ESC` inside is covered only by the step contracts of `Crop.CropToken` and `Crop.PlaceRun`. The lemma also asks for `0 <= w` and `0 < x + w`, and so does `RunBand.CropLoopRuns` for `0 <= w`. With the window's right edge at or left of column 0, the model still computes what the loop does (the first run is placed and the rest of the band skipped), but no lemma states it in closed form. With a negative width the source can write a run such as `!-1~`; the model computes that too, but neither closed form covers it.
- RunBand.CropLoopRuns: a band's text is not proved to be cut into runs in exactly one way. The lemmas start from a band given as runs (`RunsAt`).
- Crop.CropLoop: outside bands made only of runs, its contract states only that the band text extends the kept text and ends at the band's end. Which runs and columns are written is stated run by run by `Crop.PlaceRun`.
- Runs.ClippedRunsTile: tied to the columns the loop writes only for bands made only of runs, through `RunBand.WrittenCovered`.
- Runs.FullBandWidth: tied to the columns the loop writes only for bands made only of runs, through `RunBand.WrittenCovered`.
- Transcoder.BandStep: like `Transcoder.MainStep`, its contract states progress and that output is never taken back; the output is given by `Transcoder.OpenBand`, `Band.BandBody` and `Transcoder.EndBand`.
- Transcoder.BandResult: its contract states progress and that output is never taken back; the output is given by `Band.BandBody` and `Transcoder.EndBand`.
