/** A row band made only of runs (bare sixels and `!`-counted sixels, with
    no colour selection, graphics carriage return or `ESC`) and what the
    x-crop loop of lines 231-344 writes for it: every run that meets the
    window, clipped to the columns it has there, so that the columns
    written add up to the columns the band shares with the window. */
module RunBand {
  import opened Scan
  import opened Numbers
  import opened Mask
  import opened Runs
  import opened Crop

  /** A run as it is written in the input band: one sixel, or `!`, a count
      written in decimal (possibly empty, possibly with leading zeros) and
      a sixel. */
  datatype Run = Bare(c: char) | Rep(digits: string, c: char)

  /** The number of pixel columns a run covers: a count that is left out
      stands for 1. */
  function Length(r: Run): nat
  {
    if r.Bare? || r.digits == [] || !AllDigits(r.digits) then 1 else Decimal(r.digits)
  }

  function Lengths(runs: seq<Run>): (ls: seq<nat>)
    ensures |ls| == |runs|
  {
    if runs == [] then [] else [Length(runs[0])] + Lengths(runs[1..])
  }

  /** A run as the loop can read it: its character is a sixel character
      (code 63 or more) and its count is written in digits only. */
  predicate SixelRun(r: Run)
  {
    r.c as int >= 63 && (r.Rep? ==> AllDigits(r.digits))
  }

  /** The number of characters run `r` takes in the input. */
  function Size(r: Run): nat
  {
    if r.Bare? then 1 else |r.digits| + 2
  }

  /** Run `r`, one the loop can read, is written at `data[j]`: its sixel
      alone, or '!', its digits and its sixel. */
  predicate RunAt(data: string, j: nat, r: Run)
  {
    SixelRun(r) && j + Size(r) <= |data| &&
    match r
    case Bare(c) => data[j] == c
    case Rep(ds, c) =>
      data[j] == '!' && data[j + 1 + |ds|] == c &&
      forall m :: 0 <= m < |ds| ==> data[j + 1 + m] == ds[m]
  }

  /** The runs `runs` are written one after another from `data[j]`, and
      the band's '-' follows them at `e`. */
  predicate RunsAt(data: string, j: nat, runs: seq<Run>, e: nat)
    decreases |runs|
  {
    if runs == [] then j == e < |data| && data[e] == '-'
    else RunAt(data, j, runs[0]) && RunsAt(data, j + Size(runs[0]), runs[1..], e)
  }

  /** What follows a run in a band, at `k`: not `ESC`, and the band's '-'
      at `e` is the first '-' or '$' from there. */
  predicate NextAt(data: string, k: nat, e: nat)
  {
    k <= e < |data| && data[e] == '-' && data[k] != ESC && SpanEnd(data, k, NotRowEnd) == e
  }

  // ---------------------------------------------------------------------
  // What is written, independently of the loop

  /** A run as the loop writes it out: one sixel, or `!`, the count in
      decimal and a sixel. */
  datatype Piece = Single(c: char) | Counted(n: nat, c: char)

  /** The number of pixel columns a piece covers. */
  function Width(p: Piece): nat
  {
    if p.Single? then 1 else p.n
  }

  function Widths(ps: seq<Piece>): (ws: seq<nat>)
    ensures |ws| == |ps|
  {
    if ps == [] then [] else [Width(ps[0])] + Widths(ps[1..])
  }

  function PieceText(p: Piece): string
  {
    match p
    case Single(c) => [c]
    case Counted(n, c) => "!" + NatToString(n) + [c]
  }

  function PiecesText(ps: seq<Piece>): string
  {
    if ps == [] then [] else PieceText(ps[0]) + PiecesText(ps[1..])
  }

  /** The run written out for `r` at column `pixelCol`: nothing when it has
      no column in the window, otherwise the same form with its sixel masked
      and, when counted, the count of columns it has in the window. */
  function WrittenRun(r: Run, pixelCol: int, win: Window): (ws: seq<Piece>)
    ensures |ws| <= 1
  {
    var cols := Overlap(pixelCol, pixelCol + Length(r), win.x, win.x + win.w);
    var sixel := ApplyMask(CropMask(win.pixelRow, win.y, win.h), r.c);
    if cols == 0 then []
    else if r.Bare? then [Single(sixel)]
    else [Counted(cols, sixel)]
  }

  /** The runs written out for `runs` from column `pixelCol`, in order;
      nothing is written once the column reaches the window's right edge. */
  function Written(runs: seq<Run>, pixelCol: int, win: Window): seq<Piece>
    decreases |runs|
  {
    if runs == [] || pixelCol >= win.x + win.w then []
    else WrittenRun(runs[0], pixelCol, win) + Written(runs[1..], pixelCol + Length(runs[0]), win)
  }

  /** The columns written out add up to the columns that the band,
      [pixelCol, pixelCol + its width), shares with the window, which is
      also what `Covered` counts for the runs' lengths. */
  lemma WrittenColumns(runs: seq<Run>, pixelCol: int, win: Window)
    requires 0 <= win.w
    ensures Sum(Widths(Written(runs, pixelCol, win))) ==
              Overlap(pixelCol, pixelCol + Sum(Lengths(runs)), win.x, win.x + win.w)
  {
    WrittenWidths(runs, pixelCol, win);
    WindowColumnsSpan(runs, pixelCol, win);
  }

  /** The columns each run shares with the window, summed up to the run
      that starts at or past the window's right edge. */
  function WindowColumns(runs: seq<Run>, pixelCol: int, win: Window): int
    decreases |runs|
  {
    if runs == [] || pixelCol >= win.x + win.w then 0
    else Overlap(pixelCol, pixelCol + Length(runs[0]), win.x, win.x + win.w) +
         WindowColumns(runs[1..], pixelCol + Length(runs[0]), win)
  }

  lemma {:induction false} WrittenWidths(runs: seq<Run>, pixelCol: int, win: Window)
    ensures Sum(Widths(Written(runs, pixelCol, win))) == WindowColumns(runs, pixelCol, win)
    decreases |runs|
  {
    if runs != [] && pixelCol < win.x + win.w {
      WrittenWidths(runs[1..], pixelCol + Length(runs[0]), win);
      WrittenStep(runs, pixelCol, win);
    }
  }

  lemma {:induction false} WindowColumnsSpan(runs: seq<Run>, pixelCol: int, win: Window)
    requires 0 <= win.w
    ensures WindowColumns(runs, pixelCol, win) ==
              Overlap(pixelCol, pixelCol + Sum(Lengths(runs)), win.x, win.x + win.w)
    decreases |runs|
  {
    if runs == [] || pixelCol >= win.x + win.w {
      NothingWritten(runs, pixelCol, win);
    } else {
      WindowColumnsSpan(runs[1..], pixelCol + Length(runs[0]), win);
      LengthsStep(runs);
      OverlapSplits(pixelCol, pixelCol + Length(runs[0]),
                    pixelCol + Length(runs[0]) + Sum(Lengths(runs[1..])), win.x, win.x + win.w);
    }
  }

  /** Past the window's right edge, or with no runs left, nothing is written
      and the band shares no columns with the window. */
  lemma NothingWritten(runs: seq<Run>, pixelCol: int, win: Window)
    requires runs == [] || pixelCol >= win.x + win.w
    ensures Sum(Widths(Written(runs, pixelCol, win))) == 0
    ensures Overlap(pixelCol, pixelCol + Sum(Lengths(runs)), win.x, win.x + win.w) == 0
  {
  }

  lemma LengthsStep(runs: seq<Run>)
    requires runs != []
    ensures Sum(Lengths(runs)) == Length(runs[0]) + Sum(Lengths(runs[1..]))
  {
    assert Lengths(runs)[1..] == Lengths(runs[1..]);
  }

  /** The columns written for a band's runs: those of its first run, then
      those of the rest. */
  lemma WrittenStep(runs: seq<Run>, pixelCol: int, win: Window)
    requires runs != [] && pixelCol < win.x + win.w
    ensures Sum(Widths(Written(runs, pixelCol, win))) ==
              Overlap(pixelCol, pixelCol + Length(runs[0]), win.x, win.x + win.w) +
              Sum(Widths(Written(runs[1..], pixelCol + Length(runs[0]), win)))
  {
    var ws := WrittenRun(runs[0], pixelCol, win);
    SumAppend(ws, Written(runs[1..], pixelCol + Length(runs[0]), win));
    WrittenRunColumns(runs[0], pixelCol, win);
  }

  /** A run written out keeps exactly the columns it has in the window. */
  lemma WrittenRunColumns(r: Run, pixelCol: int, win: Window)
    ensures var ws := WrittenRun(r, pixelCol, win);
      (if ws == [] then 0 else Width(ws[0])) ==
        Overlap(pixelCol, pixelCol + Length(r), win.x, win.x + win.w)
  {
  }

  lemma SumAppend(ws: seq<Piece>, rest: seq<Piece>)
    requires |ws| <= 1
    ensures Sum(Widths(ws + rest)) ==
              (if ws == [] then 0 else Width(ws[0])) + Sum(Widths(rest))
  {
    if ws != [] {
      assert (ws + rest)[1..] == rest;
      assert Widths(ws + rest) == [Width(ws[0])] + Widths(rest);
    } else {
      assert ws + rest == rest;
    }
  }

  // ---------------------------------------------------------------------
  // The loop on such a band

  /** The band text kept after writing `ws` out from the cursor `cur`:
      the first run written is preceded by the carried colour selection
      when nothing was kept yet. */
  function Kept(cur: Cursor, ws: seq<Piece>): string
  {
    if ws == [] then cur.line
    else (if cur.line == [] then cur.colorPrev else cur.line) + PiecesText(ws)
  }

  /** The colour selection the loop carries past a band after writing
      `ws`: the one it started with when nothing is written, none
      otherwise. */
  function CarriedColour(cur: Cursor, ws: seq<Piece>): string
  {
    if ws == [] then cur.colorPrev else []
  }

  /** The run as the loop reads it at `data[j]`. */
  function RunRepeat(r: Run, j: nat, pixelCol: int, win: Window): Repeat
  {
    match r
    case Bare(_) => Repeat(1, 1, [], j)
    case Rep(_, _) =>
      var k := ClipRepeat(pixelCol, Length(r), win.x, win.w);
      Repeat(Length(r), k, "!" + IntToString(k), j + Size(r) - 1)
  }

  /** A span of characters `keep` accepts does not move the end of the
      span that starts before it. */
  lemma {:induction false} SpanEndSkip(data: string, i: nat, n: nat, keep: char -> bool)
    requires i + n <= |data|
    requires forall m :: i <= m < i + n ==> keep(data[m])
    ensures SpanEnd(data, i, keep) == SpanEnd(data, i + n, keep)
    decreases n
  {
    if n > 0 {
      SpanEndSkip(data, i + 1, n - 1, keep);
    }
  }

  /** A run neither ends the band nor the image, and the loop's skip to
      the band's end passes over it. */
  lemma RunPlain(data: string, j: nat, r: Run)
    requires RunAt(data, j, r)
    ensures data[j] != '-' && data[j] != ESC
    ensures SpanEnd(data, j, NotRowEnd) == SpanEnd(data, j + Size(r), NotRowEnd)
  {
    forall m | j <= m < j + Size(r) ensures NotRowEnd(data[m]) {
      if r.Rep? && j < m < j + Size(r) - 1 {
        assert data[j + 1 + (m - j - 1)] == r.digits[m - j - 1];
      }
    }
    SpanEndSkip(data, j, Size(r), NotRowEnd);
  }

  /** Runs followed by the band's '-' at `e`: the loop's skip to the
      band's end from any of them stops at `e`. */
  lemma {:induction false} RunsEnd(data: string, j: nat, runs: seq<Run>, e: nat)
    requires RunsAt(data, j, runs, e)
    ensures NextAt(data, j, e)
    decreases |runs|
  {
    if runs != [] {
      RunPlain(data, j, runs[0]);
      RunsEnd(data, j + Size(runs[0]), runs[1..], e);
    }
  }

  /** Where the loop reads the digits of a run with a repeat introducer:
      after the '!' and up to the run's sixel. */
  lemma RepDigits(data: string, j: nat, r: Run)
    requires RunAt(data, j, r) && r.Rep?
    ensures SpanEnd(data, j + 1, IsDigit) == j + 1 + |r.digits| == j + Size(r) - 1
    ensures data[j + 1..j + 1 + |r.digits|] == r.digits
  {
    var ds := r.digits;
    var k := j + 1 + |ds|;
    forall m | j + 1 <= m < k ensures IsDigit(data[m]) {
      assert data[j + 1 + (m - j - 1)] == ds[m - j - 1];
    }
    SpanEndAt(data, j + 1, k, IsDigit);
    forall m | 0 <= m < |ds| ensures data[j + 1..k][m] == ds[m] {
      assert data[j + 1 + m] == ds[m];
    }
  }

  /** A run with a repeat introducer is read as `RunRepeat` says. */
  lemma RepRead(data: string, j: nat, r: Run, pixelCol: int, win: Window)
    requires RunAt(data, j, r) && r.Rep?
    ensures ReadRepeat(data, j, pixelCol, win.x, win.w) == Ok(RunRepeat(r, j, pixelCol, win))
    ensures data[RunRepeat(r, j, pixelCol, win).at] == r.c
  {
    RepDigits(data, j, r);
  }

  /** At a run, one pass of the loop reads it as `RunRepeat` says. */
  lemma RunToken(data: string, j: nat, r: Run, cur: Cursor, win: Window)
    requires RunAt(data, j, r)
    ensures CropToken(data, j, cur, win) ==
              PlaceRun(data, RunRepeat(r, j, cur.pixelCol, win), cur, win)
    ensures data[RunRepeat(r, j, cur.pixelCol, win).at] == r.c
  {
    if r.Rep? {
      RepRead(data, j, r, cur.pixelCol, win);
    }
  }

  /** The cursor after the loop has placed run `r` at column `pixelCol`:
      the column moves past the run, and a run written out is added to the
      kept text, after which the carried colour is the band's own (none). */
  function After(r: Run, cur: Cursor, win: Window): (c: Cursor)
    ensures c.pixelCol == cur.pixelCol + Length(r)
    ensures cur.color == [] ==> c.color == []
  {
    var ws := WrittenRun(r, cur.pixelCol, win);
    var pixelCol := cur.pixelCol + Length(r);
    if ws == [] then cur.(pixelCol := pixelCol) else Cursor(Kept(cur, ws), [], [], pixelCol)
  }

  /** The text a run written out adds, as the loop writes it. */
  lemma WrittenText(r: Run, cur: Cursor, win: Window)
    requires 0 <= win.w && cur.pixelCol < win.x + win.w
    ensures var rep := RunRepeat(r, 0, cur.pixelCol, win);
      var sixel := ApplyMask(CropMask(win.pixelRow, win.y, win.h), r.c);
      var ws := WrittenRun(r, cur.pixelCol, win);
      (Emits(rep.clipped, rep.repeats, cur.pixelCol, win.x, win.w) <==> ws != []) &&
      (ws != [] ==> PiecesText(ws) == rep.text + [sixel])
  {
    if r.Rep? {
      RepWrittenText(r, cur, win);
    }
  }

  /** `WrittenText` for a run written with a repeat introducer. */
  lemma RepWrittenText(r: Run, cur: Cursor, win: Window)
    requires 0 <= win.w && cur.pixelCol < win.x + win.w && r.Rep?
    ensures var rep := RunRepeat(r, 0, cur.pixelCol, win);
      var ws := WrittenRun(r, cur.pixelCol, win);
      (Emits(rep.clipped, rep.repeats, cur.pixelCol, win.x, win.w) <==> ws != []) &&
      (ws != [] ==> PiecesText(ws) == rep.text + [ws[0].c])
  {
    EmitsIffOverlap(cur.pixelCol, Length(r), win.x, win.w);
    var ws := WrittenRun(r, cur.pixelCol, win);
    if ws != [] {
      assert PiecesText(ws) == PieceText(ws[0]) + [];
    }
  }

  /** Placing run `r` at its sixel `data[at]` moves the cursor as `After`
      says. */
  lemma PlacedCursor(data: string, at: nat, r: Run, cur: Cursor, win: Window)
    requires at < |data| && data[at] == r.c && cur.color == []
    requires 0 <= win.w && cur.pixelCol < win.x + win.w
    requires PlaceRun(data, RunRepeat(r, 0, cur.pixelCol, win).(at := at), cur, win).Ok?
    requires PlaceRun(data, RunRepeat(r, 0, cur.pixelCol, win).(at := at), cur, win).value.Next?
    ensures PlaceRun(data, RunRepeat(r, 0, cur.pixelCol, win).(at := at), cur, win).value.cur ==
              After(r, cur, win)
  {
    WrittenText(r, cur, win);
    AppendPlain(cur.line, cur.colorPrev, RunRepeat(r, 0, cur.pixelCol, win).text,
                ApplyMask(CropMask(win.pixelRow, win.y, win.h), data[at]));
  }

  /** A run appended with no colour selection in effect: the carried
      selection when nothing is kept yet, then the run. */
  lemma AppendPlain(line: string, colorPrev: string, text: string, c: char)
    ensures AppendRun(line, colorPrev, [], text, c).line ==
              (if line == [] then colorPrev else line) + (text + [c])
  {
    var l := if line == [] then line + colorPrev else line;
    assert l == if line == [] then colorPrev else line;
    assert l + [] + text + [c] == l + (text + [c]);
    assert l + text + [c] == l + (text + [c]);
  }

  /** Where the loop goes on after placing a run whose sixel is `data[at]`:
      at the next character while the column is left of the window's right
      edge, and at the band's '-' at `e` once it is not. */
  lemma PlacedAt(data: string, rep: Repeat, e: nat, cur: Cursor, win: Window)
    requires rep.at < e < |data| && data[rep.at + 1] != ESC
    requires SpanEnd(data, rep.at + 1, NotRowEnd) == e
    ensures var p := PlaceRun(data, rep, cur, win);
      p.Ok? && p.value.Next? &&
      p.value.j == if cur.pixelCol + rep.repeats < win.x + win.w then rep.at + 1 else e
  {
  }

  /** The loop passes a command that moves the cursor. */
  lemma LoopStep(data: string, j: nat, cur: Cursor, win: Window, k: nat, cur': Cursor)
    requires j < |data| && data[j] != '-' && data[j] != ESC
    requires CropToken(data, j, cur, win) == Ok(Next(cur', k))
    ensures k < |data| && CropLoop(data, j, cur, win) == CropLoop(data, k, cur', win)
  {
  }

  /** One run of a band: the loop goes on after it with the cursor `After`
      says, at the next run while the column is left of the window's right
      edge and at the band's '-' at `e` once it is not. */
  lemma {:induction false} RunPlaced(data: string, j: nat, r: Run, e: nat, cur: Cursor, win: Window)
    requires RunAt(data, j, r) && NextAt(data, j + Size(r), e)
    requires 0 <= win.w && cur.pixelCol < win.x + win.w && cur.color == []
    ensures CropToken(data, j, cur, win) ==
      Ok(Next(After(r, cur, win), if cur.pixelCol + Length(r) < win.x + win.w then j + Size(r) else e))
  {
    RunToken(data, j, r, cur, win);
    var rep := RunRepeat(r, j, cur.pixelCol, win);
    assert rep == RunRepeat(r, 0, cur.pixelCol, win).(at := rep.at);
    PlacedAt(data, rep, e, cur, win);
    PlacedCursor(data, rep.at, r, cur, win);
  }

  /** The text of one piece followed by others. */
  lemma PiecesCons(p: Piece, rest: seq<Piece>)
    ensures PiecesText([p] + rest) == PieceText(p) + PiecesText(rest)
    ensures PiecesText([p]) == PieceText(p)
  {
    assert ([p] + rest)[1..] == rest;
    assert PiecesText([p]) == PieceText(p) + [];
  }

  /** Appending strings associates. */
  lemma AppendAssoc(a: string, b: string, c: string)
    ensures a + (b + c) == (a + b) + c
  {
  }

  /** On a band made of runs, ending at the '-' at `e`, the x-crop loop
      ends at that '-' having kept exactly the `Written` runs, after the
      carried colour selection when anything is written; the carried colour
      is then the band's own (none). */
  lemma {:induction false} CropLoopRuns(data: string, j: nat, runs: seq<Run>, e: nat, cur: Cursor, win: Window)
    requires RunsAt(data, j, runs, e)
    requires 0 <= win.w && cur.pixelCol < win.x + win.w && cur.color == []
    ensures j < |data|
    ensures CropLoop(data, j, cur, win) ==
      Ok(Done(Kept(cur, Written(runs, cur.pixelCol, win)) + "-",
              CarriedColour(cur, Written(runs, cur.pixelCol, win)), e + 1))
    decreases |runs|, 2
  {
    if runs == [] {
      EmptyBand(data, j, e, cur, win);
    } else if cur.pixelCol + Length(runs[0]) < win.x + win.w {
      BandWithin(data, j, runs, e, cur, win);
    } else {
      BandPast(data, j, runs, e, cur, win);
    }
  }

  /** The loop on the band's '-' alone. */
  lemma EmptyBand(data: string, j: nat, e: nat, cur: Cursor, win: Window)
    requires RunsAt(data, j, [], e)
    ensures j < |data|
    ensures CropLoop(data, j, cur, win) ==
      Ok(Done(Kept(cur, Written([], cur.pixelCol, win)) + "-",
              CarriedColour(cur, Written([], cur.pixelCol, win)), e + 1))
  {
    assert CropLoop(data, j, cur, win) == Ok(Done(cur.line + "-", cur.colorPrev, j + 1));
  }

  /** `CropLoopRuns` when the first run ends left of the window's right
      edge. */
  lemma {:induction false} BandWithin(data: string, j: nat, runs: seq<Run>, e: nat, cur: Cursor, win: Window)
    requires runs != [] && RunsAt(data, j, runs, e)
    requires 0 <= win.w && cur.pixelCol + Length(runs[0]) < win.x + win.w && cur.color == []
    ensures j < |data|
    ensures CropLoop(data, j, cur, win) ==
      Ok(Done(Kept(cur, Written(runs, cur.pixelCol, win)) + "-",
              CarriedColour(cur, Written(runs, cur.pixelCol, win)), e + 1))
    decreases |runs|, 1
  {
    RunsEnd(data, j + Size(runs[0]), runs[1..], e);
    StepWithin(data, j, runs[0], e, cur, win);
    KeptStep(runs, cur, win);
    CropLoopRuns(data, j + Size(runs[0]), runs[1..], e, After(runs[0], cur, win), win);
  }

  /** `CropLoopRuns` when the first run reaches the window's right edge. */
  lemma {:induction false} BandPast(data: string, j: nat, runs: seq<Run>, e: nat, cur: Cursor, win: Window)
    requires runs != [] && RunsAt(data, j, runs, e)
    requires 0 <= win.w && cur.pixelCol < win.x + win.w <= cur.pixelCol + Length(runs[0]) && cur.color == []
    ensures j < |data|
    ensures CropLoop(data, j, cur, win) ==
      Ok(Done(Kept(cur, Written(runs, cur.pixelCol, win)) + "-",
              CarriedColour(cur, Written(runs, cur.pixelCol, win)), e + 1))
  {
    RunsEnd(data, j + Size(runs[0]), runs[1..], e);
    StepPast(data, j, runs[0], e, cur, win);
    KeptStep(runs, cur, win);
    PastWindow(data, e, runs[1..], After(runs[0], cur, win), win);
  }

  /** The kept text and carried colour after a band's runs, read from the
      cursor after its first run. */
  lemma {:induction false} KeptStep(runs: seq<Run>, cur: Cursor, win: Window)
    requires runs != [] && cur.pixelCol < win.x + win.w && cur.color == []
    ensures Kept(cur, Written(runs, cur.pixelCol, win)) ==
              Kept(After(runs[0], cur, win), Written(runs[1..], After(runs[0], cur, win).pixelCol, win))
    ensures CarriedColour(cur, Written(runs, cur.pixelCol, win)) ==
              CarriedColour(After(runs[0], cur, win), Written(runs[1..], After(runs[0], cur, win).pixelCol, win))
  {
    var ws := WrittenRun(runs[0], cur.pixelCol, win);
    var rest := Written(runs[1..], After(runs[0], cur, win).pixelCol, win);
    if ws != [] {
      var p := ws[0];
      assert ws == [p];
      PiecesCons(p, rest);
      AppendAssoc(if cur.line == [] then cur.colorPrev else cur.line, PieceText(p), PiecesText(rest));
    } else {
      assert ws + rest == rest;
    }
  }

  /** The loop's first step on a band of runs places the first run and,
      while the column stays left of the window's right edge, goes on at
      the next run. */
  lemma {:induction false} StepWithin(data: string, j: nat, r: Run, e: nat, cur: Cursor, win: Window)
    requires RunAt(data, j, r) && NextAt(data, j + Size(r), e)
    requires 0 <= win.w && cur.pixelCol + Length(r) < win.x + win.w && cur.color == []
    ensures j < |data| && j + Size(r) < |data|
    ensures CropLoop(data, j, cur, win) == CropLoop(data, j + Size(r), After(r, cur, win), win)
  {
    RunPlain(data, j, r);
    RunPlaced(data, j, r, e, cur, win);
    LoopStep(data, j, cur, win, j + Size(r), After(r, cur, win));
  }

  /** The loop's first step on a band of runs places the first run and,
      once the column reaches the window's right edge, skips to the band's
      '-' at `e`. */
  lemma {:induction false} StepPast(data: string, j: nat, r: Run, e: nat, cur: Cursor, win: Window)
    requires RunAt(data, j, r) && NextAt(data, j + Size(r), e)
    requires 0 <= win.w && cur.pixelCol < win.x + win.w <= cur.pixelCol + Length(r) && cur.color == []
    ensures j < |data| && e < |data| && data[e] == '-'
    ensures CropLoop(data, j, cur, win) == CropLoop(data, e, After(r, cur, win), win)
  {
    RunPlain(data, j, r);
    RunPlaced(data, j, r, e, cur, win);
    LoopStep(data, j, cur, win, e, After(r, cur, win));
  }

  /** Once the column has reached the window's right edge the loop skips
      the rest of the band and ends at its '-'. */
  lemma PastWindow(data: string, e: nat, rest: seq<Run>, cur: Cursor, win: Window)
    requires e < |data| && data[e] == '-' && cur.pixelCol >= win.x + win.w
    ensures CropLoop(data, e, cur, win) ==
      Ok(Done(Kept(cur, Written(rest, cur.pixelCol, win)) + "-",
              CarriedColour(cur, Written(rest, cur.pixelCol, win)), e + 1))
  {
    assert Written(rest, cur.pixelCol, win) == [];
  }

  /** The columns written out are the ones `Covered` counts for the runs'
      lengths. */
  lemma {:induction false} WrittenCovered(runs: seq<Run>, pixelCol: int, win: Window)
    requires 0 <= win.w
    ensures Sum(Widths(Written(runs, pixelCol, win))) ==
              Overlap(pixelCol, pixelCol + Sum(Lengths(runs)), win.x, win.x + win.w)
    ensures Sum(Widths(Written(runs, pixelCol, win))) == Covered(Lengths(runs), pixelCol, win.x, win.w)
  {
    WrittenColumns(runs, pixelCol, win);
    ClippedRunsTile(Lengths(runs), pixelCol, win.x, win.w);
  }

  /** The band text kept and colour carried from the start of a band. */
  lemma StartKept(colorPrev: string, ws: seq<Piece>)
    ensures Kept(StartCursor(colorPrev), ws) == if ws == [] then [] else colorPrev + PiecesText(ws)
    ensures CarriedColour(StartCursor(colorPrev), ws) == if ws == [] then colorPrev else []
  {
  }

  /** A whole band of runs, from the start of the band: the loop writes the
      `Written` runs, after the carried selection when there are any, and
      ends just past the band's '-'. */
  lemma {:induction false} CroppedBandOfRuns(data: string, j: nat, runs: seq<Run>, e: nat, colorPrev: string, win: Window)
    requires RunsAt(data, j, runs, e)
    requires 0 <= win.w && 0 < win.x + win.w
    ensures j < |data|
    ensures CropLoop(data, j, StartCursor(colorPrev), win) ==
      Ok(Done((if Written(runs, 0, win) == [] then [] else colorPrev + PiecesText(Written(runs, 0, win))) + "-",
              if Written(runs, 0, win) == [] then colorPrev else [], e + 1))
  {
    CropLoopRuns(data, j, runs, e, StartCursor(colorPrev), win);
    StartKept(colorPrev, Written(runs, 0, win));
  }
}
