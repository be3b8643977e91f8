/** Splitting a Markdown table row into its cells, with backslash escapes. */
module TableRow {
  import opened Basics
  import opened Text

  const PIPE := '|'
  const ESCAPE := '\\'

  // What is left of a row once its outer pipes are gone.
  function Inner(line: string): string {
    var text := Strip(line);
    var open := if text != "" && text[0] == PIPE then text[1..] else text;
    if EndsInPipe(open) && !EndsInEscapedPipe(open) then WithoutLast(open) else open
  }

  predicate EndsInPipe(s: string) {
    s != "" && s[|s| - 1] == PIPE
  }

  predicate EndsInEscapedPipe(s: string) {
    |s| >= 2 && s[|s| - 1] == PIPE && s[|s| - 2] == ESCAPE
  }

  predicate EndsInEscape(s: string) {
    s != "" && s[|s| - 1] == ESCAPE
  }

  // The cells of the rest of a row, where current has been read of the first one.
  function Cells(text: string, current: string, escaped: bool): (r: seq<string>)
    ensures r != []
  {
    if text == "" then [Strip(if escaped then current + [ESCAPE] else current)]
    else if !escaped && text[0] == ESCAPE then Cells(text[1..], current, true)
    else if !escaped && text[0] == PIPE then [Strip(current)] + Cells(text[1..], "", false)
    else Cells(text[1..], current + [text[0]], false)
  }

  function SplitRow(line: string): seq<string> {
    Cells(Inner(line), "", false)
  }

  method SplitMarkdownTableRow(line: string) returns (cells: seq<string>)
    ensures cells == SplitRow(line)
  {
    var text := Strip(line);
    if text != "" && text[0] == PIPE {
      text := text[1..];
    }
    if EndsInPipe(text) && !EndsInEscapedPipe(text) {
      text := text[..|text| - 1];
    }
    cells := [];
    var current, escaped := "", false;
    var i := 0;
    while i < |text|
      invariant 0 <= i <= |text|
      invariant cells + Cells(text[i..], current, escaped) == Cells(text, "", false)
    {
      var c := text[i];
      assert text[i..][0] == c && text[i..][1..] == text[i + 1..];
      if escaped {
        current := current + [c];
        escaped := false;
      } else if c == ESCAPE {
        escaped := true;
      } else if c == PIPE {
        Associate(cells, [Strip(current)], Cells(text[i + 1..], "", false));
        cells := cells + [Strip(current)];
        current := "";
      } else {
        current := current + [c];
      }
      i := i + 1;
    }
    assert text[i..] == "";
    if escaped {
      current := current + [ESCAPE];
    }
    cells := cells + [Strip(current)];
  }

  // --- Printing ---

  function Escaped(cell: string): string {
    if cell == "" then ""
    else (if cell[0] in {ESCAPE, PIPE} then [ESCAPE, cell[0]] else [cell[0]]) + Escaped(cell[1..])
  }

  function Padded(cell: string, pad: string): string {
    pad + Escaped(cell) + pad
  }

  // Every cell followed by a pipe, with the same padding around each.
  function Body(cells: seq<string>, pad: string): string {
    if cells == [] then "" else Padded(cells[0], pad) + ([PIPE] + Body(cells[1..], pad))
  }

  function Print(cells: seq<string>, pad: string): string {
    [PIPE] + Body(cells, pad)
  }

  function StripAll(cells: seq<string>): (r: seq<string>)
    ensures |r| == |cells| && forall i | 0 <= i < |r| :: r[i] == Strip(cells[i])
  {
    if cells == [] then [] else [Strip(cells[0])] + StripAll(cells[1..])
  }

  // --- Round trips ---

  lemma {:induction false} EscapedIsRead(cell: string, rest: string, current: string)
    ensures Cells(Escaped(cell) + rest, current, false) == Cells(rest, current + cell, false)
  {
    if cell == "" {
      assert Escaped(cell) + rest == rest && current + cell == current;
    } else {
      var c, more := cell[0], Escaped(cell[1..]) + rest;
      Associate(if c in {ESCAPE, PIPE} then [ESCAPE, c] else [c], Escaped(cell[1..]), rest);
      ReadOne(c, more, current);
      EscapedIsRead(cell[1..], rest, current + [c]);
      assert (current + [c]) + cell[1..] == current + cell;
    }
  }

  lemma ReadOne(c: char, rest: string, current: string)
    ensures c in {ESCAPE, PIPE} ==> Cells([ESCAPE, c] + rest, current, false) == Cells(rest, current + [c], false)
    ensures c !in {ESCAPE, PIPE} ==> Cells([c] + rest, current, false) == Cells(rest, current + [c], false)
  {
    assert ([ESCAPE, c] + rest)[1..] == [c] + rest;
    assert ([c] + rest)[1..] == rest;
  }

  lemma {:induction false} PadIsRead(pad: string, rest: string, current: string)
    requires forall k | 0 <= k < |pad| :: pad[k] !in {ESCAPE, PIPE}
    ensures Cells(pad + rest, current, false) == Cells(rest, current + pad, false)
  {
    NothingToEscape(pad);
    EscapedIsRead(pad, rest, current);
  }

  lemma {:induction false} NothingToEscape(s: string)
    requires forall k | 0 <= k < |s| :: s[k] !in {ESCAPE, PIPE}
    ensures Escaped(s) == s
  {
    if s != "" { NothingToEscape(s[1..]); }
  }

  lemma SpaceIsPlain(pad: string)
    requires AllSpace(pad)
    ensures forall k | 0 <= k < |pad| :: pad[k] !in {ESCAPE, PIPE}
  {
  }

  lemma StripInPadding(pad: string, cell: string)
    requires AllSpace(pad)
    ensures Strip(pad + cell + pad) == Strip(cell)
  {
    var before, after := StripSplits(cell);
    var core := Strip(cell);
    assert pad + cell + pad == (pad + before) + core + (after + pad);
    StripPadded(pad + before, core, after + pad);
  }

  // Reading the pieces of one printed cell.
  lemma CellIsRead(cell: string, pad: string, rest: string)
    requires AllSpace(pad)
    ensures Cells(Padded(cell, pad) + rest, "", false) == Cells(rest, pad + cell + pad, false)
  {
    SpaceIsPlain(pad);
    Reassociate(pad, Escaped(cell), pad, rest);
    PadIsRead(pad, Escaped(cell) + (pad + rest), "");
    assert "" + pad == pad;
    EscapedIsRead(cell, pad + rest, pad);
    PadIsRead(pad, rest, pad + cell);
  }

  lemma Reassociate(a: string, b: string, c: string, d: string)
    ensures a + b + c + d == a + (b + (c + d))
  {
  }

  lemma CloseCell(rest: string, current: string)
    ensures Cells([PIPE] + rest, current, false) == [Strip(current)] + Cells(rest, "", false)
  {
    assert ([PIPE] + rest)[1..] == rest;
  }

  lemma {:induction false} BodyIsRead(cells: seq<string>, pad: string)
    requires AllSpace(pad)
    ensures Cells(Body(cells, pad), "", false) == StripAll(cells) + [""]
  {
    if cells == [] {
      StripOfStripped("");
    } else {
      var rest := Body(cells[1..], pad);
      BodyIsRead(cells[1..], pad);
      CellIsRead(cells[0], pad, [PIPE] + rest);
      CloseCell(rest, pad + cells[0] + pad);
      StripInPadding(pad, cells[0]);
      Associate([Strip(cells[0])], StripAll(cells[1..]), [""]);
    }
  }

  lemma BodyEndsInPipe(cells: seq<string>, pad: string)
    requires cells != []
    ensures EndsInPipe(Body(cells, pad))
  {
    if |cells| > 1 { BodyEndsInPipe(cells[1..], pad); }
  }

  function WithoutLast(s: string): string
    requires s != ""
  {
    s[..|s| - 1]
  }

  lemma DropLast(a: string, b: string)
    requires b != ""
    ensures WithoutLast(a + b) == a + WithoutLast(b)
  {
  }

  // The body without its last pipe reads as the cells alone.
  lemma {:induction false} ClosedBodyIsRead(cells: seq<string>, pad: string)
    requires AllSpace(pad) && cells != [] && EndsInPipe(Body(cells, pad))
    ensures Cells(WithoutLast(Body(cells, pad)), "", false) == StripAll(cells)
  {
    var rest := Body(cells[1..], pad);
    StripInPadding(pad, cells[0]);
    DropLast(Padded(cells[0], pad), [PIPE] + rest);
    if |cells| == 1 {
      CellIsRead(cells[0], pad, "");
      assert WithoutLast([PIPE] + rest) == "";
    } else {
      BodyEndsInPipe(cells[1..], pad);
      ClosedBodyIsRead(cells[1..], pad);
      DropLast([PIPE], rest);
      CellIsRead(cells[0], pad, [PIPE] + WithoutLast(rest));
      CloseCell(WithoutLast(rest), pad + cells[0] + pad);
    }
  }

  lemma {:induction false} EscapedEnd(cell: string)
    requires cell != ""
    ensures Escaped(cell) != "" && Escaped(cell)[|Escaped(cell)| - 1] == cell[|cell| - 1]
  {
    if |cell| > 1 { EscapedEnd(cell[1..]); }
  }

  lemma SameEnd(a: string, b: string)
    requires EndsInPipe(b)
    ensures EndsInEscapedPipe(a + ([PIPE] + b)) <==> EndsInEscapedPipe(b)
  {
  }

  // The body ends in an escaped pipe only without padding and after a backslash.
  lemma {:induction false} BodyEnd(cells: seq<string>, pad: string)
    requires AllSpace(pad) && cells != []
    ensures EndsInEscapedPipe(Body(cells, pad)) <==> pad == "" && EndsInEscape(cells[|cells| - 1])
  {
    if |cells| == 1 {
      SpaceIsPlain(pad);
      if cells[0] != "" { EscapedEnd(cells[0]); }
    } else {
      BodyEnd(cells[1..], pad);
      BodyEndsInPipe(cells[1..], pad);
      SameEnd(Padded(cells[0], pad), Body(cells[1..], pad));
    }
  }

  lemma InnerOfPrinted(cells: seq<string>, pad: string)
    requires cells != [] && EndsInPipe(Body(cells, pad))
    ensures var b := Body(cells, pad);
            Inner(Print(cells, pad)) == if EndsInEscapedPipe(b) then b else WithoutLast(b)
  {
    var p := Print(cells, pad);
    assert p[|p| - 1] == PIPE;
    StripOfStripped(p);
    assert p[1..] == Body(cells, pad);
  }

  /** Splitting a printed row gives its cells back, stripped; without padding, a backslash at the end
      of the last cell opens one more, empty cell. */
  lemma PrintedIsSplit(cells: seq<string>, pad: string)
    requires AllSpace(pad) && cells != []
    ensures SplitRow(Print(cells, pad))
            == StripAll(cells) + if pad == "" && EndsInEscape(cells[|cells| - 1]) then [""] else []
  {
    BodyEndsInPipe(cells, pad);
    InnerOfPrinted(cells, pad);
    BodyEnd(cells, pad);
    BodyIsRead(cells, pad);
    ClosedBodyIsRead(cells, pad);
  }

  ghost predicate AllStripped(cells: seq<string>) {
    forall i | 0 <= i < |cells| :: Stripped(cells[i])
  }

  lemma {:induction false} StripAllOfStripped(cells: seq<string>)
    requires AllStripped(cells)
    ensures StripAll(cells) == cells
  {
    forall i | 0 <= i < |cells| ensures StripAll(cells)[i] == cells[i] {
      StripOfStripped(cells[i]);
    }
  }

  /** Stripped cells printed without padding come back exactly when the last one does not end in a
      backslash. */
  lemma TightRoundTrip(cells: seq<string>)
    requires cells != [] && AllStripped(cells)
    ensures SplitRow(Print(cells, "")) == cells <==> !EndsInEscape(cells[|cells| - 1])
  {
    StripAllOfStripped(cells);
    PrintedIsSplit(cells, "");
  }

  /** A single backslash, printed that way, splits into two cells. */
  lemma TightBackslash()
    ensures AllStripped(["\\"]) && SplitRow(Print(["\\"], "")) == ["\\", ""]
  {
    StripAllOfStripped(["\\"]);
    PrintedIsSplit(["\\"], "");
  }

  lemma {:induction false} CellsAreStripped(text: string, current: string, escaped: bool)
    ensures AllStripped(Cells(text, current, escaped))
    decreases |text|
  {
    if text == "" {
      var b, a := StripSplits(if escaped then current + [ESCAPE] else current);
    } else {
      var b, a := StripSplits(current);
      CellsAreStripped(text[1..], current, true);
      CellsAreStripped(text[1..], "", false);
      CellsAreStripped(text[1..], current + [text[0]], false);
    }
  }

  /** Any line, split and printed with padding, splits into the same cells again. */
  lemma SplitIsCanonical(line: string, pad: string)
    requires AllSpace(pad) && pad != ""
    ensures SplitRow(Print(SplitRow(line), pad)) == SplitRow(line)
  {
    var cells := SplitRow(line);
    CellsAreStripped(Inner(line), "", false);
    StripAllOfStripped(cells);
    PrintedIsSplit(cells, pad);
  }
}
