/** Splitting one CSV line into fields, and the RFC 4180 quoting it undoes. */
module TaxiTripParser {

  /** What is left to split: the rest of the line, the field collected so far, and whether a quote is open. */
  function SplitFrom(rest: string, curr: string, inQuotes: bool): seq<string>
    decreases |rest|
  {
    if rest == "" then [curr]
    else if rest[0] == '"' then
      if inQuotes && |rest| > 1 && rest[1] == '"' then SplitFrom(rest[2..], curr + ['"'], true)
      else SplitFrom(rest[1..], curr, !inQuotes)
    else if rest[0] == ',' && !inQuotes then [curr] + SplitFrom(rest[1..], "", false)
    else SplitFrom(rest[1..], curr + [rest[0]], inQuotes)
  }

  /** The scanning loop, which skips the second of two quotes inside a quoted field. */
  method SplitCSV(line: string) returns (res: seq<string>)
    ensures res == SplitFrom(line, "", false)
  {
    res := [];
    var curr: string, inQuotes := "", false;
    var i := 0;
    assert line[0..] == line;
    while i < |line|
      invariant i <= |line|
      invariant SplitFrom(line, "", false) == res + SplitFrom(line[i..], curr, inQuotes)
    {
      var c := line[i];
      assert line[i..][1..] == line[i + 1..];
      if c == '"' {
        if inQuotes && i + 1 < |line| && line[i + 1] == '"' {
          assert line[i..][2..] == line[i + 2..];
          curr := curr + ['"'];
          i := i + 1;
        } else {
          inQuotes := !inQuotes;
        }
      } else if c == ',' && !inQuotes {
        assert res + ([curr] + SplitFrom(line[i + 1..], "", false))
            == (res + [curr]) + SplitFrom(line[i + 1..], "", false);
        res := res + [curr];
        curr := "";
      } else {
        curr := curr + [c];
      }
      i := i + 1;
    }
    res := res + [curr];
  }

  // ----- quoting (RFC 4180, section 2)

  /** Every quote doubled. */
  function Escape(text: string): string {
    if text == "" then ""
    else (if text[0] == '"' then ['"', '"'] else [text[0]]) + Escape(text[1..])
  }

  /** A field is written in pieces, each as it is or between quotes. */
  datatype Piece = Bare(text: string) | Quoted(text: string)

  type Cell = seq<Piece>

  /** Bare pieces are not empty and have no commas and no quotes. */
  predicate Harmless(p: Piece) {
    p.Bare? ==> p.text != "" && ',' !in p.text && '"' !in p.text
  }

  /** Two quoted pieces in a row would read as one with a quote in between. */
  predicate Writable(c: Cell) {
    && (forall i :: 0 <= i < |c| ==> Harmless(c[i]))
    && (forall i :: 0 <= i < |c| - 1 ==> c[i].Bare? || c[i + 1].Bare?)
  }

  function EncodePiece(p: Piece): string {
    match p
    case Bare(text) => text
    case Quoted(text) => ['"'] + Escape(text) + ['"']
  }

  function Encode(c: Cell): string {
    if c == [] then "" else EncodePiece(c[0]) + Encode(c[1..])
  }

  /** The field that a cell stands for. */
  function Text(c: Cell): string {
    if c == [] then "" else c[0].text + Text(c[1..])
  }

  /** The end of a line: nothing, or a quote that is never closed and what follows it. */
  datatype Ending = Closed | Open(text: string)

  function EncodeEnding(e: Ending): string {
    match e
    case Closed => ""
    case Open(text) => ['"'] + Escape(text)
  }

  function EndingText(e: Ending): string {
    match e case Closed => "" case Open(text) => text
  }

  /** A line: its cells, separated by commas, and its ending, which belongs to the last field. */
  datatype Record = Record(cells: seq<Cell>, end: Ending) {

    predicate Valid() {
      && cells != [] && (forall i :: 0 <= i < |cells| ==> Writable(cells[i]))
      && (end.Open? ==> Follows(cells[|cells| - 1], EncodeEnding(end)))
    }
  }

  /** What follows a cell does not run into its last piece. */
  predicate Follows(c: Cell, rest: string) {
    c != [] && c[|c| - 1].Quoted? ==> rest == "" || rest[0] != '"'
  }

  function Line(cells: seq<Cell>, end: Ending): string
    requires cells != []
  {
    Encode(cells[0]) + if |cells| == 1 then EncodeEnding(end) else [','] + Line(cells[1..], end)
  }

  function Fields(cells: seq<Cell>, end: Ending): seq<string>
    requires cells != []
  {
    if |cells| == 1 then [Text(cells[0]) + EndingText(end)] else [Text(cells[0])] + Fields(cells[1..], end)
  }

  // ----- splitting undoes writing

  lemma {:induction false} SplitBare(text: string, rest: string, curr: string)
    requires ',' !in text && '"' !in text
    ensures SplitFrom(text + rest, curr, false) == SplitFrom(rest, curr + text, false)
    decreases |text|
  {
    if text == "" {
      assert text + rest == rest && curr + text == curr;
    } else {
      assert (text + rest)[0] == text[0] && (text + rest)[1..] == text[1..] + rest;
      assert text[0] in text;
      SplitBare(text[1..], rest, curr + [text[0]]);
      assert curr + [text[0]] + text[1..] == curr + text;
    }
  }

  /** Inside quotes, one escaped character adds that character. */
  lemma SplitEscaped(c: char, tail: string, curr: string)
    ensures SplitFrom((if c == '"' then ['"', '"'] else [c]) + tail, curr, true) == SplitFrom(tail, curr + [c], true)
  {
    var head := if c == '"' then ['"', '"'] else [c];
    assert (head + tail)[|head|..] == tail;
  }

  lemma EscapeFirst(text: string)
    requires text != ""
    ensures Escape(text) == (if text[0] == '"' then ['"', '"'] else [text[0]]) + Escape(text[1..])
  {
  }

  lemma Associative(a: string, b: string, c: string)
    ensures a + (b + c) == (a + b) + c
  {
  }

  /** From inside the quotes, the escaped text adds exactly the text. */
  lemma {:induction false} SplitInside(text: string, rest: string, curr: string)
    ensures SplitFrom(Escape(text) + rest, curr, true) == SplitFrom(rest, curr + text, true)
    decreases |text|
  {
    if text == "" {
      assert Escape(text) + rest == rest && curr + text == curr;
    } else {
      var head := if text[0] == '"' then ['"', '"'] else [text[0]];
      EscapeFirst(text);
      Associative(head, Escape(text[1..]), rest);
      SplitEscaped(text[0], Escape(text[1..]) + rest, curr);
      SplitInside(text[1..], rest, curr + [text[0]]);
      assert curr + [text[0]] + text[1..] == curr + text;
    }
  }

  /** The closing quote ends the quoted text. */
  lemma SplitQuoted(text: string, rest: string, curr: string)
    requires rest == "" || rest[0] != '"'
    ensures SplitFrom(Escape(text) + ['"'] + rest, curr, true) == SplitFrom(rest, curr + text, false)
  {
    Associative(Escape(text), ['"'], rest);
    SplitInside(text, ['"'] + rest, curr);
    assert (['"'] + rest)[1..] == rest;
  }

  /** Without a closing quote everything to the end of the line belongs to the field. */
  lemma SplitOpen(text: string, curr: string)
    ensures SplitFrom(Escape(text), curr, true) == [curr + text]
  {
    SplitInside(text, "", curr);
    assert Escape(text) + "" == Escape(text);
  }

  lemma SplitPiece(p: Piece, rest: string, curr: string)
    requires Harmless(p) && (p.Quoted? ==> rest == "" || rest[0] != '"')
    ensures SplitFrom(EncodePiece(p) + rest, curr, false) == SplitFrom(rest, curr + p.text, false)
  {
    match p
    case Bare(text) => SplitBare(text, rest, curr);
    case Quoted(text) =>
      var whole := EncodePiece(p) + rest;
      assert whole[1..] == Escape(text) + ['"'] + rest;
      SplitQuoted(text, rest, curr);
  }

  lemma {:induction false} SplitCell(c: Cell, rest: string, curr: string)
    requires Writable(c) && Follows(c, rest)
    ensures SplitFrom(Encode(c) + rest, curr, false) == SplitFrom(rest, curr + Text(c), false)
    decreases |c|
  {
    if c == [] {
      assert Encode(c) + rest == rest && curr + Text(c) == curr;
    } else {
      var tail := Encode(c[1..]) + rest;
      assert Encode(c) + rest == EncodePiece(c[0]) + tail;
      AfterQuoted(c, rest);
      SplitPiece(c[0], tail, curr);
      assert Writable(c[1..]);
      SplitCell(c[1..], rest, curr + c[0].text);
      assert (curr + c[0].text) + Text(c[1..]) == curr + Text(c);
    }
  }

  lemma AfterQuoted(c: Cell, rest: string)
    requires Writable(c) && Follows(c, rest) && c != []
    ensures var tail := Encode(c[1..]) + rest; c[0].Quoted? ==> tail == "" || tail[0] != '"'
    ensures Follows(c[1..], rest)
  {
    if c[0].Quoted? && |c| > 1 {
      assert Harmless(c[1]) && c[1].Bare?;
      assert c[1..][0] == c[1];
      assert Encode(c[1..])[0] == c[1].text[0];
      assert c[1].text[0] in c[1].text;
    }
  }

  /** The last cell, with the ending of the line. */
  lemma SplitLast(c: Cell, end: Ending)
    requires Writable(c) && Follows(c, EncodeEnding(end))
    ensures SplitFrom(Encode(c) + EncodeEnding(end), "", false) == [Text(c) + EndingText(end)]
  {
    SplitCell(c, EncodeEnding(end), "");
    assert "" + Text(c) == Text(c);
    match end
    case Closed => assert Text(c) + "" == Text(c);
    case Open(text) =>
      assert EncodeEnding(end)[1..] == Escape(text);
      SplitOpen(text, Text(c));
  }

  lemma SplitComma(c: Cell, tail: string)
    requires Writable(c)
    ensures SplitFrom(Encode(c) + ([','] + tail), "", false) == [Text(c)] + SplitFrom(tail, "", false)
  {
    SplitCell(c, [','] + tail, "");
    assert "" + Text(c) == Text(c);
    assert ([','] + tail)[1..] == tail;
  }

  lemma {:induction false} SplitUndoesWriting(cells: seq<Cell>, end: Ending)
    requires Record(cells, end).Valid()
    ensures SplitFrom(Line(cells, end), "", false) == Fields(cells, end)
    decreases |cells|
  {
    if |cells| == 1 {
      SplitLast(cells[0], end);
    } else {
      SplitComma(cells[0], Line(cells[1..], end));
      SplitUndoesWriting(cells[1..], end);
    }
  }

  // ----- every line is written in this way

  /** Reads up to the closing quote, if there is one. */
  lemma {:induction false} ReadQuoted(s: string) returns (text: string, closed: bool, tail: string)
    ensures !closed ==> s == Escape(text)
    ensures closed ==> s == Escape(text) + (['"'] + tail) && (tail == "" || tail[0] != '"')
    decreases |s|
  {
    if s == "" {
      text, closed, tail := "", false, "";
    } else if s[0] == '"' && (|s| == 1 || s[1] != '"') {
      text, closed, tail := "", true, s[1..];
    } else {
      var width := if s[0] == '"' then 2 else 1;
      var inner;
      inner, closed, tail := ReadQuoted(s[width..]);
      text := [s[0]] + inner;
      EscapeFirst(text);
      assert text[1..] == inner;
      assert s == s[..width] + s[width..];
      assert s[..width] == if s[0] == '"' then ['"', '"'] else [s[0]];
      Associative(s[..width], Escape(inner), ['"'] + tail);
    }
  }

  /** One more piece at the front of a record. */
  function Prepend(p: Piece, r: Record): Record
    requires r.cells != []
  {
    Record([[p] + r.cells[0]] + r.cells[1..], r.end)
  }

  lemma PrependLine(p: Piece, r: Record)
    requires r.cells != []
    ensures var q := Prepend(p, r); Line(q.cells, q.end) == EncodePiece(p) + Line(r.cells, r.end)
  {
    var q := Prepend(p, r);
    assert q.cells[0][1..] == r.cells[0] && q.cells[1..] == r.cells[1..];
    var after := if |r.cells| == 1 then EncodeEnding(r.end) else [','] + Line(r.cells[1..], r.end);
    Associative(EncodePiece(p), Encode(r.cells[0]), after);
  }

  lemma QuotedStart(r: Record)
    requires r.cells != [] && r.cells[0] != [] && r.cells[0][0].Quoted?
    ensures Line(r.cells, r.end) != "" && Line(r.cells, r.end)[0] == '"'
  {
  }

  lemma PrependWritable(p: Piece, first: Cell)
    requires Writable(first) && Harmless(p) && (p.Bare? || first == [] || first[0].Bare?)
    ensures Writable([p] + first)
  {
    forall i | 0 <= i < |[p] + first| ensures Harmless(([p] + first)[i]) {
      assert i > 0 ==> ([p] + first)[i] == first[i - 1];
    }
    forall i | 0 <= i < |[p] + first| - 1 ensures ([p] + first)[i].Bare? || ([p] + first)[i + 1].Bare? {
      assert i > 0 ==> ([p] + first)[i] == first[i - 1] && ([p] + first)[i + 1] == first[i];
    }
  }

  /** A piece can stand in front if it is harmless and, when quoted, the line does not begin with a quote. */
  lemma PrependValid(p: Piece, r: Record)
    requires r.Valid() && Harmless(p) && (p.Quoted? ==> Line(r.cells, r.end) == "" || Line(r.cells, r.end)[0] != '"')
    ensures Prepend(p, r).Valid()
  {
    var q, first := Prepend(p, r), r.cells[0];
    if first != [] && first[0].Quoted? {
      QuotedStart(r);
    }
    PrependWritable(p, first);
    forall i | 0 <= i < |q.cells| ensures Writable(q.cells[i]) {
      assert i > 0 ==> q.cells[i] == r.cells[i];
    }
  }

  /** The record is written as this line. */
  predicate WrittenAs(r: Record, line: string) {
    r.Valid() && Line(r.cells, r.end) == line
  }

  lemma CommaInFront(line: string, r: Record)
    requires line != "" && line[0] == ',' && WrittenAs(r, line[1..])
    ensures WrittenAs(Record([[]] + r.cells, r.end), line)
  {
    assert line == [','] + line[1..];
    var q := Record([[]] + r.cells, r.end);
    assert q.cells[1..] == r.cells;
    assert "" + ([','] + Line(r.cells, r.end)) == [','] + Line(r.cells, r.end);
    forall i | 0 <= i < |q.cells| ensures Writable(q.cells[i]) {
      assert i > 0 ==> q.cells[i] == r.cells[i - 1];
    }
    assert q.cells[|q.cells| - 1] == r.cells[|r.cells| - 1];
  }

  lemma QuotedInFront(line: string, text: string, tail: string, r: Record)
    requires line != "" && line[0] == '"' && line[1..] == Escape(text) + (['"'] + tail)
    requires WrittenAs(r, tail) && (tail == "" || tail[0] != '"')
    ensures WrittenAs(Prepend(Quoted(text), r), line)
  {
    PrependValid(Quoted(text), r);
    PrependLine(Quoted(text), r);
    assert line == ['"'] + line[1..];
    Associative(['"'] + Escape(text), ['"'], tail);
    Associative(['"'], Escape(text), ['"'] + tail);
  }

  lemma BareInFront(line: string, r: Record)
    requires line != "" && line[0] != ',' && line[0] != '"' && WrittenAs(r, line[1..])
    ensures WrittenAs(Prepend(Bare([line[0]]), r), line)
  {
    PrependValid(Bare([line[0]]), r);
    PrependLine(Bare([line[0]]), r);
    assert line == [line[0]] + line[1..];
  }

  lemma QuotedToEnd(line: string, text: string)
    requires line != "" && line[0] == '"' && line[1..] == Escape(text)
    ensures WrittenAs(Record([[]], Open(text)), line)
  {
    assert "" + (['"'] + Escape(text)) == line;
  }

  lemma {:induction false} EveryLineIsWritten(line: string) returns (r: Record)
    ensures WrittenAs(r, line)
    decreases |line|
  {
    if line == "" {
      r := Record([[]], Closed);
    } else if line[0] == '"' {
      var text, closed, tail := ReadQuoted(line[1..]);
      if closed {
        var rest := EveryLineIsWritten(tail);
        r := Prepend(Quoted(text), rest);
        QuotedInFront(line, text, tail, rest);
      } else {
        r := Record([[]], Open(text));
        QuotedToEnd(line, text);
      }
    } else {
      var rest := EveryLineIsWritten(line[1..]);
      if line[0] == ',' {
        r := Record([[]] + rest.cells, rest.end);
        CommaInFront(line, rest);
      } else {
        r := Prepend(Bare([line[0]]), rest);
        BareInFront(line, rest);
      }
    }
  }

  /** What splitting gives, for every line: the line is one record, written with pieces in quotes and pieces
      without, and perhaps an unclosed quote at the end, and the result are the fields of that record. */
  lemma SplitMeansRecord(line: string) returns (r: Record)
    ensures WrittenAs(r, line) && SplitFrom(line, "", false) == Fields(r.cells, r.end)
  {
    r := EveryLineIsWritten(line);
    SplitUndoesWriting(r.cells, r.end);
  }

  /** A record in the form of RFC 4180: every field as it is, if it is harmless, or all in quotes. */
  function Plain(field: Piece): Cell {
    if field.Bare? && field.text == "" then [] else [field]
  }

  function PlainCells(fields: seq<Piece>): (r: seq<Cell>)
    ensures |r| == |fields| && forall i :: 0 <= i < |fields| ==> r[i] == Plain(fields[i])
  {
    seq(|fields|, i requires 0 <= i < |fields| => Plain(fields[i]))
  }

  /** Splitting undoes RFC 4180 quoting: for every non-empty record, with any characters in the
      quoted fields and any choice of which harmless fields stay bare. */
  lemma {:induction false} SplitUndoesQuoting(fields: seq<Piece>)
    requires fields != []
    requires forall i :: 0 <= i < |fields| ==> fields[i].Bare? ==> ',' !in fields[i].text && '"' !in fields[i].text
    ensures var split := SplitFrom(Line(PlainCells(fields), Closed), "", false);
      |split| == |fields| && forall i :: 0 <= i < |fields| ==> split[i] == fields[i].text
  {
    SplitUndoesWriting(PlainCells(fields), Closed);
    PlainFields(fields);
  }

  lemma {:induction false} PlainFields(fields: seq<Piece>)
    requires fields != []
    ensures var f := Fields(PlainCells(fields), Closed);
      |f| == |fields| && forall i :: 0 <= i < |fields| ==> f[i] == fields[i].text
    decreases |fields|
  {
    assert forall i :: 0 <= i < |fields| ==> Text(Plain(fields[i])) == fields[i].text;
    if |fields| > 1 {
      assert PlainCells(fields)[1..] == PlainCells(fields[1..]);
      PlainFields(fields[1..]);
    }
  }
}
