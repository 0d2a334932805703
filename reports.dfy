/** `toCSV` of src/app/dashboard/reports/page.tsx: a header line made of the first row's
    keys, then one line per row listing that row's values in the header's key order,
    fields joined by "," and lines by "\n", with no quoting. */
module Reports {
  import opened Common

  /** A cell value is a string or a number. Only integer numbers are modelled; `String(n)`
      writes them in decimal. */
  datatype Value = Text(s: string) | Number(n: int)

  datatype Field = Field(key: string, value: Value)

  /** A record, its fields in key insertion order (the order `Object.keys` lists
      non-integer keys in). */
  type Row = seq<Field>

  function Render(v: Value): string
  {
    match v
    case Text(s) => s
    case Number(n) => IntToDecimal(n)
  }

  function Keys(r: Row): (ks: seq<string>)
    ensures |ks| == |r| && forall i :: 0 <= i < |r| ==> ks[i] == r[i].key
  {
    seq(|r|, i requires 0 <= i < |r| => r[i].key)
  }

  /** `r[h]`: the value under key `h`, or None (`undefined`) when the row has no such key. */
  function Lookup(r: Row, key: string): (v: Option<Value>)
    ensures v.None? <==> forall i :: 0 <= i < |r| ==> r[i].key != key
    ensures forall i :: 0 <= i < |r| && r[i].key == key && (forall j :: 0 <= j < i ==> r[j].key != key) ==>
      v == Some(r[i].value)
  {
    if r == [] then None
    else if r[0].key == key then Some(r[0].value)
    else
      var v := Lookup(r[1..], key);
      assert forall i :: 1 <= i < |r| ==> r[i] == r[1..][i - 1];
      v
  }

  /** How `join` writes an element: `undefined` becomes the empty string. */
  function Cell(r: Row, key: string): string
  {
    match Lookup(r, key)
    case None => ""
    case Some(v) => Render(v)
  }

  /** `Array.prototype.join(sep)`. */
  function Join(parts: seq<string>, sep: char): string
  {
    if parts == [] then ""
    else if |parts| == 1 then parts[0]
    else parts[0] + [sep] + Join(parts[1..], sep)
  }

  /** `String.prototype.split(sep)` for a one-character separator: the pieces between
      separators, always at least one. */
  function Split(s: string, sep: char): (parts: seq<string>)
    ensures |parts| >= 1
  {
    if s == [] then [""]
    else if s[0] == sep then [""] + Split(s[1..], sep)
    else
      var rest := Split(s[1..], sep);
      [[s[0]] + rest[0]] + rest[1..]
  }

  function Headers(rows: seq<Row>): seq<string>
  {
    if |rows| > 0 then Keys(rows[0]) else []
  }

  /** One data line: the row's cells in the header's key order. */
  function Cells(r: Row, headers: seq<string>): (cs: seq<string>)
    ensures |cs| == |headers| && forall j :: 0 <= j < |headers| ==> cs[j] == Cell(r, headers[j])
  {
    seq(|headers|, j requires 0 <= j < |headers| => Cell(r, headers[j]))
  }

  function Lines(rows: seq<Row>): (ls: seq<string>)
    ensures |ls| == |rows| + 1
  {
    var headers := Headers(rows);
    [Join(headers, ',')] + seq(|rows|, i requires 0 <= i < |rows| => Join(Cells(rows[i], headers), ','))
  }

  function ToCSV(rows: seq<Row>): string
  {
    Join(Lines(rows), '\n')
  }

  // ---------------------------------------------------------------- properties

  /** No rows, no headers: the output is empty. */
  lemma ToCSVEmpty()
    ensures ToCSV([]) == ""
  {
    assert Lines([]) == [""];
  }

  predicate Free(s: string, c: char)
  {
    forall i :: 0 <= i < |s| ==> s[i] != c
  }

  lemma {:induction false} JoinFree(parts: seq<string>, sep: char, c: char)
    requires c != sep && forall i :: 0 <= i < |parts| ==> Free(parts[i], c)
    ensures Free(Join(parts, sep), c)
    decreases |parts|
  {
    if |parts| > 1 {
      JoinFree(parts[1..], sep, c);
    }
  }

  lemma {:induction false} SplitFree(p: string, sep: char)
    requires Free(p, sep)
    ensures Split(p, sep) == [p]
    decreases |p|
  {
    if p != [] {
      SplitFree(p[1..], sep);
      assert [p[0]] + p[1..] == p;
    }
  }

  lemma {:induction false} SplitAtSep(p: string, rest: string, sep: char)
    requires Free(p, sep)
    ensures Split(p + [sep] + rest, sep) == [p] + Split(rest, sep)
    decreases |p|
  {
    var s := p + [sep] + rest;
    if p == [] {
      assert s[1..] == rest;
    } else {
      assert s[1..] == p[1..] + [sep] + rest;
      SplitAtSep(p[1..], rest, sep);
      assert [p[0]] + p[1..] == p;
    }
  }

  /** Splitting undoes joining when no part holds the separator. */
  lemma {:induction false} SplitJoin(parts: seq<string>, sep: char)
    requires |parts| >= 1 && forall i :: 0 <= i < |parts| ==> Free(parts[i], sep)
    ensures Split(Join(parts, sep), sep) == parts
    decreases |parts|
  {
    if |parts| == 1 {
      SplitFree(parts[0], sep);
    } else {
      SplitJoin(parts[1..], sep);
      SplitAtSep(parts[0], Join(parts[1..], sep), sep);
      assert [parts[0]] + parts[1..] == parts;
    }
  }

  predicate RowFree(r: Row, c: char)
  {
    forall k :: 0 <= k < |r| ==> Free(r[k].key, c) && Free(Render(r[k].value), c)
  }

  lemma CellFree(r: Row, key: string, c: char)
    requires RowFree(r, c)
    ensures Free(Cell(r, key), c)
  {
    match Lookup(r, key)
    case None =>
    case Some(v) =>
      var i :| 0 <= i < |r| && r[i].key == key && (forall j :: 0 <= j < i ==> r[j].key != key) by {
        FirstWithKey(r, key);
      }
  }

  lemma {:induction false} FirstWithKey(r: Row, key: string)
    requires exists i :: 0 <= i < |r| && r[i].key == key
    ensures exists i :: 0 <= i < |r| && r[i].key == key && (forall j :: 0 <= j < i ==> r[j].key != key)
    decreases |r|
  {
    if r[0].key != key {
      var k :| 0 <= k < |r| && r[k].key == key;
      assert r[1..][k - 1].key == key;
      FirstWithKey(r[1..], key);
      var i :| 0 <= i < |r[1..]| && r[1..][i].key == key && (forall j :: 0 <= j < i ==> r[1..][j].key != key);
      assert forall j :: 0 <= j < i + 1 ==> r[j].key != key by {
        forall j | 0 <= j < i + 1
          ensures r[j].key != key
        {
          if j > 0 {
            assert r[j] == r[1..][j - 1];
          }
        }
      }
    }
  }

  /** A data line is free of a character that no key or value of its row contains. */
  lemma LineFree(r: Row, headers: seq<string>, c: char)
    requires c != ',' && RowFree(r, c)
    ensures Free(Join(Cells(r, headers), ','), c)
  {
    var cs := Cells(r, headers);
    forall j | 0 <= j < |cs|
      ensures Free(cs[j], c)
    {
      CellFree(r, headers[j], c);
    }
    JoinFree(cs, ',', c);
  }

  lemma HeaderFree(rows: seq<Row>, c: char)
    requires c != ',' && (|rows| > 0 ==> RowFree(rows[0], c))
    ensures Free(Join(Headers(rows), ','), c)
  {
    var headers := Headers(rows);
    forall k | 0 <= k < |headers|
      ensures Free(headers[k], c)
    {
      assert headers[k] == rows[0][k].key;
    }
    JoinFree(headers, ',', c);
  }

  lemma LinesFree(rows: seq<Row>)
    requires forall i :: 0 <= i < |rows| ==> RowFree(rows[i], '\n')
    ensures forall i :: 0 <= i < |Lines(rows)| ==> Free(Lines(rows)[i], '\n')
  {
    var headers := Headers(rows);
    var ls := Lines(rows);
    HeaderFree(rows, '\n');
    assert ls[0] == Join(headers, ',');
    forall i | 1 <= i < |ls|
      ensures Free(ls[i], '\n')
    {
      assert ls[i] == Join(Cells(rows[i - 1], headers), ',');
      LineFree(rows[i - 1], headers, '\n');
    }
  }

  /** With newline-free keys and values the output splits back into exactly one header
      line and one line per row: the header is the first row's keys, and line `i + 1`
      holds row `i`'s cells in that key order. */
  lemma CSVLines(rows: seq<Row>)
    requires forall i :: 0 <= i < |rows| ==> RowFree(rows[i], '\n')
    ensures |Split(ToCSV(rows), '\n')| == |rows| + 1
    ensures Split(ToCSV(rows), '\n')[0] == Join(Headers(rows), ',')
    ensures forall i :: 0 <= i < |rows| ==>
      Split(ToCSV(rows), '\n')[i + 1] == Join(Cells(rows[i], Headers(rows)), ',')
  {
    LinesFree(rows);
    SplitJoin(Lines(rows), '\n');
  }

  /** A data line of comma-free cells splits back into those cells. */
  lemma LineFields(r: Row, headers: seq<string>)
    requires |headers| >= 1 && RowFree(r, ',')
    ensures Split(Join(Cells(r, headers), ','), ',') == Cells(r, headers)
  {
    var cs := Cells(r, headers);
    forall j | 0 <= j < |cs|
      ensures Free(cs[j], ',')
    {
      CellFree(r, headers[j], ',');
    }
    SplitJoin(cs, ',');
  }

  /** With comma-free cells, splitting data line `i + 1` on "," gives back row `i`'s
      cells in header order; a key the row lacks gives an empty field. */
  lemma CSVFields(rows: seq<Row>, i: int)
    requires 0 <= i < |rows| && |Headers(rows)| >= 1
    requires forall k :: 0 <= k < |rows| ==> RowFree(rows[k], '\n') && RowFree(rows[k], ',')
    ensures |Split(ToCSV(rows), '\n')| == |rows| + 1
    ensures Split(Split(ToCSV(rows), '\n')[i + 1], ',') == Cells(rows[i], Headers(rows))
    ensures forall j :: 0 <= j < |Headers(rows)| && Lookup(rows[i], Headers(rows)[j]).None? ==>
      Split(Split(ToCSV(rows), '\n')[i + 1], ',')[j] == ""
  {
    var headers := Headers(rows);
    var cs := Cells(rows[i], headers);
    CSVLines(rows);
    assert RowFree(rows[i], ',');
    LineFields(rows[i], headers);
  }

  lemma SplitCommaValue()
    ensures Split("a,b", ',') == ["a", "b"]
  {
    assert "a,b" == "a" + [','] + "b";
    SplitAtSep("a", "b", ',');
    SplitFree("b", ',');
  }

  /** Values are written unquoted, so a comma inside one splits it: a one-column report
      whose value is "a,b" reads back as two fields. */
  lemma UnquotedCommaSplits()
    ensures var rows := [[Field("note", Text("a,b"))]];
            |Headers(rows)| == 1 && |Split(ToCSV(rows), '\n')| == 2 &&
            Split(Split(ToCSV(rows), '\n')[1], ',') == ["a", "b"]
  {
    var rows := [[Field("note", Text("a,b"))]];
    assert RowFree(rows[0], '\n');
    CSVLines(rows);
    assert Headers(rows) == ["note"];
    assert Lookup(rows[0], "note") == Some(Text("a,b"));
    assert Cells(rows[0], ["note"]) == ["a,b"];
    SplitCommaValue();
  }
}
