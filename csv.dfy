/** The CSV text the "Download Assessment Data" button builds from the form data: a
    header row, then one row per field of every section, cells in double quotes.
    Text values have their quotes doubled (RFC 4180, section 2, rule 7); list values are
    joined with "; " and NOT escaped. */
module Csv {
  import opened Wrappers
  import opened Assoc
  import opened Text
  import opened Forms

  const Header := "Section,Field,Value"

  /** The third cell between its quotes. */
  function CellText(v: Value): string
  {
    match v
    case Str(s) => DoubleQuotes(s)
    case Strs(items) => Join(items, "; ")
    case Nums(ns) => Join(NumStrings(ns), "; ")
  }

  /** The row of one field: `"section","field","value"`. */
  function Row(section: string, field: string, v: Value): string
  {
    "\"" + section + "\",\"" + field + "\",\"" + CellText(v) + "\""
  }

  /** The rows of one section, one per field, in entry order. */
  function FieldRows(section: string, rec: Record): seq<string>
  {
    seq(|rec|, j requires 0 <= j < |rec| => Row(section, rec[j].0, rec[j].1))
  }

  /** The rows of all sections, section after section. */
  function SectionRows(fd: FormData): seq<string>
  {
    if |fd| == 0 then []
    else SectionRows(fd[..|fd| - 1]) + FieldRows(fd[|fd| - 1].0, fd[|fd| - 1].1)
  }

  /** All rows of the file: the header, then one row per field over all sections. */
  function Rows(fd: FormData): (rows: seq<string>)
    ensures |rows| == 1 + FieldCount(fd) && rows[0] == Header
  {
    SectionRowsLength(fd);
    [Header] + SectionRows(fd)
  }

  /** The number of fields over all sections. */
  function FieldCount(fd: FormData): nat
  {
    if |fd| == 0 then 0 else FieldCount(fd[..|fd| - 1]) + |fd[|fd| - 1].1|
  }

  /** The nested `forEach` loops of `downloadCSV`. */
  method BuildRows(fd: FormData) returns (rows: seq<string>)
    ensures rows == Rows(fd)
  {
    rows := [Header];
    var i := 0;
    while i < |fd|
      invariant 0 <= i <= |fd|
      invariant rows == Rows(fd[..i])
    {
      rows := PushSection(rows, fd[i].0, fd[i].1);
      RowsSnoc(fd, i);
      i := i + 1;
    }
    assert fd[..i] == fd;
  }

  /** The inner loop: the rows of one section pushed after those built so far. */
  method PushSection(rows: seq<string>, section: string, data: Record) returns (out: seq<string>)
    ensures out == rows + FieldRows(section, data)
  {
    out := rows;
    var j := 0;
    while j < |data|
      invariant 0 <= j <= |data|
      invariant out == rows + FieldRows(section, data[..j])
    {
      var row := Row(section, data[j].0, data[j].1);
      FieldRowsSnoc(section, data, j);
      assert rows + FieldRows(section, data[..j]) + [row] == rows + FieldRows(section, data[..j + 1]);
      out := out + [row];
      j := j + 1;
    }
    assert data[..j] == data;
  }

  lemma FieldRowsSnoc(section: string, data: Record, j: nat)
    requires j < |data|
    ensures FieldRows(section, data[..j + 1]) == FieldRows(section, data[..j]) + [Row(section, data[j].0, data[j].1)]
  {
  }

  lemma RowsSnoc(fd: FormData, i: nat)
    requires i < |fd|
    ensures Rows(fd[..i + 1]) == Rows(fd[..i]) + FieldRows(fd[i].0, fd[i].1)
  {
    assert fd[..i + 1][..i] == fd[..i];
    assert SectionRows(fd[..i + 1]) == SectionRows(fd[..i]) + FieldRows(fd[i].0, fd[i].1);
  }

  /** `csvData.join("\n")`: no newline after the last row. */
  method DownloadCsv(fd: FormData) returns (content: string)
    ensures content == Join(Rows(fd), "\n")
  {
    var rows := BuildRows(fd);
    content := Join(rows, "\n");
  }

  // ---------------------------------------------------------------------------------
  // Shape and order of the rows

  lemma {:induction false} SectionRowsLength(fd: FormData)
    ensures |SectionRows(fd)| == FieldCount(fd)
  {
    if |fd| > 0 {
      SectionRowsLength(fd[..|fd| - 1]);
    }
  }

  lemma {:induction false} SectionRowAt(fd: FormData, i: nat, j: nat)
    requires i < |fd| && j < |fd[i].1|
    ensures FieldCount(fd[..i]) + j < |SectionRows(fd)|
    ensures SectionRows(fd)[FieldCount(fd[..i]) + j] == FieldRows(fd[i].0, fd[i].1)[j]
  {
    var n := |fd| - 1;
    var init := fd[..n];
    SectionRowsLength(fd);
    SectionRowsLength(init);
    if i < n {
      assert init[..i] == fd[..i];
      assert init[i] == fd[i];
      SectionRowAt(init, i, j);
    } else {
      assert init == fd[..i];
    }
  }

  /** The file starts with the header, has one row per field, and the row of field `j` of
      section `i` comes right after the rows of all earlier fields. */
  lemma RowAt(fd: FormData, i: nat, j: nat)
    requires i < |fd| && j < |fd[i].1|
    ensures Rows(fd)[0] == Header && |Rows(fd)| == 1 + FieldCount(fd)
    ensures 1 + FieldCount(fd[..i]) + j < |Rows(fd)|
    ensures Rows(fd)[1 + FieldCount(fd[..i]) + j] == Row(fd[i].0, fd[i].1[j].0, fd[i].1[j].1)
  {
    var sr, k := SectionRows(fd), FieldCount(fd[..i]) + j;
    SectionRowsLength(fd);
    SectionRowAt(fd, i, j);
    assert Rows(fd) == [Header] + sr;
    assert ([Header] + sr)[1 + k] == sr[k];
    assert FieldRows(fd[i].0, fd[i].1)[j] == Row(fd[i].0, fd[i].1[j].0, fd[i].1[j].1);
  }

  // ---------------------------------------------------------------------------------
  // Reading the file back

  /** Reads the body of a quoted field, starting just after its opening quote: `""` stands
      for one quote and a lone `"` closes the field. Gives the text and what follows. */
  function ReadQuoted(s: string): (r: Option<(string, string)>)
    ensures r.Some? ==> |r.value.1| < |s|
  {
    if |s| == 0 then None
    else if s[0] == '"' then
      if |s| >= 2 && s[1] == '"' then
        match ReadQuoted(s[2..])
        case None => None
        case Some((t, rest)) => Some(("\"" + t, rest))
      else Some(("", s[1..]))
    else
      match ReadQuoted(s[1..])
      case None => None
      case Some((t, rest)) => Some(([s[0]] + t, rest))
  }

  /** An RFC 4180 record whose fields are all quoted, separated by commas. */
  function ParseRecord(s: string): Option<seq<string>>
    decreases |s|
  {
    if |s| == 0 || s[0] != '"' then None
    else
      match ReadQuoted(s[1..])
      case None => None
      case Some((t, rest)) =>
        if |rest| == 0 then Some([t])
        else if rest[0] == ',' then
          match ParseRecord(rest[1..])
          case None => None
          case Some(ts) => Some([t] + ts)
        else None
  }

  /** A field in quotes with its own quotes doubled. */
  function Quoted(x: string): string
  {
    "\"" + DoubleQuotes(x) + "\""
  }

  function QuotedAll(xs: seq<string>): seq<string>
  {
    seq(|xs|, i requires 0 <= i < |xs| => Quoted(xs[i]))
  }

  lemma ReadQuotedClose(rest: string)
    requires |rest| == 0 || rest[0] != '"'
    ensures ReadQuoted("\"" + rest) == Some(("", rest))
  {
    assert ("\"" + rest)[1..] == rest;
  }

  lemma ReadQuotedPair(t: string, a: string, rest: string)
    requires ReadQuoted(t) == Some((a, rest))
    ensures ReadQuoted("\"\"" + t) == Some(("\"" + a, rest))
  {
    assert ("\"\"" + t)[2..] == t;
  }

  lemma ReadQuotedChar(c: char, t: string, a: string, rest: string)
    requires c != '"' && ReadQuoted(t) == Some((a, rest))
    ensures ReadQuoted([c] + t) == Some(([c] + a, rest))
  {
    assert ([c] + t)[1..] == t;
  }

  lemma {:induction false} ReadQuotedEscaped(x: string, rest: string)
    requires |rest| == 0 || rest[0] != '"'
    ensures ReadQuoted(DoubleQuotes(x) + "\"" + rest) == Some((x, rest))
  {
    if |x| == 0 {
      assert DoubleQuotes(x) + "\"" + rest == "\"" + rest;
      ReadQuotedClose(rest);
    } else {
      var head := if x[0] == '"' then "\"\"" else [x[0]];
      var tail := DoubleQuotes(x[1..]) + "\"" + rest;
      ReadQuotedEscaped(x[1..], rest);
      assert DoubleQuotes(x) + "\"" + rest == head + tail;
      if x[0] == '"' {
        ReadQuotedPair(tail, x[1..], rest);
      } else {
        ReadQuotedChar(x[0], tail, x[1..], rest);
      }
      assert [x[0]] + x[1..] == x;
    }
  }

  /** Quoting every field and joining with commas is undone by the parser. */
  lemma {:induction false} ParseQuotedRecord(xs: seq<string>)
    requires |xs| >= 1
    ensures ParseRecord(Join(QuotedAll(xs), ",")) == Some(xs)
  {
    var q := QuotedAll(xs);
    if |xs| == 1 {
      ReadQuotedEscaped(xs[0], "");
      assert Join(q, ",") == "\"" + (DoubleQuotes(xs[0]) + "\"" + "");
      assert Join(q, ",")[1..] == DoubleQuotes(xs[0]) + "\"" + "";
      assert xs == [xs[0]];
    } else {
      var tail := Join(QuotedAll(xs[1..]), ",");
      assert q[1..] == QuotedAll(xs[1..]);
      assert Join(q, ",") == "\"" + (DoubleQuotes(xs[0]) + "\"" + ("," + tail));
      assert Join(q, ",")[1..] == DoubleQuotes(xs[0]) + "\"" + ("," + tail);
      ReadQuotedEscaped(xs[0], "," + tail);
      assert ("," + tail)[1..] == tail;
      ParseQuotedRecord(xs[1..]);
      assert xs == [xs[0]] + xs[1..];
    }
  }

  /** The value a row means to carry: the text itself, or the list items joined. */
  function Plain(v: Value): string
  {
    match v
    case Str(s) => s
    case Strs(items) => Join(items, "; ")
    case Nums(ns) => Join(NumStrings(ns), "; ")
  }

  lemma JoinThree(x: string, y: string, z: string, sep: string)
    ensures Join([x, y, z], sep) == x + sep + y + sep + z
  {
    assert [x, y, z][1..] == [y, z];
    assert [y, z][1..] == [z];
    assert Join([y, z], sep) == y + sep + z;
  }

  lemma QuotedThree(a: string, b: string, c: string)
    requires '"' !in a && '"' !in b
    ensures "\"" + a + "\",\"" + b + "\",\"" + DoubleQuotes(c) + "\"" == Join(QuotedAll([a, b, c]), ",")
  {
    var q, d := "\"", DoubleQuotes(c);
    DoubleQuotesPlain(a);
    DoubleQuotesPlain(b);
    assert QuotedAll([a, b, c]) == [q + a + q, q + b + q, q + d + q];
    JoinThree(q + a + q, q + b + q, q + d + q, ",");
    assert "\",\"" == q + "," + q;
    Reassociate(q, a, ",", b, d);
  }

  lemma Reassociate(q: string, a: string, comma: string, b: string, d: string)
    ensures q + a + (q + comma + q) + b + (q + comma + q) + d + q
         == (q + a + q) + comma + (q + b + q) + comma + (q + d + q)
  {
  }

  /** A row is the three quoted cells whenever the section and field names hold no quote
      and, for a list, the joined items hold none either. */
  lemma RowIsRecord(section: string, field: string, v: Value)
    requires '"' !in section && '"' !in field && (v.Str? || '"' !in Plain(v))
    ensures Row(section, field, v) == Join(QuotedAll([section, field, Plain(v)]), ",")
  {
    var p := Plain(v);
    assert CellText(v) == DoubleQuotes(p) by {
      if !v.Str? {
        assert CellText(v) == p;
        DoubleQuotesPlain(p);
      }
    }
    QuotedThree(section, field, p);
  }

  /** An RFC 4180 reader gets the section, the field and the value back from each row:
      text values whatever quotes they contain, list values as their "; "-joined items. */
  lemma RowRoundTrip(section: string, field: string, v: Value)
    requires '"' !in section && '"' !in field && (v.Str? || '"' !in Plain(v))
    ensures ParseRecord(Row(section, field, v)) == Some([section, field, Plain(v)])
  {
    RowIsRecord(section, field, v);
    ParseQuotedRecord([section, field, Plain(v)]);
  }

  /** A quoted field without quotes of its own, then a comma: the record stands or falls
      with what follows. */
  lemma FieldThenFail(x: string, more: string)
    requires '"' !in x && ParseRecord(more) == None
    ensures ParseRecord("\"" + x + "\"," + more) == None
  {
    var s := "\"" + x + "\"," + more;
    DoubleQuotesPlain(x);
    assert s[1..] == DoubleQuotes(x) + "\"" + ("," + more);
    ReadQuotedEscaped(x, "," + more);
    assert ("," + more)[1..] == more;
  }

  /** A quote inside the last cell, followed by anything but a comma or a second quote,
      ends the cell early and leaves text the record cannot hold. */
  lemma BrokenCell(a: string, b: string)
    requires '"' !in a && |b| > 0 && b[0] != ',' && b[0] != '"'
    ensures ParseRecord("\"" + a + "\"" + b + "\"") == None
  {
    var s := "\"" + a + "\"" + b + "\"";
    DoubleQuotesPlain(a);
    assert s[1..] == DoubleQuotes(a) + "\"" + (b + "\"");
    ReadQuotedEscaped(a, b + "\"");
  }

  lemma RowPieces(q: string, section: string, sep: string, field: string, cell: string)
    requires sep == q + "," + q
    ensures q + section + sep + field + sep + cell + q == q + section + (q + ",") + (q + field + (q + ",") + (q + cell + q))
  {
  }

  /** A quote inside a list item is not doubled, so the reader closes the cell at that
      quote and rejects the row: the list does not come back. */
  lemma ListQuoteBreaksRow(section: string, field: string, a: string, b: string)
    requires '"' !in section && '"' !in field && '"' !in a
    requires |b| > 0 && b[0] != ',' && b[0] != '"'
    ensures ParseRecord(Row(section, field, Strs([a + "\"" + b]))) == None
  {
    var q, item := "\"", a + "\"" + b;
    assert CellText(Strs([item])) == item;
    var third := q + item + q;
    assert third == "\"" + a + "\"" + b + "\"";
    BrokenCell(a, b);
    var second := q + field + "\"," + third;
    FieldThenFail(field, third);
    RowPieces(q, section, "\",\"", field, item);
    assert Row(section, field, Strs([item])) == q + section + "\"," + second;
    FieldThenFail(section, second);
  }

  // ---------------------------------------------------------------------------------
  // Lines

  lemma {:induction false} JoinAvoids(parts: seq<string>, sep: string, c: char)
    requires c !in sep && forall i :: 0 <= i < |parts| ==> c !in parts[i]
    ensures c !in Join(parts, sep)
  {
    if |parts| > 1 {
      JoinAvoids(parts[1..], sep, c);
    }
  }

  lemma {:induction false} DoubleQuotesAvoids(s: string, c: char)
    requires c != '"' && c !in s
    ensures c !in DoubleQuotes(s)
  {
    if |s| > 0 {
      DoubleQuotesAvoids(s[1..], c);
    }
  }

  lemma {:induction false} NatToStringDigits(n: nat)
    ensures '\n' !in NatToString(n)
    decreases n
  {
    if n >= 10 { NatToStringDigits(n / 10); }
  }

  lemma {:induction false} NumStringsNoNewline(ns: seq<int>)
    ensures forall i :: 0 <= i < |ns| ==> '\n' !in NumStrings(ns)[i]
  {
    if |ns| > 0 {
      NumStringsNoNewline(ns[1..]);
      NatToStringDigits(if ns[0] < 0 then -ns[0] else ns[0]);
      assert NumStrings(ns) == [IntToString(ns[0])] + NumStrings(ns[1..]);
    }
  }

  /** No key and no text of the form data contains a line break. */
  predicate SingleLine(fd: FormData)
  {
    forall i :: 0 <= i < |fd| ==> '\n' !in fd[i].0 && forall j :: 0 <= j < |fd[i].1| ==>
      '\n' !in fd[i].1[j].0 &&
      (fd[i].1[j].1.Str? ==> '\n' !in fd[i].1[j].1.s) &&
      (fd[i].1[j].1.Strs? ==> forall k :: 0 <= k < |fd[i].1[j].1.items| ==> '\n' !in fd[i].1[j].1.items[k])
  }

  lemma RowSingleLine(section: string, field: string, v: Value)
    requires '\n' !in section && '\n' !in field
    requires v.Str? ==> '\n' !in v.s
    requires v.Strs? ==> forall k :: 0 <= k < |v.items| ==> '\n' !in v.items[k]
    ensures '\n' !in Row(section, field, v)
  {
    match v
    case Str(s) => DoubleQuotesAvoids(s, '\n');
    case Strs(items) => JoinAvoids(items, "; ", '\n');
    case Nums(ns) => NumStringsNoNewline(ns); JoinAvoids(NumStrings(ns), "; ", '\n');
  }

  lemma {:induction false} SectionRowsSingleLine(fd: FormData)
    requires SingleLine(fd)
    ensures forall r :: r in SectionRows(fd) ==> '\n' !in r
  {
    if |fd| > 0 {
      var n := |fd| - 1;
      assert SingleLine(fd[..n]) by {
        forall i | 0 <= i < n ensures fd[..n][i] == fd[i] { }
      }
      SectionRowsSingleLine(fd[..n]);
      forall j | 0 <= j < |fd[n].1| ensures '\n' !in Row(fd[n].0, fd[n].1[j].0, fd[n].1[j].1) {
        RowSingleLine(fd[n].0, fd[n].1[j].0, fd[n].1[j].1);
      }
    }
  }

  /** When no text holds a line break, splitting the file at "\n" gives back exactly the
      header and the field rows: one line per row, no trailing empty line. */
  lemma LinesAreRows(fd: FormData)
    requires SingleLine(fd)
    ensures Split(Join(Rows(fd), "\n"), '\n') == Rows(fd)
  {
    SectionRowsSingleLine(fd);
    var rows := Rows(fd);
    forall i | 0 <= i < |rows| ensures '\n' !in rows[i] {
      if i > 0 { assert rows[i] in SectionRows(fd); }
    }
    SplitJoin(rows, '\n');
  }
}
