/** The text of the generated table of error names, and how to read it back. */
module ErrorText {
  import opened Text

  /** One line of the generated array: the index in its comment and the strings on it. */
  datatype Row = Row(first: int, entries: seq<string>)

  // ----- printing ---------------------------------------------------------------------------------------

  function Decimal(n: int): string
    decreases n < 0, if n < 0 then -n else n
  {
    if n < 0 then "-" + Decimal(-n)
    else if n < 10 then [('0' as int + n) as char]
    else Decimal(n / 10) + [('0' as int + n % 10) as char]
  }

  /** Most significant digit first, and a sign only where it is needed. */
  lemma DecimalDigits(n: nat, d: nat)
    requires d < 10
    ensures Decimal(d) == ["0123456789"[d]]
    ensures n > 0 ==> Decimal(10 * n + d) == Decimal(n) + ["0123456789"[d]]
    ensures n > 0 ==> Decimal(0 - n) == "-" + Decimal(n)
  {
  }

  function Value(digits: string): int {
    if digits == "" then 0
    else 10 * Value(digits[..|digits| - 1]) + (digits[|digits| - 1] as int - '0' as int)
  }

  predicate Digits(s: string) {
    forall i | 0 <= i < |s| :: '0' <= s[i] <= '9'
  }

  /** The text of a number is its base-ten digits, without leading zeros. */
  lemma {:induction false} DecimalIs(n: nat)
    ensures var s := Decimal(n); s != "" && Digits(s) && Value(s) == n && (n > 0 ==> s[0] != '0')
  {
    if n >= 10 {
      DecimalIs(n / 10);
      var s := Decimal(n);
      assert s[..|s| - 1] == Decimal(n / 10);
    } else {
      assert Decimal(n)[..0] == "";
    }
  }

  /** The %3d conversion. */
  function Padded(s: string): string
    decreases 3 - |s|
  {
    if |s| >= 3 then s else Padded(" " + s)
  }

  /** Blanks to the left, up to three characters in all. */
  lemma {:induction false} PaddedIs(s: string)
    ensures var t, n := Padded(s), 3 - Min(3, |s|);
            |t| == n + |s| && t[n..] == s && forall i | 0 <= i < n :: t[i] == ' '
    decreases 3 - |s|
  {
    if |s| < 3 {
      PaddedIs(" " + s);
      var t, n := Padded(s), 3 - |s|;
      assert t[n..] == t[n - 1..][1..];
      assert t[n - 1] == t[n - 1..][0];
    }
  }

  function Header(first: int): string {
    "    /* " + Padded(Decimal(first)) + " */ "
  }

  function Quoted(entries: seq<string>): string {
    if entries == [] then ""
    else if |entries| == 1 then "\"" + entries[0] + "\""
    else Quoted(entries[..|entries| - 1]) + ", " + "\"" + entries[|entries| - 1] + "\""
  }

  function Render(row: Row): string {
    Header(row.first) + Quoted(row.entries)
  }

  /** The finished rows as they are printed, each with the separator that was put before the row was ended. */
  function PrintedRows(rows: seq<Row>): seq<string> {
    if rows == [] then [] else PrintedRows(rows[..|rows| - 1]) + [Render(rows[|rows| - 1]) + ", "]
  }

  /** The whole file: the array with its last row, and the largest index. */
  function Listing(rows: seq<Row>, last: Row, maxEname: int): seq<string> {
    ["static char *ename[] = {"] + PrintedRows(rows)
    + [Render(last), "};", "", "#define MAX_ENAME " + Decimal(maxEname)]
  }

  /** The array the rows spell out. */
  function Flat(rows: seq<Row>): seq<string> {
    if rows == [] then [] else Flat(rows[..|rows| - 1]) + rows[|rows| - 1].entries
  }

  lemma FlatSnoc(rows: seq<Row>, row: Row)
    ensures Flat(rows + [row]) == Flat(rows) + row.entries
  {
    assert (rows + [row])[..|rows|] == rows;
  }

  lemma SameLine(row: Row, entry: string)
    requires row.entries != []
    ensures Render(row.(entries := row.entries + [entry])) == Render(row) + ", " + "\"" + entry + "\""
  {
    var entries := row.entries + [entry];
    assert entries[..|entries| - 1] == row.entries;
    assert Quoted(entries) == Quoted(row.entries) + ", " + "\"" + entry + "\"";
  }

  lemma NewLine(rows: seq<Row>, row: Row, first: int, entry: string)
    ensures PrintedRows(rows + [row]) == PrintedRows(rows) + [Render(row) + ", "]
    ensures Render(Row(first, [entry])) == Header(first) + "\"" + entry + "\""
  {
    assert (rows + [row])[..|rows|] == rows;
  }

  // ----- names joined with slashes ------------------------------------------------------------------------

  function Slashed(name: string, aliases: seq<string>): string {
    if aliases == [] then name else Slashed(name, aliases[..|aliases| - 1]) + "/" + aliases[|aliases| - 1]
  }

  function Preceded(parts: seq<string>, c: char): (all: seq<string>)
    ensures |all| == |parts| && forall i | 0 <= i < |parts| :: all[i] == [c] + parts[i]
  {
    seq(|parts|, i requires 0 <= i < |parts| => [c] + parts[i])
  }

  function Followed(parts: seq<string>, c: char): (all: seq<string>)
    ensures |all| == |parts| && forall i | 0 <= i < |parts| :: all[i] == parts[i] + [c]
  {
    seq(|parts|, i requires 0 <= i < |parts| => parts[i] + [c])
  }

  lemma {:induction false} SlashedIs(name: string, aliases: seq<string>)
    ensures Slashed(name, aliases) == name + Flatten(Preceded(aliases, '/'))
  {
    if aliases == [] {
      EmptyFlat();
    } else {
      var init, last := aliases[..|aliases| - 1], aliases[|aliases| - 1];
      SlashedIs(name, init);
      FlattenSnoc(Preceded(init, '/'), "/" + last);
      assert Preceded(aliases, '/') == Preceded(init, '/') + ["/" + last];
    }
  }

  /** The pieces of `s` between the characters `c`. */
  function Cut(s: string, c: char): (parts: seq<string>)
    ensures parts != []
  {
    if s == "" then [""]
    else
      var parts, last := Cut(s[..|s| - 1], c), s[|s| - 1];
      if last == c then parts + [""] else Extended(parts, [last])
  }

  function Extended(parts: seq<string>, more: string): seq<string>
    requires parts != []
  {
    parts[|parts| - 1 := parts[|parts| - 1] + more]
  }

  predicate Without(s: string, c: char) {
    forall i | 0 <= i < |s| :: s[i] != c
  }

  lemma {:induction false} CutMore(a: string, b: string, c: char)
    requires Without(b, c)
    ensures Cut(a + b, c) == Extended(Cut(a, c), b)
  {
    var parts := Cut(a, c);
    if b == "" {
      assert a + b == a;
      assert parts[|parts| - 1] + b == parts[|parts| - 1];
    } else {
      var init, last := b[..|b| - 1], b[|b| - 1];
      assert (a + b)[..|a + b| - 1] == a + init;
      CutMore(a, init, c);
      assert parts[|parts| - 1] + init + [last] == parts[|parts| - 1] + b;
    }
  }

  lemma CutHere(a: string, c: char)
    ensures Cut(a + [c], c) == Cut(a, c) + [""]
  {
    assert (a + [c])[..|a|] == a;
  }

  /** The joined string, cut at its slashes, is the name and its aliases again. */
  lemma {:induction false} SlashedCut(name: string, aliases: seq<string>)
    requires Without(name, '/') && forall i | 0 <= i < |aliases| :: Without(aliases[i], '/')
    ensures Cut(Slashed(name, aliases), '/') == [name] + aliases
  {
    if aliases == [] {
      assert "" + name == name;
      CutMore("", name, '/');
    } else {
      var init, last := aliases[..|aliases| - 1], aliases[|aliases| - 1];
      SlashedCut(name, init);
      CutHere(Slashed(name, init), '/');
      CutMore(Slashed(name, init) + "/", last, '/');
      assert "" + last == last && aliases == init + [last];
    }
  }

  /** Such pieces can be had in one way only: none holds the character, and with it between them they are the
      string. */
  lemma {:induction false} CutIs(s: string, c: char)
    ensures forall i | 0 <= i < |Cut(s, c)| :: Without(Cut(s, c)[i], c)
    ensures Flatten(Followed(Cut(s, c), c)) == s + [c]
  {
    if s == "" {
      EmptyFlat();
      FollowMore([], c);
      assert Followed([], c) == [] && [] + [""] == [""];
    } else {
      var init, last := s[..|s| - 1], s[|s| - 1];
      var before := Cut(init, c);
      CutIs(init, c);
      assert s == init + [last];
      if last == c {
        FollowMore(before, c);
      } else {
        ExtendFollowed(before, last, c, init);
      }
    }
  }

  lemma FollowMore(before: seq<string>, c: char)
    ensures Flatten(Followed(before + [""], c)) == Flatten(Followed(before, c)) + [c]
  {
    hide Flatten;
    assert "" + [c] == [c];
    assert Followed(before + [""], c) == Followed(before, c) + [[c]];
    FlattenSnoc(Followed(before, c), [c]);
  }

  lemma ExtendFollowed(before: seq<string>, last: char, c: char, init: string)
    requires before != [] && Flatten(Followed(before, c)) == init + [c]
    ensures Flatten(Followed(Extended(before, [last]), c)) == init + [last] + [c]
  {
    hide Flatten;
    var k := |before| - 1;
    var some := Followed(before[..k], c);
    assert Followed(before, c) == some + [before[k] + [c]];
    assert Followed(Extended(before, [last]), c) == some + [before[k] + [last] + [c]];
    FlattenSnoc(some, before[k] + [c]);
    FlattenSnoc(some, before[k] + [last] + [c]);
    assert (Flatten(some) + (before[k] + [c]))[..|init|] == Flatten(some) + before[k];
    assert (init + [c])[..|init|] == init;
    assert Flatten(some) + (before[k] + [last] + [c]) == Flatten(some) + before[k] + [last] + [c];
  }

  // ----- reading the table back ---------------------------------------------------------------------------

  /** The string literals on a line: every second piece between its quotation marks. */
  function Strings(line: string): (all: seq<string>)
    ensures |all| == |Cut(line, '"')| / 2
    ensures forall i | 0 <= i < |all| :: all[i] == Cut(line, '"')[2 * i + 1]
  {
    var parts := Cut(line, '"');
    seq(|parts| / 2, i requires 0 <= i < |parts| / 2 => parts[2 * i + 1])
  }

  /** The string literals of a file, line by line. */
  function ReadBack(lines: seq<string>): seq<string> {
    if lines == [] then [] else ReadBack(lines[..|lines| - 1]) + Strings(lines[|lines| - 1])
  }

  ghost predicate AllWithout(entries: seq<string>, c: char) {
    forall i | 0 <= i < |entries| :: Without(entries[i], c)
  }

  lemma {:induction false} DecimalPlain(n: int)
    ensures Without(Decimal(n), '"')
    decreases n < 0, if n < 0 then -n else n
  {
    if n < 0 {
      DecimalPlain(-n);
    } else if n >= 10 {
      DecimalPlain(n / 10);
    }
  }

  lemma {:induction false} PaddedPlain(s: string)
    requires Without(s, '"')
    ensures Without(Padded(s), '"')
    decreases 3 - |s|
  {
    if |s| < 3 {
      PaddedPlain(" " + s);
    }
  }

  lemma HeaderPlain(first: int)
    ensures Without(Header(first), '"')
  {
    DecimalPlain(first);
    PaddedPlain(Decimal(first));
  }

  /** A row as cut at its quotation marks. */
  ghost predicate RowParts(parts: seq<string>, header: string, entries: seq<string>) {
    && |parts| == 2 * |entries| + 1 && (entries == [] ==> parts[0] == header)
    && (entries != [] ==> parts[0] == header && parts[2 * |entries|] == "")
    && forall i | 0 <= i < |entries| :: parts[2 * i + 1] == entries[i]
  }

  lemma CutQuoted(a: string, separator: string, entry: string)
    requires Without(separator, '"') && Without(entry, '"')
    ensures Cut(a + separator + "\"" + entry + "\"", '"') == Extended(Cut(a, '"'), separator) + [entry] + [""]
  {
    CutMore(a, separator, '"');
    CutHere(a + separator, '"');
    CutMore(a + separator + "\"", entry, '"');
    CutHere(a + separator + "\"" + entry, '"');
    var before := Extended(Cut(a, '"'), separator);
    assert "" + entry == entry;
    assert Extended(before + [""], entry) == before + [entry];
  }

  lemma FirstParts(header: string, entry: string)
    requires Without(header, '"') && Without(entry, '"')
    ensures RowParts(Cut(header, '"'), header, [])
    ensures RowParts(Cut(header + "\"" + entry + "\"", '"'), header, [entry])
  {
    CutMore("", header, '"');
    assert "" + header == header && header + "" == header;
    CutQuoted(header, "", entry);
  }

  lemma NextParts(a: string, header: string, entries: seq<string>, entry: string)
    requires RowParts(Cut(a, '"'), header, entries) && entries != [] && Without(entry, '"')
    ensures RowParts(Cut(a + ", " + "\"" + entry + "\"", '"'), header, entries + [entry])
  {
    CutQuoted(a, ", ", entry);
  }

  lemma {:induction false} RenderCut(row: Row)
    requires AllWithout(row.entries, '"')
    ensures RowParts(Cut(Render(row), '"'), Header(row.first), row.entries)
    decreases |row.entries|
  {
    hide Cut, RowParts, Without, Header;
    var header, entries := Header(row.first), row.entries;
    HeaderPlain(row.first);
    if |entries| <= 1 {
      var entry := if entries == [] then header else entries[0];
      FirstParts(header, entry);
      assert header + "" == header && header + ("\"" + entry + "\"") == header + "\"" + entry + "\"";
      assert entries == [] || entries == [entry];
    } else {
      var last := |entries| - 1;
      var before := row.(entries := entries[..last]);
      assert entries == before.entries + [entries[last]];
      RenderCut(before);
      SameLine(before, entries[last]);
      NextParts(Render(before), header, before.entries, entries[last]);
    }
  }

  lemma RowReadsBack(row: Row)
    requires AllWithout(row.entries, '"')
    ensures Strings(Render(row)) == row.entries && Strings(Render(row) + ", ") == row.entries
  {
    RenderCut(row);
    CutMore(Render(row), ", ", '"');
  }

  lemma NothingToRead(line: string)
    requires Without(line, '"')
    ensures Strings(line) == []
  {
    CutMore("", line, '"');
    assert "" + line == line;
  }

  lemma ReadOneMore(lines: seq<string>, line: string)
    ensures ReadBack(lines + [line]) == ReadBack(lines) + Strings(line)
  {
    assert (lines + [line])[..|lines|] == lines;
  }

  lemma {:induction false} RowsReadBack(rows: seq<Row>)
    requires AllWithout(Flat(rows), '"')
    ensures ReadBack(["static char *ename[] = {"] + PrintedRows(rows)) == Flat(rows)
  {
    var head := ["static char *ename[] = {"];
    if rows == [] {
      NothingToRead(head[0]);
      ReadOneMore([], head[0]);
      assert head + PrintedRows(rows) == [] + [head[0]];
    } else {
      var last := |rows| - 1;
      EntriesWithout(rows[..last], rows[last]);
      assert rows == rows[..last] + [rows[last]];
      RowsReadBack(rows[..last]);
      RowReadsBack(rows[last]);
      ReadOneMore(head + PrintedRows(rows[..last]), Render(rows[last]) + ", ");
      assert head + PrintedRows(rows) == head + PrintedRows(rows[..last]) + [Render(rows[last]) + ", "];
    }
  }

  lemma EntriesWithout(rows: seq<Row>, row: Row)
    requires AllWithout(Flat(rows + [row]), '"')
    ensures AllWithout(Flat(rows), '"') && AllWithout(row.entries, '"')
  {
    FlatSnoc(rows, row);
    var all := Flat(rows + [row]);
    forall i | 0 <= i < |Flat(rows)| ensures Without(Flat(rows)[i], '"') {
      assert all[i] == Flat(rows)[i];
    }
    forall i | 0 <= i < |row.entries| ensures Without(row.entries[i], '"') {
      assert all[|Flat(rows)| + i] == row.entries[i];
    }
  }

  /** What a compiler reads as the array's strings is the table, if no name holds a quotation mark. */
  lemma ListingReadsBack(rows: seq<Row>, last: Row, maxEname: int)
    requires AllWithout(Flat(rows + [last]), '"')
    ensures ReadBack(Listing(rows, last, maxEname)) == Flat(rows + [last])
  {
    hide ReadBack, Render, Flat, Strings, Cut;
    var define := "#define MAX_ENAME " + Decimal(maxEname);
    var body := ["static char *ename[] = {"] + PrintedRows(rows);
    EntriesWithout(rows, last);
    FlatSnoc(rows, last);
    RowsReadBack(rows);
    RowReadsBack(last);
    DecimalPlain(maxEname);
    NothingToRead("};");
    NothingToRead("");
    NothingToRead(define);
    ReadFourMore(body, Render(last), "};", "", define);
    assert body + [Render(last), "};", "", define] == Listing(rows, last, maxEname);
    assert Flat(rows) + last.entries + [] + [] + [] == Flat(rows) + last.entries;
  }

  lemma ReadFourMore(lines: seq<string>, a: string, b: string, c: string, d: string)
    ensures ReadBack(lines + [a, b, c, d]) == ReadBack(lines) + Strings(a) + Strings(b) + Strings(c) + Strings(d)
  {
    hide ReadBack, Strings;
    ReadOneMore(lines, a);
    ReadOneMore(lines + [a], b);
    ReadOneMore(lines + [a, b], c);
    ReadOneMore(lines + [a, b, c], d);
    assert lines + [a] + [b] == lines + [a, b];
    assert lines + [a, b] + [c] == lines + [a, b, c];
    assert lines + [a, b, c] + [d] == lines + [a, b, c, d];
  }

  /** The comment in front of a row. */
  lemma HeaderIs(first: int)
    ensures Header(first) == "    /* " + Padded(Decimal(first)) + " */ "
    ensures Header(0) == "    /*   0 */ " && Header(11) == "    /*  11 */ " && Header(133) == "    /* 133 */ "
  {
    assert Decimal(11) == "11" && Decimal(133) == "133";
    assert Padded("0") == "  0" && Padded("11") == " 11";
  }
}
