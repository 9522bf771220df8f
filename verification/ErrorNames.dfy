/** The generator of the table of error names that diagnostics index with errno. */
module ErrorNames {
  import opened ErrorText

  const LINE_LEN: nat := 68

  /** A line of the preprocessor's output: a name defined as another name, or as a number. */
  datatype Record = Synonym(name: string, target: string) | Define(name: string, number: int)

  // ----- the table --------------------------------------------------------------------------------------

  /** Every row's comment is the index of its first string, and no row is empty. */
  ghost predicate Labelled(rows: seq<Row>) {
    forall i | 0 <= i < |rows| :: rows[i].first == |Flat(rows[..i])| && rows[i].entries != []
  }

  function LastNumber(records: seq<Record>): int {
    if records == [] then 0
    else if records[|records| - 1].Define? then records[|records| - 1].number
    else LastNumber(records[..|records| - 1])
  }

  /** The numbers are strictly increasing, from at least 1. */
  predicate Increasing(records: seq<Record>) {
    records == []
    || (var init, r := records[..|records| - 1], records[|records| - 1];
        Increasing(init) && (r.Define? ==> r.number > LastNumber(init)))
  }

  /** Entries too many: what a number that does not increase adds to the table's length beyond its index. */
  function Excess(records: seq<Record>): nat {
    if records == [] then 0
    else
      var init, r := records[..|records| - 1], records[|records| - 1];
      Excess(init) + if r.Define? && r.number <= LastNumber(init) then LastNumber(init) - r.number + 1 else 0
  }

  lemma {:induction false} NoExcess(records: seq<Record>)
    ensures Excess(records) == 0 <==> Increasing(records)
    ensures Increasing(records) ==> LastNumber(records) >= 0
  {
    if records != [] {
      NoExcess(records[..|records| - 1]);
    }
  }

  function Synonyms(records: seq<Record>): map<string, string> {
    if records == [] then map[]
    else
      var init, r := Synonyms(records[..|records| - 1]), records[|records| - 1];
      if r.Synonym? then init[r.name := r.target] else init
  }

  /** The last line about a name decides what it is a synonym of. */
  lemma {:induction false} LastSynonym(records: seq<Record>, i: nat)
    requires i < |records| && records[i].Synonym? && LastOf(records, i)
    ensures records[i].name in Synonyms(records) && Synonyms(records)[records[i].name] == records[i].target
  {
    var last := |records| - 1;
    if i < last {
      var init := records[..last];
      forall j | i < j < |init| ensures !IsSynonym(init, j, init[i].name) {
        assert !IsSynonym(records, j, records[i].name);
      }
      LastSynonym(init, i);
      assert !IsSynonym(records, last, records[i].name);
    }
  }

  /** Only names with such a line are synonyms. */
  lemma {:induction false} SynonymHasLine(records: seq<Record>, k: string)
    requires k in Synonyms(records)
    ensures exists i | 0 <= i < |records| :: IsSynonym(records, i, k)
  {
    var last := |records| - 1;
    if !IsSynonym(records, last, k) {
      SynonymHasLine(records[..last], k);
      var i :| 0 <= i < last && IsSynonym(records[..last], i, k);
      assert IsSynonym(records, i, k);
    }
  }

  /** The last number is the one of the last definition. */
  lemma {:induction false} LastDefinition(records: seq<Record>, i: nat)
    requires i < |records| && records[i].Define? && forall j | i < j < |records| :: records[j].Synonym?
    ensures LastNumber(records) == records[i].number
  {
    if i < |records| - 1 {
      LastDefinition(records[..|records| - 1], i);
    }
  }

  predicate IsSynonym(records: seq<Record>, i: nat, k: string)
    requires i < |records|
  {
    records[i].Synonym? && records[i].name == k
  }

  /** No line after `i` makes its name a synonym again. */
  predicate LastOf(records: seq<Record>, i: nat)
    requires i < |records|
  {
    forall j | i < j < |records| :: !IsSynonym(records, j, records[i].name)
  }

  /** The other names of `name`, in the order in which `order` goes over the array of synonyms. */
  function Aliases(synonym: map<string, string>, order: seq<string>, name: string): seq<string> {
    if order == [] then []
    else
      var k := order[|order| - 1];
      Aliases(synonym, order[..|order| - 1], name) + if k in synonym && synonym[k] == name then [k] else []
  }

  lemma {:induction false} AliasesExactly(synonym: map<string, string>, order: seq<string>, name: string, k: string)
    ensures k in Aliases(synonym, order, name) <==> k in order && k in synonym && synonym[k] == name
  {
    if order != [] {
      AliasesExactly(synonym, order[..|order| - 1], name, k);
      assert order == order[..|order| - 1] + [order[|order| - 1]];
    }
  }

  /** The string at index `number` belongs to the record that defines it, with the synonyms read before it. */
  ghost predicate Entered(table: seq<string>, records: seq<Record>, order: seq<string>) {
    forall i | 0 <= i < |records| && records[i].Define? :: EnteredAt(table, records, order, i)
  }

  ghost predicate EnteredAt(table: seq<string>, records: seq<Record>, order: seq<string>, i: nat)
    requires i < |records| && records[i].Define?
  {
    && 0 < records[i].number < |table|
    && table[records[i].number] == FullName(records, order, i)
  }

  function FullName(records: seq<Record>, order: seq<string>, i: nat): string
    requires i < |records|
  {
    Slashed(records[i].name, Aliases(Synonyms(records[..i]), order, records[i].name))
  }

  predicate Defined(records: seq<Record>, number: int) {
    exists i | 0 <= i < |records| :: records[i].Define? && records[i].number == number
  }

  /** One string per index; every name at its own number, and nothing elsewhere. */
  ghost predicate IsTable(table: seq<string>, records: seq<Record>, order: seq<string>) {
    && |table| == LastNumber(records) + 1
    && Entered(table, records, order)
    && forall n | 0 <= n < |table| :: !Defined(records, n) ==> table[n] == ""
  }

  ghost predicate NoRepeats(names: seq<string>) {
    forall i, j | 0 <= i < j < |names| :: names[i] != names[j]
  }

  /** What awk's for-in promises: every key of the array once, in some order. */
  ghost predicate Enumerates(order: seq<string>, synonym: map<string, string>) {
    NoRepeats(order) && forall k :: k in order <==> k in synonym
  }

  /** The lines are sorted: names defined as other names come first. */
  predicate SynonymsOnTop(records: seq<Record>) {
    forall a, b | 0 <= a < b < |records| && records[a].Define? :: records[b].Define?
  }

  /** `aliases` are the names that the file defines as `name`, each once. */
  ghost predicate AllAliases(records: seq<Record>, name: string, aliases: seq<string>) {
    && NoRepeats(aliases)
    && forall k :: k in aliases <==> k in Synonyms(records) && Synonyms(records)[k] == name
  }

  ghost predicate CompleteAt(table: seq<string>, records: seq<Record>, i: nat)
    requires i < |records| && records[i].Define?
  {
    && 0 < records[i].number < |table|
    && HasEntry(records, records[i].name, table[records[i].number])
  }

  /** `entry` is `name` with all that is defined as it: cut at its slashes, when the names hold none, it is the
      name and those others, each once. */
  ghost predicate IsEntry(records: seq<Record>, name: string, aliases: seq<string>, entry: string) {
    && AllAliases(records, name, aliases)
    && entry == Slashed(name, aliases)
    && (Plain(records) && Without(name, '/') ==> Cut(entry, '/') == [name] + aliases)
  }

  ghost predicate HasEntry(records: seq<Record>, name: string, entry: string) {
    exists aliases :: IsEntry(records, name, aliases, entry)
  }

  /** No synonym has a slash in it. */
  predicate Plain(records: seq<Record>) {
    forall k | k in Synonyms(records) :: Without(k, '/')
  }

  /** One string per index: at every number its name with all names defined as it, and nothing elsewhere. */
  ghost predicate Complete(table: seq<string>, records: seq<Record>) {
    && |table| == LastNumber(records) + 1
    && (forall i | 0 <= i < |records| && records[i].Define? :: CompleteAt(table, records, i))
    && forall n | 0 <= n < |table| :: !Defined(records, n) ==> table[n] == ""
  }

  /** With the synonyms sorted to the top every name comes with all of its synonyms. */
  lemma {:induction false} SynonymsFirst(records: seq<Record>, i: nat)
    requires i < |records| && records[i].Define?
    requires SynonymsOnTop(records)
    ensures Synonyms(records[..i]) == Synonyms(records)
  {
    var last := |records| - 1;
    if i < last {
      SynonymsFirst(records[..last], i);
      assert records[..last][..i] == records[..i];
      assert records[last].Define?;
    } else {
      assert records[..i] == records[..last];
    }
  }

  lemma {:induction false} AliasesOnce(synonym: map<string, string>, order: seq<string>, name: string)
    requires NoRepeats(order)
    ensures NoRepeats(Aliases(synonym, order, name))
  {
    if order != [] {
      var init := order[..|order| - 1];
      AliasesOnce(synonym, init, name);
      var k := order[|order| - 1];
      assert k !in init;
      AliasesExactly(synonym, init, name, k);
    }
  }

  /** With the lines sorted, whatever order awk takes the synonyms in, no name is missing and none is put in
      twice. */
  lemma TableIsComplete(table: seq<string>, records: seq<Record>, order: seq<string>)
    requires IsTable(table, records, order) && SynonymsOnTop(records) && Enumerates(order, Synonyms(records))
    ensures Complete(table, records)
  {
    hide Slashed, Aliases, Synonyms, LastNumber;
    forall i | 0 <= i < |records| && records[i].Define? ensures CompleteAt(table, records, i) {
      assert EnteredAt(table, records, order, i);
      SynonymsFirst(records, i);
      var name := records[i].name;
      var aliases := Aliases(Synonyms(records), order, name);
      AliasesOnce(Synonyms(records), order, name);
      forall k ensures k in aliases <==> k in Synonyms(records) && Synonyms(records)[k] == name {
        AliasesExactly(Synonyms(records), order, name, k);
      }
      EntryIs(records, name, aliases);
    }
  }

  lemma EntryIs(records: seq<Record>, name: string, aliases: seq<string>)
    requires AllAliases(records, name, aliases)
    ensures IsEntry(records, name, aliases, Slashed(name, aliases))
  {
    if Plain(records) && Without(name, '/') {
      forall i | 0 <= i < |aliases| ensures Without(aliases[i], '/') {
        assert aliases[i] in aliases;
      }
      SlashedCut(name, aliases);
    }
  }

  /** The string of two names for one number. */
  lemma TwoNames()
    ensures var records := [Synonym("EWOULDBLOCK", "EAGAIN"), Define("EAGAIN", 11)];
            FullName(records, ["EWOULDBLOCK"], 1) == "EAGAIN/EWOULDBLOCK"
  {
    var records := [Synonym("EWOULDBLOCK", "EAGAIN"), Define("EAGAIN", 11)];
    assert records[..1] == [Synonym("EWOULDBLOCK", "EAGAIN")];
    assert Synonyms(records[..1]) == map["EWOULDBLOCK" := "EAGAIN"] by {
      assert records[..1][..0] == [];
    }
    assert Aliases(map["EWOULDBLOCK" := "EAGAIN"], ["EWOULDBLOCK"], "EAGAIN") == ["EWOULDBLOCK"];
    assert ["EWOULDBLOCK"][..0] == [];
  }

  // ----- the code ---------------------------------------------------------------------------------------

  /** The finished rows, and the one being built. */
  ghost predicate Building(output: seq<string>, line: string, rows: seq<Row>, row: Row) {
    && output == ["static char *ename[] = {"] + PrintedRows(rows)
    && line == Render(row) && row.entries != []
  }

  ghost predicate LabelsFit(rows: seq<Row>, row: Row) {
    Labelled(rows) && row.first == |Flat(rows)|
  }

  lemma NextRow(rows: seq<Row>, row: Row)
    requires LabelsFit(rows, row) && row.entries != []
    ensures Labelled(rows + [row])
  {
    var all := rows + [row];
    forall i | 0 <= i < |all| ensures all[i].first == |Flat(all[..i])| && all[i].entries != [] {
      assert all[..i] == rows[..i];
      assert i == |rows| ==> rows[..i] == rows;
    }
  }

  // ----- where lines are broken ---------------------------------------------------------------------------

  /** The entry `last`, of width `ename`, is put on the line of `row`. */
  predicate Fits(row: Row, ename: string, last: int) {
    |Render(row) + ", " + ename| <= LINE_LEN && last != 1
  }

  /** The string `j` of `row` was put on the line that the ones before it had begun. */
  ghost predicate FitsAt(row: Row, j: nat, enames: seq<string>)
    requires j < |row.entries|
  {
    && 0 <= row.first + j < |enames|
    && Fits(row.(entries := row.entries[..j]), enames[row.first + j], row.first + j)
  }

  ghost predicate RowFits(row: Row, enames: seq<string>) {
    forall j | 0 < j < |row.entries| :: FitsAt(row, j, enames)
  }

  ghost predicate Broken(row: Row, next: Row, enames: seq<string>) {
    0 <= next.first < |enames| && !Fits(row, enames[next.first], next.first)
  }

  ghost predicate LineOk(rows: seq<Row>, i: nat, enames: seq<string>)
    requires i < |rows|
  {
    RowFits(rows[i], enames) && (i > 0 ==> Broken(rows[i - 1], rows[i], enames))
  }

  /** Every line is filled as far as it can be, the entry `k` counting for the width of `enames[k]`, and 1
      always begins a line. */
  ghost predicate Layout(rows: seq<Row>, enames: seq<string>) {
    |enames| == |Flat(rows)| && forall i | 0 <= i < |rows| :: LineOk(rows, i, enames)
  }

  /** An entry has its own width; one in a gap has the width of the last name before it. */
  ghost predicate Widths(table: seq<string>, records: seq<Record>, enames: seq<string>) {
    && |enames| == |table| && (table != [] ==> enames[0] == "")
    && forall k | 0 < k < |table| :: WidthAt(table, records, enames, k)
  }

  ghost predicate WidthAt(table: seq<string>, records: seq<Record>, enames: seq<string>, k: nat)
    requires 0 < k < |table| == |enames|
  {
    enames[k] == if Defined(records, k) then table[k] else enames[k - 1]
  }

  lemma StillOk(rows: seq<Row>, i: nat, enames: seq<string>, ename: string, more: seq<Row>)
    requires i < |rows| <= |more| && LineOk(rows, i, enames) && more[..i + 1] == rows[..i + 1]
    ensures LineOk(more, i, enames + [ename])
  {
    hide Fits;
    var row := rows[i];
    assert more[i] == more[..i + 1][i] == row;
    assert i > 0 ==> more[i - 1] == more[..i + 1][i - 1] == rows[i - 1];
    forall j | 0 < j < |row.entries| ensures FitsAt(row, j, enames + [ename]) {
      assert FitsAt(row, j, enames);
    }
  }

  lemma BreakHere(rows: seq<Row>, row: Row, enames: seq<string>, ename: string, entry: string)
    requires Layout(rows + [row], enames) && !Fits(row, ename, |enames|)
    ensures Layout(rows + [row] + [Row(|enames|, [entry])], enames + [ename])
  {
    hide Fits, LineOk;
    var all, next := rows + [row], Row(|enames|, [entry]);
    FlatSnoc(all, next);
    forall i | 0 <= i < |all + [next]| ensures LineOk(all + [next], i, enames + [ename]) {
      if i < |all| {
        StillOk(all, i, enames, ename, all + [next]);
      } else {
        OneEntry(all, next, enames + [ename]);
      }
    }
  }

  lemma OneEntry(rows: seq<Row>, next: Row, enames: seq<string>)
    requires |next.entries| == 1 && rows != [] && Broken(rows[|rows| - 1], next, enames)
    ensures LineOk(rows + [next], |rows|, enames)
  {
  }

  lemma GoOn(rows: seq<Row>, row: Row, enames: seq<string>, ename: string, entry: string)
    requires Layout(rows + [row], enames) && LabelsFit(rows, row) && Fits(row, ename, |enames|)
    ensures Layout(rows + [row.(entries := row.entries + [entry])], enames + [ename])
  {
    hide Fits, LineOk;
    var all, more := rows + [row], row.(entries := row.entries + [entry]);
    FlatSnoc(rows, row);
    FlatSnoc(rows, more);
    forall i | 0 <= i < |rows + [more]| ensures LineOk(rows + [more], i, enames + [ename]) {
      if i < |rows| {
        StillOk(all, i, enames, ename, rows + [more]);
      } else {
        LongerRow(rows, row, enames, ename, entry);
      }
    }
  }

  lemma LongerRow(rows: seq<Row>, row: Row, enames: seq<string>, ename: string, entry: string)
    requires LineOk(rows + [row], |rows|, enames) && Fits(row, ename, |enames|)
    requires row.first + |row.entries| == |enames|
    ensures LineOk(rows + [row.(entries := row.entries + [entry])], |rows|, enames + [ename])
  {
    hide Fits;
    var more := row.(entries := row.entries + [entry]);
    assert (rows + [row])[|rows|] == row;
    forall j | 0 < j < |more.entries| ensures FitsAt(more, j, enames + [ename]) {
      assert more.entries[..j] == row.entries[..j];
      if j == |row.entries| {
        assert row.(entries := row.entries[..j]) == row;
      } else {
        assert FitsAt(row, j, enames);
      }
    }
    assert RowFits(more, enames + [ename]);
    if |rows| > 0 {
      var before := rows[|rows| - 1];
      assert (rows + [row])[|rows| - 1] == before && (rows + [more])[|rows| - 1] == before;
      assert Broken(before, row, enames);
      assert Broken(before, more, enames + [ename]);
    }
  }

  /** Put one more string on the line, or on a new one when the line would get too long. */
  method AddEntry(output: seq<string>, line: string, last: int, ename: string, entry: string,
                  ghost rows: seq<Row>, ghost row: Row, ghost enames: seq<string>)
      returns (output': seq<string>, line': string, ghost rows': seq<Row>, ghost row': Row)
    requires Building(output, line, rows, row)
    ensures Building(output', line', rows', row')
    ensures Flat(rows') + row'.entries == Flat(rows) + row.entries + [entry]
    ensures LabelsFit(rows, row) && last == |Flat(rows) + row.entries| ==>
              LabelsFit(rows', row') && (Layout(rows + [row], enames) ==> Layout(rows' + [row'], enames + [ename]))
  {
    hide Render, PrintedRows, Flat, Labelled, Layout;
    output', line', rows', row' := output, line + ", ", rows, row;
    if |line' + ename| > LINE_LEN || last == 1 {
      output' := output' + [line'];
      line' := Header(last);
      rows', row' := rows + [row], Row(last, [entry]);
      FlatSnoc(rows, row);
      NewLine(rows, row, last, entry);
      if LabelsFit(rows, row) {
        NextRow(rows, row);
      }
      if Layout(rows + [row], enames) && last == |Flat(rows) + row.entries| {
        FlatSnoc(rows, row);
        LayoutSize(rows + [row], enames);
        BreakHere(rows, row, enames, ename, entry);
      }
    } else {
      row' := row.(entries := row.entries + [entry]);
      SameLine(row, entry);
      assert Flat(rows) + row'.entries == Flat(rows) + row.entries + [entry];
      if Layout(rows + [row], enames) && LabelsFit(rows, row) && last == |Flat(rows) + row.entries| {
        FlatSnoc(rows, row);
        LayoutSize(rows + [row], enames);
        GoOn(rows, row, enames, ename, entry);
      }
    }
    line' := line' + "\"" + entry + "\"";
  }

  lemma LayoutSize(rows: seq<Row>, enames: seq<string>)
    requires Layout(rows, enames)
    ensures |enames| == |Flat(rows)|
  {
  }

  /** The name and its synonyms, as far as they have been read. */
  method JoinSynonyms(name: string, synonym: map<string, string>, order: seq<string>) returns (ename: string)
    ensures ename == Slashed(name, Aliases(synonym, order, name))
    ensures Without(name, '/') && (forall k | k in synonym :: Without(k, '/')) ==>
              Cut(ename, '/') == [name] + Aliases(synonym, order, name)
  {
    ename := name;
    for j := 0 to |order|
      invariant ename == Slashed(name, Aliases(synonym, order[..j], name))
    {
      var k := order[j];
      assert order[..j + 1][..j] == order[..j] && order[..j + 1][j] == k;
      assert Aliases(synonym, order[..j], name) + [] == Aliases(synonym, order[..j], name);
      if k in synonym && synonym[k] == name {
        ghost var before := Aliases(synonym, order[..j], name);
        assert (before + [k])[..|before|] == before;
        ename := ename + "/" + k;
      }
    }
    assert order[..|order|] == order;
    if Without(name, '/') && forall k | k in synonym :: Without(k, '/') {
      AliasesAreKeys(synonym, order, name);
      SlashedCut(name, Aliases(synonym, order, name));
    }
  }

  lemma {:induction false} AliasesAreKeys(synonym: map<string, string>, order: seq<string>, name: string)
    ensures forall i | 0 <= i < |Aliases(synonym, order, name)| :: Aliases(synonym, order, name)[i] in synonym
  {
    forall i | 0 <= i < |Aliases(synonym, order, name)| ensures Aliases(synonym, order, name)[i] in synonym {
      AliasesExactly(synonym, order, name, Aliases(synonym, order, name)[i]);
    }
  }

  function Blanks(n: nat): seq<string> {
    Times("", n)
  }

  function Times(s: string, n: nat): (all: seq<string>)
    ensures |all| == n && forall i | 0 <= i < n :: all[i] == s
  {
    seq(n, _ => s)
  }

  /** Empty strings for the numbers between the last one and the next. */
  method FillGap(output: seq<string>, line: string, last: int, number: int, ename: string,
                 ghost rows: seq<Row>, ghost row: Row, ghost enames: seq<string>)
      returns (output': seq<string>, line': string, ghost rows': seq<Row>, ghost row': Row)
    requires Building(output, line, rows, row)
    ensures Building(output', line', rows', row')
    ensures var gap := if last < number then number - last - 1 else 0;
            && Flat(rows') + row'.entries == Flat(rows) + row.entries + Blanks(gap)
            && (LabelsFit(rows, row) && last + 1 == |Flat(rows) + row.entries| ==>
                  && LabelsFit(rows', row')
                  && (Layout(rows + [row], enames) ==> Layout(rows' + [row'], enames + Times(ename, gap))))
  {
    hide Building, LabelsFit, Flat, Layout;
    output', line', rows', row' := output, line, rows, row;
    var at := last;
    assert enames + Times(ename, 0) == enames;
    while at + 1 < number
      invariant at == last || last < at < number
      invariant Building(output', line', rows', row')
      invariant Flat(rows') + row'.entries == Flat(rows) + row.entries + Blanks(at - last)
      invariant LabelsFit(rows, row) && last + 1 == |Flat(rows) + row.entries| ==>
                  && LabelsFit(rows', row')
                  && (Layout(rows + [row], enames) ==> Layout(rows' + [row'], enames + Times(ename, at - last)))
    {
      assert Blanks(at + 1 - last) == Blanks(at - last) + [""];
      assert enames + Times(ename, at + 1 - last) == enames + Times(ename, at - last) + [ename];
      at := at + 1;
      output', line', rows', row' :=
        AddEntry(output', line', at, ename, "", rows', row', enames + Times(ename, at - 1 - last));
    }
  }

  lemma TableGrows(table: seq<string>, records: seq<Record>, order: seq<string>, r: Record, grown: seq<string>)
    requires IsTable(table, records, order) && r.Define? && r.number > LastNumber(records) >= 0
    requires grown == table + Blanks(r.number - LastNumber(records) - 1)
                      + [Slashed(r.name, Aliases(Synonyms(records), order, r.name))]
    ensures IsTable(grown, records + [r], order)
  {
    hide Slashed, Aliases, Synonyms;
    var more := records + [r];
    assert more[..|records|] == records;
    forall i | 0 <= i < |more| && more[i].Define? ensures EnteredAt(grown, more, order, i) {
      if i < |records| {
        assert more[..i] == records[..i];
        assert EnteredAt(table, records, order, i);
      }
    }
    EmptyElsewhere(table, records, r, grown);
  }

  lemma EmptyElsewhere(table: seq<string>, records: seq<Record>, r: Record, grown: seq<string>)
    requires r.Define? && |table| <= r.number && |grown| == r.number + 1
    requires grown[..r.number] == table + Blanks(r.number - |table|)
    requires forall n | 0 <= n < |table| :: !Defined(records, n) ==> table[n] == ""
    ensures forall n | 0 <= n < |grown| :: !Defined(records + [r], n) ==> grown[n] == ""
  {
    hide Defined;
    forall n | 0 <= n < |grown| && !Defined(records + [r], n) ensures grown[n] == "" {
      SameDefined(records, r, n);
      assert n < r.number && grown[n] == grown[..r.number][n];
    }
  }

  lemma TableKeeps(table: seq<string>, records: seq<Record>, order: seq<string>, r: Record)
    requires IsTable(table, records, order) && r.Synonym?
    ensures IsTable(table, records + [r], order)
  {
    hide Slashed, Aliases, Synonyms;
    var more := records + [r];
    assert more[..|records|] == records;
    forall i | 0 <= i < |more| && more[i].Define? ensures EnteredAt(table, more, order, i) {
      assert more[..i] == records[..i];
      assert EnteredAt(table, records, order, i);
    }
    hide Defined;
    forall n | 0 <= n < |table| && !Defined(more, n) ensures table[n] == "" {
      SameDefined(records, r, n);
    }
  }

  /** What the generator keeps: so many strings, and the table itself while the numbers increase. */
  ghost predicate Good(table: seq<string>, records: seq<Record>, order: seq<string>, rows: seq<Row>, row: Row) {
    && table == Flat(rows) + row.entries
    && |table| == LastNumber(records) + 1 + Excess(records)
    && (Increasing(records) ==> IsTable(table, records, order) && LabelsFit(rows, row))
  }

  /** And while the numbers increase every line is filled as far as it can be. */
  ghost predicate Laid(records: seq<Record>, rows: seq<Row>, row: Row, enames: seq<string>, ename: string) {
    Increasing(records) ==>
      && Layout(rows + [row], enames) && Widths(Flat(rows) + row.entries, records, enames)
      && enames != [] && ename == enames[|enames| - 1]
  }

  lemma LaidStart()
    ensures Laid([], [], Row(0, [""]), [""], "")
  {
  }

  lemma LaidSynonym(records: seq<Record>, r: Record, rows: seq<Row>, row: Row, enames: seq<string>, ename: string)
    requires Laid(records, rows, row, enames, ename) && r.Synonym?
    ensures Laid(records + [r], rows, row, enames, ename)
  {
    hide Layout, Flat, Widths;
    var more := records + [r];
    assert more[..|records|] == records;
    if Increasing(more) {
      WidthsStay(Flat(rows) + row.entries, records, enames, r);
    }
  }

  lemma WidthsStay(table: seq<string>, records: seq<Record>, enames: seq<string>, r: Record)
    requires Widths(table, records, enames) && r.Synonym?
    ensures Widths(table, records + [r], enames)
  {
    hide Defined;
    forall k | 0 < k < |table| ensures WidthAt(table, records + [r], enames, k) {
      SameDefined(records, r, k);
      assert WidthAt(table, records, enames, k);
    }
  }

  lemma SameDefined(records: seq<Record>, r: Record, k: int)
    ensures Defined(records + [r], k) <==> Defined(records, k) || (r.Define? && r.number == k)
  {
    var more := records + [r];
    assert more[|records|] == r;
    if Defined(records, k) {
      var i :| 0 <= i < |records| && records[i].Define? && records[i].number == k;
      assert more[i] == records[i];
    }
  }

  lemma WidthsGrow(table: seq<string>, records: seq<Record>, enames: seq<string>, ename: string, order: seq<string>,
                   r: Record, entry: string)
    requires Widths(table, records, enames) && IsTable(table, records, order) && enames != []
    requires ename == enames[|enames| - 1]
    requires r.Define? && r.number > LastNumber(records) >= 0
    ensures var gap := r.number - LastNumber(records) - 1;
            Widths(table + Blanks(gap) + [entry], records + [r], enames + Times(ename, gap) + [entry])
  {
    hide LastNumber, Defined, Entered;
    var gap := r.number - LastNumber(records) - 1;
    var grown, wider := table + Blanks(gap) + [entry], enames + Times(ename, gap) + [entry];
    forall k | 0 < k < |grown| ensures WidthAt(grown, records + [r], wider, k) {
      SameDefined(records, r, k);
      if k >= |table| {
        NotDefinedYet(table, records, order, k);
        assert wider[k - 1] == ename;
      } else {
        assert WidthAt(table, records, enames, k);
      }
    }
    assert wider[0] == enames[0];
  }

  lemma NotDefinedYet(table: seq<string>, records: seq<Record>, order: seq<string>, k: nat)
    requires IsTable(table, records, order) && k >= |table|
    ensures !Defined(records, k)
  {
    forall i | 0 <= i < |records| && records[i].Define? ensures records[i].number != k {
      assert EnteredAt(table, records, order, i);
    }
  }

  lemma GoodStart(order: seq<string>)
    ensures Good([""], [], order, [], Row(0, [""]))
    ensures Building(["static char *ename[] = {"], "    /*   0 */ \"\"", [], Row(0, [""]))
  {
    assert Padded("0") == "  0";
    assert Header(0) == "    /*   0 */ ";
  }

  /** One definition: a gap of empty strings, if there is one, then the name. */
  method Enter(output: seq<string>, line: string, ename: string, synonym: map<string, string>, order: seq<string>,
               name: string, number: int, last: int, ghost records: seq<Record>, ghost rows: seq<Row>, ghost row: Row,
               ghost enames: seq<string>)
      returns (output': seq<string>, line': string, ename': string, ghost rows': seq<Row>, ghost row': Row,
               ghost enames': seq<string>)
    requires Building(output, line, rows, row) && Good(Flat(rows) + row.entries, records, order, rows, row)
    requires last == LastNumber(records) && synonym == Synonyms(records) && Laid(records, rows, row, enames, ename)
    ensures Building(output', line', rows', row')
    ensures Good(Flat(rows') + row'.entries, records + [Define(name, number)], order, rows', row')
    ensures Laid(records + [Define(name, number)], rows', row', enames', ename')
  {
    hide Building, LabelsFit, Flat, IsTable, Slashed, Aliases, Synonyms, Layout, Widths;
    ghost var more := records + [Define(name, number)];
    assert more[..|records|] == records;
    NoExcess(records);
    output', line', rows', row' := FillGap(output, line, last, number, ename, rows, row, enames);
    ename' := JoinSynonyms(name, synonym, order);
    ghost var before := Flat(rows') + row'.entries;
    ghost var filled := enames + Times(ename, if last < number then number - last - 1 else 0);
    output', line', rows', row' := AddEntry(output', line', number, ename', ename', rows', row', filled);
    ghost var grown := Flat(rows') + row'.entries;
    enames' := filled + [ename'];
    if Increasing(more) {
      TableGrows(Flat(rows) + row.entries, records, order, Define(name, number), grown);
      WidthsGrow(Flat(rows) + row.entries, records, enames, ename, order, Define(name, number), ename');
    }
  }

  /** The awk program. Its table has MAX_ENAME + 1 strings exactly when the numbers increase from at least 1,
      and then every string is at the right index, every row's comment is right, and every line is filled as
      far as it can be. What a compiler reads from the text as the array's strings is the table. */
  method BuildErrorNames(records: seq<Record>, order: seq<string>)
      returns (output: seq<string>, maxEname: int, ghost rows: seq<Row>, ghost enames: seq<string>)
    ensures rows != [] && output == Listing(rows[..|rows| - 1], rows[|rows| - 1], maxEname)
    ensures |output| > 4 && output[0] == "static char *ename[] = {"
    ensures output[|output| - 3..] == ["};", "", "#define MAX_ENAME " + Decimal(maxEname)]
    ensures AllWithout(Flat(rows), '"') ==> ReadBack(output) == Flat(rows)
    ensures maxEname == LastNumber(records)
    ensures |Flat(rows)| == maxEname + 1 + Excess(records)
    ensures |Flat(rows)| == maxEname + 1 <==> Increasing(records)
    ensures Increasing(records) ==>
              && IsTable(Flat(rows), records, order) && Labelled(rows)
              && Layout(rows, enames) && Widths(Flat(rows), records, enames)
    ensures Increasing(records) && SynonymsOnTop(records) && Enumerates(order, Synonyms(records)) ==>
              Complete(Flat(rows), records)
  {
    hide Building, LabelsFit, Flat, IsTable, Good, Laid, Labelled, Layout, Widths, ReadBack, AllWithout;
    hide Synonyms, LastNumber, Increasing, Excess, Listing, Complete, SynonymsOnTop, Enumerates;
    var last, ename := 0, "";
    var synonym: map<string, string> := map[];
    var line := "    /*   0 */ \"\"";
    output := ["static char *ename[] = {"];
    ghost var row := Row(0, [""]);
    rows, enames := [], [""];
    GoodStart(order);
    LaidStart();
    NoRecords();
    assert Flat(rows) + row.entries == [""] by { NoStrings(); }
    for i := 0 to |records|
      invariant Building(output, line, rows, row)
      invariant Good(Flat(rows) + row.entries, records[..i], order, rows, row)
      invariant Laid(records[..i], rows, row, enames, ename)
      invariant last == LastNumber(records[..i]) && synonym == Synonyms(records[..i])
    {
      NextRecord(records, i);
      match records[i]
      case Synonym(name, target) =>
        GoodSynonym(Flat(rows) + row.entries, records[..i], order, rows, row, records[i]);
        LaidSynonym(records[..i], records[i], rows, row, enames, ename);
        synonym := synonym[name := target];
      case Define(name, number) =>
        output, line, ename, rows, row, enames :=
          Enter(output, line, ename, synonym, order, name, number, last, records[..i], rows, row, enames);
        last := number;
    }
    assert records[..|records|] == records;
    maxEname := last;
    output := output + [line, "};", "", "#define MAX_ENAME " + Decimal(maxEname)];
    Finished(output, line, rows, row, records, order, maxEname);
    Ends(rows, row, maxEname);
    if Increasing(records) {
      LaidOut(rows, row, records, enames, ename);
    }
    if AllWithout(Flat(rows + [row]), '"') {
      ListingReadsBack(rows, row, maxEname);
    }
    rows := rows + [row];
    if Increasing(records) && SynonymsOnTop(records) && Enumerates(order, Synonyms(records)) {
      TableIsComplete(Flat(rows), records, order);
    }
  }

  lemma Ends(rows: seq<Row>, row: Row, last: int)
    ensures var output := Listing(rows, row, last);
            && |output| > 4 && output[0] == "static char *ename[] = {"
            && output[|output| - 3..] == ["};", "", "#define MAX_ENAME " + Decimal(last)]
  {
    hide PrintedRows, Render, Decimal;
  }

  lemma LaidOut(rows: seq<Row>, row: Row, records: seq<Record>, enames: seq<string>, ename: string)
    requires Laid(records, rows, row, enames, ename) && Increasing(records)
    ensures Layout(rows + [row], enames) && Widths(Flat(rows + [row]), records, enames)
  {
    FlatSnoc(rows, row);
  }

  lemma NoRecords()
    ensures LastNumber([]) == 0 && Synonyms([]) == map[]
  {
  }

  lemma NextRecord(records: seq<Record>, i: nat)
    requires i < |records|
    ensures records[..i + 1] == records[..i] + [records[i]]
    ensures LastNumber(records[..i + 1]) == if records[i].Define? then records[i].number else LastNumber(records[..i])
    ensures var before := Synonyms(records[..i]);
            Synonyms(records[..i + 1])
            == if records[i].Synonym? then before[records[i].name := records[i].target] else before
  {
    assert records[..i + 1][..i] == records[..i];
  }

  lemma NoStrings()
    ensures Flat([]) == []
  {
  }

  lemma GoodSynonym(table: seq<string>, records: seq<Record>, order: seq<string>, rows: seq<Row>, row: Row, r: Record)
    requires Good(table, records, order, rows, row) && r.Synonym?
    ensures Good(table, records + [r], order, rows, row)
  {
    hide IsTable, LabelsFit, Flat;
    assert (records + [r])[..|records|] == records;
    if Increasing(records) {
      TableKeeps(table, records, order, r);
    }
  }

  lemma Finished(output: seq<string>, line: string, rows: seq<Row>, row: Row,
                 records: seq<Record>, order: seq<string>, last: int)
    requires |output| >= 4 && Building(output[..|output| - 4], line, rows, row)
    requires output[|output| - 4..] == [line, "};", "", "#define MAX_ENAME " + Decimal(last)]
    requires Good(Flat(rows) + row.entries, records, order, rows, row) && last == LastNumber(records)
    ensures output == Listing(rows, row, last)
    ensures var all := rows + [row];
            && all[..|all| - 1] == rows && all[|all| - 1] == row
            && |Flat(all)| == last + 1 + Excess(records)
            && (|Flat(all)| == last + 1 <==> Increasing(records))
            && (Increasing(records) ==> IsTable(Flat(all), records, order) && Labelled(all))
  {
    hide IsTable, PrintedRows, Render, Decimal;
    assert output == output[..|output| - 4] + output[|output| - 4..];
    FlatSnoc(rows, row);
    NoExcess(records);
    assert (rows + [row])[..|rows|] == rows;
    if LabelsFit(rows, row) {
      NextRow(rows, row);
    }
  }

  // ----- the lookup ---------------------------------------------------------------------------------------

  /** The name a diagnostic shows for an error number. */
  function ErrorName(table: seq<string>, maxEname: int, err: int): string
    requires |table| == maxEname + 1
  {
    if err > 0 && err <= maxEname then table[err] else "**UNKNOWN?? Error code**"
  }

  /** The guarded lookup in the generated table: a defined number's name with all its synonyms, "" for a
      number between, and the fixed text for everything else. */
  lemma LookupIsRight(table: seq<string>, records: seq<Record>, err: int)
    requires Complete(table, records)
    ensures var name := ErrorName(table, LastNumber(records), err);
            && (forall i | 0 <= i < |records| && records[i] == Define(records[i].name, err) ::
                  HasEntry(records, records[i].name, name))
            && (!Defined(records, err) && 0 < err <= LastNumber(records) ==> name == "")
            && (err <= 0 || err > LastNumber(records) ==> name == "**UNKNOWN?? Error code**" && !Defined(records, err))
  {
    hide HasEntry, LastNumber;
    forall i | 0 <= i < |records| && records[i] == Define(records[i].name, err)
      ensures 0 < err < |table|
      ensures HasEntry(records, records[i].name, ErrorName(table, LastNumber(records), err))
    {
      assert CompleteAt(table, records, i);
    }
  }
}
