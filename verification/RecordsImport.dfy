/**
 Identity records from the rows of a CSV file or a workbook sheet. A header row in any column order drives the mapping;
 rows may be ragged; rows without record data are skipped and rows without a phone number become problem lines.
 */
module RecordsImport {
  import opened Wrappers
  import opened Text
  import R = RecipientImport
  import D = OneTimeCodes

  type Row = seq<string>

  datatype Field =
    | RowNumber | Name | Phone | Bvn | Nin | Vin | AccountNumber | BankName | BankCode | AccountName
    | State | Lga | Ward | PollingUnit | SourceFile

  // ---------- header cells ----------

  function Alias(header: string): Option<Field> {
    if header in {"sn", "sno", "serial", "row"} then Some(RowNumber)
    else if header in {"name", "fullname", "recipient", "beneficiary"} then Some(Name)
    else if header in {"phone", "phonenumber", "phonenumbers", "msisdn", "mobile", "telephone"} then Some(Phone)
    else if header == "bvn" then Some(Bvn)
    else if header == "nin" then Some(Nin)
    else if header in {"vin", "voterid", "vinnumber"} then Some(Vin)
    else if header in {"accountnumber", "acctnumber", "accountno"} then Some(AccountNumber)
    else if header in {"bankname", "bank"} then Some(BankName)
    else if header == "bankcode" then Some(BankCode)
    else if header == "accountname" then Some(AccountName)
    else if header == "state" then Some(State)
    else if header in {"lga", "localgovernment"} then Some(Lga)
    else if header == "ward" then Some(Ward)
    else if header in {"pollingunit", "pollingunitbooth", "pollingbooth", "booth"} then Some(PollingUnit)
    else if header == "sourcefile" then Some(SourceFile)
    else None
  }

  // strings.ToLower as far as its result can be an ASCII letter: besides A to Z, the dotted capital I and the Kelvin sign.
  function Folded(c: char): char {
    if c == '\U{0130}' then 'i' else if c == '\U{212A}' then 'k' else LowerChar(c)
  }

  predicate HeaderChar(c: char) {
    'a' <= c <= 'z' || IsDigit(c)
  }

  // Lowercase letters and digits only.
  function Normalized(s: string): (r: string)
    ensures forall i :: 0 <= i < |r| ==> HeaderChar(r[i])
  {
    if s == "" then ""
    else Normalized(s[..|s| - 1]) + if HeaderChar(Folded(s[|s| - 1])) then [Folded(s[|s| - 1])] else ""
  }

  method NormalizeRecordHeader(value: string) returns (header: string)
    ensures header == Normalized(value)
  {
    header := "";
    for i := 0 to |value|
      invariant header == Normalized(value[..i])
    {
      assert value[..i + 1][..i] == value[..i];
      var r := Folded(value[i]);
      if 'a' <= r <= 'z' || '0' <= r <= '9' {
        header := header + [r];
      }
    }
    assert value[..|value|] == value;
  }

  lemma {:induction false} NormalizedAppend(s: string, t: string)
    ensures Normalized(s + t) == Normalized(s) + Normalized(t)
  {
    if t == "" {
      assert s + t == s;
    } else {
      assert (s + t)[..|s + t| - 1] == s + t[..|t| - 1];
      NormalizedAppend(s, t[..|t| - 1]);
    }
  }

  lemma {:induction false} SpacesNormalizeAway(s: string)
    requires forall i :: 0 <= i < |s| ==> IsSpace(s[i])
    ensures Normalized(s) == ""
  {
    if s != "" {
      assert IsSpace(s[|s| - 1]);
      SpacesNormalizeAway(s[..|s| - 1]);
    }
  }

  // Trimming a header cell does not change what it is recognised as.
  lemma {:induction false} TrimmedNormalizes(s: string)
    ensures Normalized(Trim(s)) == Normalized(s)
  {
    LeftNormalizes(s);
    RightNormalizes(TrimLeft(s));
  }

  lemma {:induction false} LeftNormalizes(s: string)
    ensures Normalized(TrimLeft(s)) == Normalized(s)
  {
    if s != "" && IsSpace(s[0]) {
      LeftNormalizes(s[1..]);
      assert s == [s[0]] + s[1..];
      SpacesNormalizeAway([s[0]]);
      NormalizedAppend([s[0]], s[1..]);
    }
  }

  lemma {:induction false} RightNormalizes(s: string)
    ensures Normalized(TrimRight(s)) == Normalized(s)
  {
    if s != "" && IsSpace(s[|s| - 1]) {
      RightNormalizes(s[..|s| - 1]);
      SpacesNormalizeAway([s[|s| - 1]]);
      assert IsSpace(s[|s| - 1]) ==> !HeaderChar(Folded(s[|s| - 1]));
    }
  }

  // ---------- the header row ----------

  function FieldAt(row: Row, i: nat): Option<Field> {
    if i < |row| then Alias(Normalized(row[i])) else None
  }

  // The leftmost column headed as a field.
  function FirstColumn(row: Row, field: Field): (r: Option<nat>)
    ensures r.Some? ==> r.value < |row| && FieldAt(row, r.value) == Some(field)
                        && forall i :: 0 <= i < r.value ==> FieldAt(row, i) != Some(field)
    ensures r.None? ==> forall i :: 0 <= i < |row| ==> FieldAt(row, i) != Some(field)
  {
    if row == [] then None
    else
      var before := FirstColumn(row[..|row| - 1], field);
      assert forall i :: 0 <= i < |row| - 1 ==> FieldAt(row[..|row| - 1], i) == FieldAt(row, i);
      if before.Some? then before
      else if FieldAt(row, |row| - 1) == Some(field) then Some(|row| - 1)
      else None
  }

  // A first row is a header if some column is headed as the phone.
  predicate IsHeader(row: Row) {
    FirstColumn(row, Phone).Some?
  }

  ghost predicate Indexes(columns: map<Field, nat>, row: Row) {
    forall field :: (field in columns <==> FirstColumn(row, field).Some?)
                    && (field in columns ==> columns[field] == FirstColumn(row, field).value)
  }

  lemma {:induction false} BlankHeader()
    ensures Alias("") == None
  {
  }

  // One more header cell: its field is entered unless it is there already.
  lemma {:induction false} IndexesLast(columns: map<Field, nat>, row: Row, field: Option<Field>)
    requires row != [] && Indexes(columns, row[..|row| - 1]) && field == FieldAt(row, |row| - 1)
    ensures Indexes(if field.Some? && field.value !in columns then columns[field.value := |row| - 1] else columns, row)
  {
    var front := row[..|row| - 1];
    forall f ensures FirstColumn(row, f) ==
                     if FirstColumn(front, f).Some? then FirstColumn(front, f)
                     else if field == Some(f) then Some(|row| - 1) else None
    {
      assert (f in columns) == FirstColumn(front, f).Some?;
    }
    hide FirstColumn, FieldAt;
  }

  /** The index of the recognised columns, or None when the row is not a header: each recognised field at its leftmost
      column, in range, no two fields at one column. */
  method RecordHeaderRow(row: Row) returns (index: Option<map<Field, nat>>)
    ensures index.Some? <==> IsHeader(row)
    ensures index.Some? ==> Indexes(index.value, row) && Phone in index.value
    ensures index.Some? ==> forall f, g :: f in index.value && g in index.value && index.value[f] == index.value[g] ==> f == g
    ensures index.Some? ==> forall f :: f in index.value ==> index.value[f] < |row|
  {
    var columns: map<Field, nat> := map[];
    var matched := 0;
    for i := 0 to |row|
      invariant Indexes(columns, row[..i])
      invariant columns != map[] ==> matched > 0
    {
      assert row[..i + 1][..i] == row[..i];
      IndexesLast(columns, row[..i + 1], FieldAt(row[..i + 1], i));
      var header := NormalizeRecordHeader(row[i]);
      hide FirstColumn, Indexes, Alias, Normalized;
      if header == "" {
        assert Alias("").None? by { BlankHeader(); }
        continue;
      }
      var field := Alias(header);
      if field.None? {
        continue;
      }
      matched := matched + 1;
      if field.value !in columns {
        columns := columns[field.value := i];
      }
    }
    assert row[..|row|] == row;
    if matched == 0 || Phone !in columns {
      return None;
    }
    index := Some(columns);
  }

  // ---------- cells ----------

  // The trimmed cell of a row; a short row reads as padded with blanks.
  function Cell(row: Row, index: nat): string {
    if index < |row| then Trim(row[index]) else ""
  }

  function FieldCell(row: Row, columns: map<Field, nat>, field: Field): string {
    if field in columns then Cell(row, columns[field]) else ""
  }

  predicate BlankRow(row: Row) {
    forall i :: 0 <= i < |row| ==> Trim(row[i]) == ""
  }

  predicate HasRecordData(row: Row, columns: map<Field, nat>) {
    exists field :: field in columns && field != RowNumber && Cell(row, columns[field]) != ""
  }

  method RowIsBlank(row: Row) returns (blank: bool)
    ensures blank == BlankRow(row)
  {
    for i := 0 to |row|
      invariant forall k :: 0 <= k < i ==> Trim(row[k]) == ""
    {
      if Trim(row[i]) != "" {
        return false;
      }
    }
    blank := true;
  }

  // The map is visited in no particular order.
  method RowHasRecordData(row: Row, columns: map<Field, nat>) returns (has: bool)
    ensures has == HasRecordData(row, columns)
  {
    var fields := columns.Keys;
    while fields != {}
      invariant fields <= columns.Keys
      invariant forall f :: f in columns && f !in fields && f != RowNumber ==> Cell(row, columns[f]) == ""
      decreases fields
    {
      var field :| field in fields;
      fields := fields - {field};
      if field != RowNumber && Cell(row, columns[field]) != "" {
        return true;
      }
    }
    has := false;
  }

  // ---------- records ----------

  datatype Record = Record(
    center: Option<nat>, sourceFile: string, phone: string, name: string, bvn: string, nin: string, vin: string,
    accountNumber: string, bankName: string, bankCode: string, accountName: string,
    state: string, lga: string, ward: string, pollingUnit: string)

  predicate Serial(s: string) {
    s != "" && forall i :: 0 <= i < |s| ==> IsDigit(s[i])
  }

  predicate NameLike(s: string) {
    s != "" && !R.PhoneLike(s) && !Serial(s)
  }

  // The two-column contract: the first phone-like cell, and the first cell that is neither a phone nor a serial number.
  function LegacyPhone(row: Row): string {
    if row == [] then ""
    else if LegacyPhone(row[..|row| - 1]) != "" then LegacyPhone(row[..|row| - 1])
    else if R.PhoneLike(Trim(row[|row| - 1])) then Trim(row[|row| - 1])
    else ""
  }

  function LegacyName(row: Row): string {
    if row == [] then ""
    else if LegacyName(row[..|row| - 1]) != "" then LegacyName(row[..|row| - 1])
    else if NameLike(Trim(row[|row| - 1])) then Trim(row[|row| - 1])
    else ""
  }

  method IsSerialNumber(value: string) returns (ok: bool)
    ensures ok == Serial(value)
  {
    if value == "" {
      return false;
    }
    for i := 0 to |value|
      invariant forall k :: 0 <= k < i ==> IsDigit(value[k])
    {
      if value[i] < '0' || value[i] > '9' {
        return false;
      }
    }
    ok := true;
  }

  method LegacyPhoneName(row: Row) returns (phone: string, name: string)
    ensures phone == LegacyPhone(row) && name == LegacyName(row)
  {
    phone, name := "", "";
    for i := 0 to |row|
      invariant phone == LegacyPhone(row[..i]) && name == LegacyName(row[..i])
    {
      assert row[..i + 1][..i] == row[..i];
      var value := Trim(row[i]);
      if value == "" {
        assert !R.PhoneLike(value);
        continue;
      }
      var phoneLike := R.LooksLikePhone(value);
      if phone == "" && phoneLike {
        phone := value;
        continue;
      }
      var serial := IsSerialNumber(value);
      if name == "" && !phoneLike && !serial {
        name := value;
      }
    }
    assert row[..|row|] == row;
  }

  function MappedRecord(row: Row, columns: map<Field, nat>, center: Option<nat>, sourceFile: string): Record {
    var fromFile := FieldCell(row, columns, SourceFile);
    Record(center, if fromFile != "" then fromFile else sourceFile,
           FieldCell(row, columns, Phone), FieldCell(row, columns, Name), FieldCell(row, columns, Bvn),
           FieldCell(row, columns, Nin), FieldCell(row, columns, Vin), FieldCell(row, columns, AccountNumber),
           FieldCell(row, columns, BankName), FieldCell(row, columns, BankCode), FieldCell(row, columns, AccountName),
           FieldCell(row, columns, State), FieldCell(row, columns, Lga), FieldCell(row, columns, Ward),
           FieldCell(row, columns, PollingUnit))
  }

  function LegacyRecord(row: Row, center: Option<nat>, sourceFile: string): Record {
    Record(center, sourceFile, LegacyPhone(row), LegacyName(row), "", "", "", "", "", "", "", "", "", "", "")
  }

  function RecordOf(row: Row, columns: map<Field, nat>, center: Option<nat>, sourceFile: string): Record {
    if columns != map[] then MappedRecord(row, columns, center, sourceFile) else LegacyRecord(row, center, sourceFile)
  }

  method StoreBRI(row: Row, columns: map<Field, nat>, center: Option<nat>, sourceFile: string) returns (record: Record)
    ensures record == RecordOf(row, columns, center, sourceFile)
  {
    record := Record(center, sourceFile, "", "", "", "", "", "", "", "", "", "", "", "", "");
    if columns != map[] {
      record := record.(phone := FieldCell(row, columns, Phone), name := FieldCell(row, columns, Name),
                        bvn := FieldCell(row, columns, Bvn), nin := FieldCell(row, columns, Nin), vin := FieldCell(row, columns, Vin),
                        accountNumber := FieldCell(row, columns, AccountNumber), bankName := FieldCell(row, columns, BankName),
                        bankCode := FieldCell(row, columns, BankCode), accountName := FieldCell(row, columns, AccountName),
                        state := FieldCell(row, columns, State), lga := FieldCell(row, columns, Lga),
                        ward := FieldCell(row, columns, Ward), pollingUnit := FieldCell(row, columns, PollingUnit));
      var fromFile := FieldCell(row, columns, SourceFile);
      if fromFile != "" {
        record := record.(sourceFile := fromFile);
      }
    } else {
      var phone, name := LegacyPhoneName(row);
      record := record.(phone := phone, name := name);
    }
  }

  // The row's own number when the file has one, otherwise its one-based position.
  function RowId(i: nat, row: Row, columns: map<Field, nat>): string {
    if RowNumber in columns && Cell(row, columns[RowNumber]) != "" then Cell(row, columns[RowNumber]) else D.Decimal(i + 1)
  }

  function ProblemLine(i: nat, row: Row, columns: map<Field, nat>): string {
    RowId(i, row, columns) + ": no phone number"
  }

  // ---------- the file ----------

  datatype Options = Options(columns: map<Field, nat>, center: Option<nat>, sourceFile: string)

  predicate IsData(row: Row, columns: map<Field, nat>) {
    !BlankRow(row) && (columns != map[] ==> HasRecordData(row, columns))
  }

  datatype Fate = Skipped | Kept | Complained

  function FateOf(row: Row, o: Options): Fate {
    if !IsData(row, o.columns) then Skipped
    else if Trim(RecordOf(row, o.columns, o.center, o.sourceFile).phone) == "" then Complained
    else Kept
  }

  // The positions of the rows that meet a fate, in order.
  function Positions(rows: seq<Row>, start: nat, end: nat, o: Options, fate: Fate): seq<nat>
    requires start <= end <= |rows|
    decreases end
  {
    if start == end then []
    else Positions(rows, start, end - 1, o, fate) + if FateOf(rows[end - 1], o) == fate then [end - 1] else []
  }

  // One record for each kept position and one problem line for each position complained about, in their order.
  ghost predicate Renders(out: seq<Record>, problems: seq<string>, rows: seq<Row>, kept: seq<nat>, complained: seq<nat>, o: Options) {
    && |out| == |kept| && |problems| == |complained|
    && (forall k :: 0 <= k < |kept| ==>
          kept[k] < |rows| && out[k] == RecordOf(rows[kept[k]], o.columns, o.center, o.sourceFile))
    && (forall k :: 0 <= k < |complained| ==>
          complained[k] < |rows| && problems[k] == ProblemLine(complained[k], rows[complained[k]], o.columns))
  }

  // One more row, met with its fate.
  lemma {:induction false} RendersLast(out: seq<Record>, problems: seq<string>, rows: seq<Row>, start: nat, i: nat, o: Options)
    requires start <= i < |rows|
    requires Renders(out, problems, rows, Positions(rows, start, i, o, Kept), Positions(rows, start, i, o, Complained), o)
    ensures var fate, kept, complained := FateOf(rows[i], o), Positions(rows, start, i + 1, o, Kept), Positions(rows, start, i + 1, o, Complained);
            && (fate == Skipped ==> Renders(out, problems, rows, kept, complained, o))
            && (fate == Kept ==>
                  Renders(out + [RecordOf(rows[i], o.columns, o.center, o.sourceFile)], problems, rows, kept, complained, o))
            && (fate == Complained ==>
                  Renders(out, problems + [ProblemLine(i, rows[i], o.columns)], rows, kept, complained, o))
  {
    var kept, complained := Positions(rows, start, i, o, Kept), Positions(rows, start, i, o, Complained);
    assert Positions(rows, start, i + 1, o, Kept) == kept + if FateOf(rows[i], o) == Kept then [i] else [];
    assert Positions(rows, start, i + 1, o, Complained) == complained + if FateOf(rows[i], o) == Complained then [i] else [];
    hide FateOf, Positions;
    RendersMore(out, problems, rows, kept, complained, i, o);
    hide Renders, RecordOf, ProblemLine;
    assert kept + [] == kept && complained + [] == complained;
  }

  lemma {:induction false} RendersMore(out: seq<Record>, problems: seq<string>, rows: seq<Row>, kept: seq<nat>, complained: seq<nat>,
                                       i: nat, o: Options)
    requires i < |rows| && Renders(out, problems, rows, kept, complained, o)
    ensures Renders(out + [RecordOf(rows[i], o.columns, o.center, o.sourceFile)], problems, rows, kept + [i], complained, o)
    ensures Renders(out, problems + [ProblemLine(i, rows[i], o.columns)], rows, kept, complained + [i], o)
  {
    hide RecordOf, ProblemLine;
  }

  method ParseRows(rows: seq<Row>, start: nat, o: Options) returns (out: seq<Record>, problems: seq<string>)
    requires start <= |rows|
    ensures Renders(out, problems, rows, Positions(rows, start, |rows|, o, Kept), Positions(rows, start, |rows|, o, Complained), o)
  {
    out, problems := [], [];
    for i := start to |rows|
      invariant Renders(out, problems, rows, Positions(rows, start, i, o, Kept), Positions(rows, start, i, o, Complained), o)
    {
      RendersLast(out, problems, rows, start, i, o);
      hide Renders, Positions, RecordOf, ProblemLine;
      var row := rows[i];
      var blank := RowIsBlank(row);
      if blank {
        continue;
      }
      var has := RowHasRecordData(row, o.columns);
      if o.columns != map[] && !has {
        continue;
      }
      var record := StoreBRI(row, o.columns, o.center, o.sourceFile);
      if Trim(record.phone) == "" {
        problems := problems + [ProblemLine(i, row, o.columns)];
        continue;
      }
      out := out + [record];
    }
  }

  function StartOf(rows: seq<Row>): nat
    requires rows != []
    ensures StartOf(rows) <= |rows|
  {
    if IsHeader(rows[0]) then 1 else 0
  }

  // The columns a file is read with: those of its header row if the first row is one, otherwise none.
  ghost predicate ReadWith(rows: seq<Row>, o: Options)
    requires rows != []
  {
    if IsHeader(rows[0]) then Indexes(o.columns, rows[0]) else o.columns == map[]
  }

  ghost predicate ParsedWith(rows: seq<Row>, o: Options, out: seq<Record>, problems: seq<string>) {
    && rows != [] && ReadWith(rows, o)
    && Renders(out, problems, rows, Positions(rows, StartOf(rows), |rows|, o, Kept),
               Positions(rows, StartOf(rows), |rows|, o, Complained), o)
  }

  method ParseRecordsFile(rows: seq<Row>, center: Option<nat>, sourceFile: string) returns (out: seq<Record>, problems: seq<string>)
    ensures rows == [] ==> out == [] && problems == ["The file has no rows."]
    ensures rows != [] ==> exists o: Options :: ParsedWith(rows, o, out, problems) && o.center == center && o.sourceFile == sourceFile
  {
    if |rows| == 0 {
      return [], ["The file has no rows."];
    }
    var index := RecordHeaderRow(rows[0]);
    var o := Options(if index.Some? then index.value else map[], center, sourceFile);
    var start := if index.Some? then 1 else 0;
    out, problems := ParseRows(rows, start, o);
    assert ParsedWith(rows, o, out, problems);
  }

  // ---------- every data row is accounted for ----------

  // A scan finds exactly the rows with the fate, each once, in order.
  ghost predicate Enumerates(at: seq<nat>, rows: seq<Row>, start: nat, end: nat, o: Options, fate: Fate)
    requires end <= |rows|
  {
    && (forall k :: 0 <= k < |at| ==> start <= at[k] < end && FateOf(rows[at[k]], o) == fate)
    && (forall k, l :: 0 <= k < l < |at| ==> at[k] < at[l])
    && (forall i: nat :: start <= i < end && FateOf(rows[i], o) == fate ==> i in at)
  }

  lemma {:induction false} PositionsEnumerate(rows: seq<Row>, start: nat, end: nat, o: Options, fate: Fate)
    requires start <= end <= |rows|
    ensures Enumerates(Positions(rows, start, end, o, fate), rows, start, end, o, fate)
    decreases end
  {
    if start < end {
      PositionsEnumerate(rows, start, end - 1, o, fate);
      var at := Positions(rows, start, end - 1, o, fate);
      var found := FateOf(rows[end - 1], o) == fate;
      assert Positions(rows, start, end, o, fate) == at + if found then [end - 1] else [];
      EnumerateOneMore(at, rows, start, end, o, fate, found);
    }
  }

  lemma {:induction false} EnumerateOneMore(at: seq<nat>, rows: seq<Row>, start: nat, end: nat, o: Options, fate: Fate, found: bool)
    requires start < end <= |rows| && Enumerates(at, rows, start, end - 1, o, fate)
    requires found <==> FateOf(rows[end - 1], o) == fate
    ensures Enumerates(at + if found then [end - 1] else [], rows, start, end, o, fate)
  {
    hide FateOf;
    var all := at + if found then [end - 1] else [];
    forall i: nat | start <= i < end && FateOf(rows[i], o) == fate ensures i in all {
      if i < end - 1 { assert i in at; } else { assert all[|at|] == i; }
    }
  }

  function DataRows(rows: seq<Row>, start: nat, end: nat, columns: map<Field, nat>): nat
    requires start <= end <= |rows|
    decreases end
  {
    if start == end then 0 else DataRows(rows, start, end - 1, columns) + if IsData(rows[end - 1], columns) then 1 else 0
  }

  lemma {:induction false} KeptAndProblemsAreTheData(rows: seq<Row>, start: nat, end: nat, o: Options)
    requires start <= end <= |rows|
    ensures |Positions(rows, start, end, o, Kept)| + |Positions(rows, start, end, o, Complained)| ==
            DataRows(rows, start, end, o.columns)
    decreases end
  {
    if start < end {
      KeptAndProblemsAreTheData(rows, start, end - 1, o);
      assert IsData(rows[end - 1], o.columns) <==> FateOf(rows[end - 1], o) != Skipped;
      hide FateOf, IsData;
    }
  }

  // With a header a row is data exactly when a recognised column other than the row number holds something.
  lemma {:induction false} HeaderedDataIsRecordData(row: Row, columns: map<Field, nat>)
    requires columns != map[]
    ensures IsData(row, columns) <==> HasRecordData(row, columns)
  {
    if HasRecordData(row, columns) {
      var f :| f in columns && f != RowNumber && Cell(row, columns[f]) != "";
      assert Trim(row[columns[f]]) != "";
    }
  }

  /**
   A file is accounted for row by row: kept records plus problem lines are the data rows; the records are those of the data
   rows with a phone, in file order; the problem lines those of the data rows without one, in file order.
   */
  lemma {:induction false} EveryDataRowIsAccountedFor(rows: seq<Row>, o: Options, out: seq<Record>, problems: seq<string>)
    requires ParsedWith(rows, o, out, problems)
    ensures |out| + |problems| == DataRows(rows, StartOf(rows), |rows|, o.columns)
    ensures forall k :: 0 <= k < |out| ==> Trim(out[k].phone) != ""
    ensures Enumerates(Positions(rows, StartOf(rows), |rows|, o, Kept), rows, StartOf(rows), |rows|, o, Kept)
    ensures Enumerates(Positions(rows, StartOf(rows), |rows|, o, Complained), rows, StartOf(rows), |rows|, o, Complained)
  {
    KeptAndProblemsAreTheData(rows, StartOf(rows), |rows|, o);
    PositionsEnumerate(rows, StartOf(rows), |rows|, o, Kept);
    PositionsEnumerate(rows, StartOf(rows), |rows|, o, Complained);
    forall k | 0 <= k < |out| ensures Trim(out[k].phone) != "" {
      assert FateOf(rows[Positions(rows, StartOf(rows), |rows|, o, Kept)[k]], o) == Kept;
    }
  }

  // ---------- column order does not matter ----------

  // Column j of the second file is column p[j] of the first, or, where p has none, a column that is not recognised.
  ghost predicate Rearranged(rows: seq<Row>, rows': seq<Row>, p: seq<Option<nat>>) {
    && |rows'| == |rows| && rows != []
    && (forall i, j :: 0 <= i < |rows| && 0 <= j < |p| && p[j].Some? ==> Cell(rows'[i], j) == Cell(rows[i], p[j].value))
    && (forall j: nat :: j >= |p| || p[j].None? ==> FieldAt(rows'[0], j).None?)
    && (forall c: nat :: FieldAt(rows[0], c).Some? ==> Some(c) in p)
  }

  // No two columns are headed as one field.
  ghost predicate HeadedOnce(row: Row) {
    forall c: nat, d: nat :: FieldAt(row, c).Some? && FieldAt(row, c) == FieldAt(row, d) ==> c == d
  }

  lemma {:induction false} FieldAtCell(row: Row, i: nat)
    ensures FieldAt(row, i) == Alias(Normalized(Cell(row, i)))
  {
    if i < |row| { TrimmedNormalizes(row[i]); }
  }

  lemma {:induction false} ColumnsFollow(rows: seq<Row>, rows': seq<Row>, p: seq<Option<nat>>, field: Field)
    requires Rearranged(rows, rows', p) && HeadedOnce(rows[0])
    ensures FirstColumn(rows'[0], field).Some? <==> FirstColumn(rows[0], field).Some?
    ensures FirstColumn(rows[0], field).Some? ==>
              var j := FirstColumn(rows'[0], field).value; j < |p| && p[j] == FirstColumn(rows[0], field)
  {
    forall j: nat | j < |p| && p[j].Some? ensures FieldAt(rows'[0], j) == FieldAt(rows[0], p[j].value) {
      FieldAtCell(rows'[0], j);
      FieldAtCell(rows[0], p[j].value);
    }
    var mine, theirs := FirstColumn(rows[0], field), FirstColumn(rows'[0], field);
    if mine.Some? {
      assert FieldAt(rows[0], mine.value) == Some(field);
      assert mine in p;
      var j :| 0 <= j < |p| && p[j] == mine;
      assert FieldAt(rows'[0], j) == Some(field);
    }
    if theirs.Some? {
      var j := theirs.value;
      assert FieldAt(rows'[0], j) == Some(field);
      assert FieldAt(rows[0], p[j].value) == Some(field);
    }
    hide FieldAt, Cell;
  }

  // Two rows read the same, field by field.
  ghost predicate SameCells(row: Row, o: Options, row': Row, o': Options) {
    forall field :: (field in o.columns <==> field in o'.columns)
                    && (field in o.columns ==> Cell(row, o.columns[field]) == Cell(row', o'.columns[field]))
  }

  lemma {:induction false} SameCellsSameFate(row: Row, o: Options, row': Row, o': Options, i: nat)
    requires SameCells(row, o, row', o') && o.center == o'.center && o.sourceFile == o'.sourceFile
    requires o.columns != map[] && o'.columns != map[]
    ensures FateOf(row, o) == FateOf(row', o')
    ensures RecordOf(row, o.columns, o.center, o.sourceFile) == RecordOf(row', o'.columns, o'.center, o'.sourceFile)
    ensures ProblemLine(i, row, o.columns) == ProblemLine(i, row', o'.columns)
  {
    HeaderedDataIsRecordData(row, o.columns);
    HeaderedDataIsRecordData(row', o'.columns);
    forall field ensures FieldCell(row, o.columns, field) == FieldCell(row', o'.columns, field) {
      assert field in o.columns <==> field in o'.columns;
    }
    hide Cell;
  }

  lemma {:induction false} SamePositions(rows: seq<Row>, rows': seq<Row>, start: nat, end: nat, o: Options, o': Options, fate: Fate)
    requires start <= end <= |rows| == |rows'|
    requires forall i :: start <= i < |rows| ==> FateOf(rows[i], o) == FateOf(rows'[i], o')
    ensures Positions(rows, start, end, o, fate) == Positions(rows', start, end, o', fate)
    decreases end
  {
    hide FateOf;
    if start < end {
      SamePositions(rows, rows', start, end - 1, o, o', fate);
      assert FateOf(rows[end - 1], o) == FateOf(rows'[end - 1], o');
    }
  }

  lemma {:induction false} RearrangedReadsTheSame(rows: seq<Row>, rows': seq<Row>, p: seq<Option<nat>>, o: Options, o': Options, i: nat)
    requires Rearranged(rows, rows', p) && HeadedOnce(rows[0]) && i < |rows|
    requires Indexes(o.columns, rows[0]) && Indexes(o'.columns, rows'[0])
    ensures SameCells(rows[i], o, rows'[i], o')
  {
    forall field
      ensures field in o.columns <==> field in o'.columns
      ensures field in o.columns ==> Cell(rows[i], o.columns[field]) == Cell(rows'[i], o'.columns[field])
    {
      ColumnsFollow(rows, rows', p, field);
    }
    hide Cell, FieldAt;
  }

  /**
   Rearranging the columns of a file with a header whose fields each appear once, and adding or dropping columns that are
   not recognised, whatever they hold and however ragged the rows, changes neither the records nor the problem lines.
   */
  lemma {:induction false} ColumnOrderIsIrrelevant(rows: seq<Row>, rows': seq<Row>, p: seq<Option<nat>>, o: Options, o': Options,
                                                   out: seq<Record>, problems: seq<string>, out': seq<Record>, problems': seq<string>)
    requires Rearranged(rows, rows', p) && HeadedOnce(rows[0]) && IsHeader(rows[0])
    requires o.center == o'.center && o.sourceFile == o'.sourceFile
    requires ParsedWith(rows, o, out, problems) && ParsedWith(rows', o', out', problems')
    ensures out == out' && problems == problems'
  {
    ColumnsFollow(rows, rows', p, Phone);
    assert Phone in o.columns && Phone in o'.columns;
    forall i: nat | i < |rows|
      ensures FateOf(rows[i], o) == FateOf(rows'[i], o')
      ensures RecordOf(rows[i], o.columns, o.center, o.sourceFile) == RecordOf(rows'[i], o'.columns, o'.center, o'.sourceFile)
      ensures ProblemLine(i, rows[i], o.columns) == ProblemLine(i, rows'[i], o'.columns)
    {
      RearrangedReadsTheSame(rows, rows', p, o, o', i);
      SameCellsSameFate(rows[i], o, rows'[i], o', i);
    }
    SamePositions(rows, rows', 1, |rows|, o, o', Kept);
    SamePositions(rows, rows', 1, |rows|, o, o', Complained);
    SameRendering(rows, rows', Positions(rows, 1, |rows|, o, Kept), Positions(rows, 1, |rows|, o, Complained), o, o',
                  out, problems, out', problems');
    hide *;
  }

  lemma {:induction false} SameRendering(rows: seq<Row>, rows': seq<Row>, kept: seq<nat>, complained: seq<nat>, o: Options, o': Options,
                                         out: seq<Record>, problems: seq<string>, out': seq<Record>, problems': seq<string>)
    requires |rows| == |rows'|
    requires forall i: nat :: i < |rows| ==>
               && RecordOf(rows[i], o.columns, o.center, o.sourceFile) == RecordOf(rows'[i], o'.columns, o'.center, o'.sourceFile)
               && ProblemLine(i, rows[i], o.columns) == ProblemLine(i, rows'[i], o'.columns)
    requires Renders(out, problems, rows, kept, complained, o) && Renders(out', problems', rows', kept, complained, o')
    ensures out == out' && problems == problems'
  {
    hide RecordOf, ProblemLine;
  }
}
