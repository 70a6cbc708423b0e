/**
 Recipients from the rows of a CSV file or a workbook sheet. Both parsers treat a "first" row specially, but the CSV one
 keeps doing so until it has accepted a row, and the workbook one only for the sheet's first row.
 */
module RecipientImport {
  import opened Wrappers
  import opened Text

  type Cells = seq<string>

  datatype Recipient = Recipient(phone: string, name: string)

  // ---------- phone-like text ----------

  predicate PhoneChar(c: char) {
    IsDigit(c) || c == '+' || c == '-' || c == ' ' || c == '(' || c == ')'
  }

  // At least seven digits, and otherwise only plus, minus, space and parentheses.
  predicate PhoneLike(s: string) {
    (forall i :: 0 <= i < |s| ==> PhoneChar(s[i])) && |KeepDigits(s)| >= 7
  }

  lemma {:induction false} KeepDigitsAppend(s: string, c: char)
    ensures KeepDigits(s + [c]) == KeepDigits(s) + if IsDigit(c) then [c] else ""
  {
    if s == "" {
      assert s + [c] == [c] && [c][1..] == "";
    } else {
      assert (s + [c])[1..] == s[1..] + [c];
      KeepDigitsAppend(s[1..], c);
    }
  }

  method LooksLikePhone(value: string) returns (ok: bool)
    ensures ok == PhoneLike(value)
  {
    var digits := 0;
    for i := 0 to |value|
      invariant forall k :: 0 <= k < i ==> PhoneChar(value[k])
      invariant digits == |KeepDigits(value[..i])|
    {
      assert value[..i + 1] == value[..i] + [value[i]];
      KeepDigitsAppend(value[..i], value[i]);
      if '0' <= value[i] <= '9' {
        digits := digits + 1;
      } else if value[i] !in {'+', '-', ' ', '(', ')'} {
        assert !PhoneChar(value[i]);
        return false;
      }
    }
    assert value[..|value|] == value;
    ok := digits >= 7;
  }

  // ---------- one row ----------

  predicate HeaderCell(c: string) {
    var cl := Lower(Trim(c));
    Contains(cl, "phone") || Contains(cl, "name") || Contains(cl, "bvn") || Contains(cl, "nin")
  }

  predicate HeaderRow(cells: Cells) {
    exists i :: 0 <= i < |cells| && HeaderCell(cells[i])
  }

  predicate PhoneAt(cells: Cells, i: nat) {
    i < |cells| && PhoneLike(Trim(cells[i]))
  }

  // The leftmost phone-like cell.
  function PhoneIndex(cells: Cells, from: nat): (r: Option<nat>)
    requires from <= |cells|
    ensures r.Some? ==> from <= r.value && PhoneAt(cells, r.value) && forall i :: from <= i < r.value ==> !PhoneAt(cells, i)
    ensures r.None? ==> forall i :: from <= i < |cells| ==> !PhoneAt(cells, i)
    decreases |cells| - from
  {
    if from == |cells| then None else if PhoneAt(cells, from) then Some(from) else PhoneIndex(cells, from + 1)
  }

  // A phone found away from column A takes its name from column B, unless that cell is phone-like itself.
  function Elsewhere(cells: Cells): Option<Recipient> {
    match PhoneIndex(cells, 0)
    case None => None
    case Some(i) =>
      Some(Recipient(Trim(cells[i]), if |cells| > 1 && !PhoneLike(Trim(cells[1])) then Trim(cells[1]) else ""))
  }

  function FromCells(cells: Cells, first: bool): Option<Recipient> {
    if cells == [] || (first && HeaderRow(cells)) then None
    else if PhoneLike(Trim(cells[0])) then Some(Recipient(Trim(cells[0]), if |cells| > 1 then Trim(cells[1]) else ""))
    else if !first && Trim(cells[0]) == "" then None
    else Elsewhere(cells)
  }

  method FindPhone(cells: Cells) returns (found: Option<Recipient>)
    ensures found == Elsewhere(cells)
  {
    for i := 0 to |cells|
      invariant PhoneIndex(cells, 0) == PhoneIndex(cells, i)
    {
      var phone := Trim(cells[i]);
      var phoneLike := LooksLikePhone(phone);
      if phoneLike {
        var name := "";
        if |cells| > 1 {
          var candidate := Trim(cells[1]);
          var taken := LooksLikePhone(candidate);
          if candidate != "" && !taken {
            name := candidate;
          }
        }
        return Some(Recipient(phone, name));
      }
    }
    found := None;
  }

  method RecipientFromCells(cells: Cells, first: bool) returns (found: Option<Recipient>)
    ensures found == FromCells(cells, first)
  {
    if |cells| == 0 {
      return None;
    }
    if first {
      for i := 0 to |cells|
        invariant forall k :: 0 <= k < i ==> !HeaderCell(cells[k])
      {
        if HeaderCell(cells[i]) {
          return None;
        }
      }
      var leading := LooksLikePhone(Trim(cells[0]));
      if !leading {
        found := FindPhone(cells);
        return;
      }
    }
    var phone := Trim(cells[0]);
    var name := "";
    if |cells| > 1 {
      name := Trim(cells[1]);
    }
    var phoneLike := LooksLikePhone(phone);
    if phone == "" {
      assert !PhoneLike(phone);
      return None;
    }
    if !phoneLike {
      found := FindPhone(cells);
      return;
    }
    found := Some(Recipient(phone, name));
  }

  // Whatever mode a row is read in, a phone that comes out is phone-like and trimmed.
  lemma {:induction false} PhonesLookLikePhones(cells: Cells, first: bool)
    ensures FromCells(cells, first).Some? ==> PhoneLike(FromCells(cells, first).value.phone) && Tight(FromCells(cells, first).value.phone)
  {
    if cells != [] {
      TrimIsTight(cells[0]);
      if PhoneIndex(cells, 0).Some? { TrimIsTight(cells[PhoneIndex(cells, 0).value]); }
    }
  }

  /**
   The two modes read a row differently in exactly two cases: it has header words and would otherwise be accepted, or it has
   none, its first cell is blank and another cell is phone-like. When both accept they agree.
   */
  lemma {:induction false} ModesDifferIff(cells: Cells)
    ensures FromCells(cells, true) != FromCells(cells, false) <==>
              || (HeaderRow(cells) && cells != [] && (PhoneAt(cells, 0) || (Trim(cells[0]) != "" && exists i :: 0 <= i < |cells| && PhoneAt(cells, i))))
              || (!HeaderRow(cells) && cells != [] && Trim(cells[0]) == "" && exists i :: 0 <= i < |cells| && PhoneAt(cells, i))
    ensures FromCells(cells, true).Some? && FromCells(cells, false).Some? ==> FromCells(cells, true) == FromCells(cells, false)
  {
    if cells != [] {
      assert Trim(cells[0]) == "" ==> !PhoneAt(cells, 0);
      assert PhoneIndex(cells, 0).Some? <==> exists i :: 0 <= i < |cells| && PhoneAt(cells, i);
    }
  }

  // ---------- the two parsers ----------

  // A recipient with the row it came from.
  datatype Found = Found(row: nat, recipient: Recipient)

  function Kept(row: nat, r: Option<Recipient>): seq<Found> {
    if r.Some? then [Found(row, r.value)] else []
  }

  function Workbook(rows: seq<Cells>): seq<Found> {
    if rows == [] then []
    else Workbook(rows[..|rows| - 1]) + Kept(|rows| - 1, FromCells(rows[|rows| - 1], |rows| == 1))
  }

  function Csv(rows: seq<Cells>): seq<Found> {
    if rows == [] then []
    else
      var before := Csv(rows[..|rows| - 1]);
      before + Kept(|rows| - 1, FromCells(rows[|rows| - 1], before == []))
  }

  function Recipients(found: seq<Found>): (r: seq<Recipient>)
    ensures |r| == |found|
  {
    if found == [] then [] else Recipients(found[..|found| - 1]) + [found[|found| - 1].recipient]
  }

  lemma {:induction false} RecipientsAppend(a: seq<Found>, row: nat, r: Option<Recipient>)
    ensures Recipients(a + Kept(row, r)) == Recipients(a) + if r.Some? then [r.value] else []
  {
    if r.Some? {
      assert (a + Kept(row, r))[..|a|] == a;
    } else {
      assert a + Kept(row, r) == a;
    }
  }

  lemma {:induction false} CsvNext(records: seq<Cells>, i: nat)
    requires i < |records|
    ensures Csv(records[..i + 1]) == Csv(records[..i]) + Kept(i, FromCells(records[i], Csv(records[..i]) == []))
  {
    hide FromCells;
    assert records[..i + 1][..i] == records[..i];
  }

  lemma {:induction false} WorkbookNext(records: seq<Cells>, i: nat)
    requires i < |records|
    ensures Workbook(records[..i + 1]) == Workbook(records[..i]) + Kept(i, FromCells(records[i], i == 0))
  {
    hide FromCells;
    assert records[..i + 1][..i] == records[..i];
  }

  method ParseRecipientCSV(records: seq<Cells>) returns (rows: seq<Recipient>)
    ensures rows == Recipients(Csv(records))
  {
    rows := [];
    for i := 0 to |records|
      invariant rows == Recipients(Csv(records[..i]))
    {
      CsvNext(records, i);
      hide FromCells, Csv, Kept;
      var row := RecipientFromCells(records[i], |rows| == 0);
      RecipientsAppend(Csv(records[..i]), i, row);
      if row.Some? {
        rows := rows + [row.value];
      }
    }
    assert records[..|records|] == records;
  }

  method ParseRecipientXLSX(records: seq<Cells>) returns (rows: seq<Recipient>)
    ensures rows == Recipients(Workbook(records))
  {
    rows := [];
    for i := 0 to |records|
      invariant rows == Recipients(Workbook(records[..i]))
    {
      WorkbookNext(records, i);
      hide FromCells, Workbook, Kept;
      var row := RecipientFromCells(records[i], i == 0);
      RecipientsAppend(Workbook(records[..i]), i, row);
      if row.Some? {
        rows := rows + [row.value];
      }
    }
    assert records[..|records|] == records;
  }

  predicate ReadsAs(cells: Cells, r: Recipient) {
    FromCells(cells, true) == Some(r) || FromCells(cells, false) == Some(r)
  }

  // Every row found is a row of the file, in order, read as one of the two modes reads it.
  ghost predicate FoundIn(found: seq<Found>, rows: seq<Cells>) {
    && (forall k :: 0 <= k < |found| ==> found[k].row < |rows| && ReadsAs(rows[found[k].row], found[k].recipient))
    && (forall k, l :: 0 <= k < l < |found| ==> found[k].row < found[l].row)
  }

  lemma {:induction false} BothFindInOrder(rows: seq<Cells>)
    ensures FoundIn(Csv(rows), rows) && FoundIn(Workbook(rows), rows)
  {
    if rows != [] {
      var front := rows[..|rows| - 1];
      BothFindInOrder(front);
      hide FromCells;
      AppendFound(Csv(front), rows, FromCells(rows[|rows| - 1], Csv(front) == []));
      AppendFound(Workbook(front), rows, FromCells(rows[|rows| - 1], |rows| == 1));
    }
  }

  lemma {:induction false} AppendFound(found: seq<Found>, rows: seq<Cells>, r: Option<Recipient>)
    requires rows != [] && FoundIn(found, rows[..|rows| - 1]) && (r.Some? ==> ReadsAs(rows[|rows| - 1], r.value))
    ensures FoundIn(found + Kept(|rows| - 1, r), rows)
  {
    hide ReadsAs;
    var all := found + Kept(|rows| - 1, r);
    forall k | 0 <= k < |all| ensures all[k].row < |rows| && ReadsAs(rows[all[k].row], all[k].recipient) {
      if k < |found| { assert all[k] == found[k] && rows[..|rows| - 1][found[k].row] == rows[found[k].row]; }
    }
  }

  // Whether any of the rows is accepted as a first row: until one is, the CSV parser reads every row as one.
  predicate AnyFirst(rows: seq<Cells>) {
    exists i :: 0 <= i < |rows| && FromCells(rows[i], true).Some?
  }

  lemma {:induction false} CsvEmptyIff(rows: seq<Cells>)
    ensures Csv(rows) == [] <==> !AnyFirst(rows)
  {
    if rows != [] {
      var front := rows[..|rows| - 1];
      CsvEmptyIff(front);
      AnyFirstLast(rows);
      hide AnyFirst, FromCells;
    }
  }

  lemma {:induction false} AnyFirstLast(rows: seq<Cells>)
    requires rows != []
    ensures AnyFirst(rows) <==> AnyFirst(rows[..|rows| - 1]) || FromCells(rows[|rows| - 1], true).Some?
  {
    hide FromCells;
    var front := rows[..|rows| - 1];
    assert forall i :: 0 <= i < |front| ==> front[i] == rows[i];
  }

  // The rows, beyond the first, that the CSV parser still reads as a first row.
  predicate Agree(rows: seq<Cells>) {
    forall i :: 1 <= i < |rows| && !AnyFirst(rows[..i]) ==> FromCells(rows[i], true) == FromCells(rows[i], false)
  }

  lemma {:induction false} SplitLast<T>(a: seq<T>, b: seq<T>, x: seq<T>, y: seq<T>)
    requires a + x == b + y && |x| == |y|
    ensures a == b && x == y
  {
    assert |a| == |b|;
    assert a == (a + x)[..|a|] && b == (b + y)[..|b|];
    assert x == (a + x)[|a|..] && y == (b + y)[|b|..];
  }

  lemma {:induction false} KeptAgree(rows: seq<Cells>, a: seq<Found>, b: seq<Found>, r: Option<Recipient>, q: Option<Recipient>)
    requires FoundIn(a, rows) && FoundIn(b, rows)
    ensures a + Kept(|rows|, r) == b + Kept(|rows|, q) <==> a == b && r == q
  {
    var x, y := Kept(|rows|, r), Kept(|rows|, q);
    if r.Some? { LaterRowIsNew(b, rows, Found(|rows|, r.value)); }
    if q.Some? { LaterRowIsNew(a, rows, Found(|rows|, q.value)); }
    assert a + [] == a && b + [] == b;
    if a + x == b + y && |x| == |y| {
      SplitLast(a, b, x, y);
    }
    hide FoundIn;
  }

  lemma {:induction false} LaterRowIsNew(b: seq<Found>, rows: seq<Cells>, e: Found)
    requires FoundIn(b, rows) && e.row == |rows|
    ensures forall a :: a + [e] != b
  {
    forall a ensures a + [e] != b {
      assert (a + [e])[|a|] == e;
      assert |b| == |a| + 1 ==> b[|a|].row < |rows|;
    }
  }

  /**
   The two parsers find the same recipients in the same rows if and only if every row after the first, up to and including
   the first the CSV parser accepts, reads the same in both modes.
   */
  lemma {:induction false} ParsersAgreeIff(rows: seq<Cells>)
    ensures Csv(rows) == Workbook(rows) <==> Agree(rows)
  {
    EmptyFileAgrees();
    hide *;
    if rows != [] {
      var n, front := |rows| - 1, rows[..|rows| - 1];
      ParsersAgreeIff(front);
      BothFindInOrder(front);
      CsvEmptyIff(front);
      AgreeLast(rows);
      assert rows[..n + 1] == rows && rows[..n] == front;
      CsvNext(rows, n);
      WorkbookNext(rows, n);
      KeptAgree(front, Csv(front), Workbook(front), FromCells(rows[n], Csv(front) == []), FromCells(rows[n], n == 0));
      assert n == 0 ==> front == [];
    }
  }

  lemma {:induction false} EmptyFileAgrees()
    ensures Csv([]) == Workbook([]) == [] && Agree([])
  {
  }

  lemma {:induction false} AgreeLast(rows: seq<Cells>)
    requires rows != []
    ensures var n, front := |rows| - 1, rows[..|rows| - 1];
            Agree(rows) <==> Agree(front) && (n >= 1 && !AnyFirst(front) ==> FromCells(rows[n], true) == FromCells(rows[n], false))
  {
    hide FromCells, AnyFirst;
    var n, front := |rows| - 1, rows[..|rows| - 1];
    assert forall i :: 0 <= i <= n ==> front[..i] == rows[..i];
    assert forall i :: 0 <= i < n ==> front[i] == rows[i];
  }

  // In particular: they agree when every row after the first has a first cell that is not blank and no header words.
  lemma {:induction false} ParsersAgreeOnPlainRows(rows: seq<Cells>)
    requires forall i :: 1 <= i < |rows| ==> rows[i] != [] && Trim(rows[i][0]) != "" && !HeaderRow(rows[i])
    ensures Recipients(Csv(rows)) == Recipients(Workbook(rows))
  {
    forall i | 1 <= i < |rows| ensures FromCells(rows[i], true) == FromCells(rows[i], false) {
      ModesDifferIff(rows[i]);
    }
    ParsersAgreeIff(rows);
  }

  // And may not when one does not: after a first row that is neither, a row with a header word is skipped as a second
  // header by the one and read as a recipient by the other.
  const TWO_ROWS: seq<Cells> := [["List"], ["07031234567", "My name"]]

  lemma {:induction false} ParsersDiffer()
    ensures Csv(TWO_ROWS) == [] && Workbook(TWO_ROWS) == [Found(1, Recipient("07031234567", "My name"))]
  {
    FirstIsNoRecipient();
    SecondIsEither();
    hide FromCells;
    assert TWO_ROWS[..1] == [["List"]] && [["List"]][..0] == [];
    assert Csv([["List"]]) == [] && Workbook([["List"]]) == [];
  }

  lemma {:induction false} FirstIsNoRecipient()
    ensures FromCells(["List"], true) == None
  {
    TrimTightIsIdentity("List");
    assert !PhoneChar("List"[0]);
    assert !PhoneAt(["List"], 0);
  }

  lemma {:induction false} SecondIsEither()
    ensures FromCells(TWO_ROWS[1], true) == None
    ensures FromCells(TWO_ROWS[1], false) == Some(Recipient("07031234567", "My name"))
  {
    assert |TWO_ROWS[1]| == 2 && TWO_ROWS[1][0] == "07031234567" && TWO_ROWS[1][1] == "My name";
    hide *;
    SecondHasHeaderWord();
    SecondHasPhone();
    NameIsTrimmed();
    HeaderWordsBesideAPhone(TWO_ROWS[1]);
  }

  lemma {:induction false} NameIsTrimmed()
    ensures Trim("My name") == "My name"
  {
    TrimTightIsIdentity("My name");
  }

  lemma {:induction false} HeaderWordsBesideAPhone(cells: Cells)
    requires |cells| > 1 && HeaderRow(cells) && PhoneLike(Trim(cells[0]))
    ensures FromCells(cells, true) == None
    ensures FromCells(cells, false) == Some(Recipient(Trim(cells[0]), Trim(cells[1])))
  {
  }

  lemma {:induction false} SecondHasHeaderWord()
    ensures HeaderRow(TWO_ROWS[1])
  {
    TrimTightIsIdentity("My name");
    assert Lower("My name")[3..3 + 4] == "name";
    assert OccursAt(Lower("My name"), "name", 3);
    assert HeaderCell(TWO_ROWS[1][1]);
    hide HeaderCell;
  }

  lemma {:induction false} SecondHasPhone()
    ensures Trim("07031234567") == "07031234567" && PhoneLike("07031234567")
  {
    hide Trim, PhoneLike, KeepDigits;
    assert forall i :: 0 <= i < 11 ==> IsDigit("07031234567"[i]);
    DigitsArePhoneLike("07031234567");
  }

  lemma {:induction false} DigitsArePhoneLike(s: string)
    requires |s| >= 7 && forall i :: 0 <= i < |s| ==> IsDigit(s[i])
    ensures Trim(s) == s && PhoneLike(s)
  {
    DigitsKeep(s);
    TrimTightIsIdentity(s);
  }

  lemma {:induction false} DigitsKeep(s: string)
    requires forall i :: 0 <= i < |s| ==> IsDigit(s[i])
    ensures KeepDigits(s) == s
  {
    if s != "" { DigitsKeep(s[1..]); }
  }

  // ---------- what a row is read as ----------

  // A word of a header: the four the importers know, in any case and anywhere in the cell.
  lemma {:induction false} HeaderWords(cell: string)
    ensures HeaderCell(cell) <==>
              var text := Lower(Trim(cell));
              exists w, i :: w in {"phone", "name", "bvn", "nin"} && 0 <= i <= |text| && OccursAt(text, w, i)
  {
    var text := Lower(Trim(cell));
    assert forall w :: Contains(text, w) <==> exists i :: 0 <= i <= |text| && OccursAt(text, w, i);
    hide Lower, Trim, OccursAt;
  }

  // Six digits are no phone, seven are, and any other character than the five allowed spoils it.
  lemma {:induction false} SevenDigitsMakeAPhone(s: string)
    ensures |KeepDigits(s)| <= 6 ==> !PhoneLike(s)
    ensures |KeepDigits(s)| >= 7 ==>
              (PhoneLike(s) <==> forall i :: 0 <= i < |s| ==> s[i] in {'+', '-', ' ', '(', ')'} || '0' <= s[i] <= '9')
  {
  }

  // The leftmost phone-like cell of a row.
  predicate LeftmostPhone(cells: Cells, i: nat) {
    i < |cells| && PhoneLike(Trim(cells[i])) && forall k :: 0 <= k < i ==> !PhoneLike(Trim(cells[k]))
  }

  /**
   A row that is accepted gives its leftmost phone, trimmed, and the trimmed second cell as the name, unless that is phone-like
   and the phone is not in the first; without a second cell the name is blank. It is not accepted exactly when it has no phone,
   or has header words and is read as a first row, or begins with a blank cell and is not.
   */
  lemma {:induction false} ARowGivesItsLeftmostPhone(cells: Cells, first: bool)
    ensures var r := FromCells(cells, first);
            && (r.Some? ==> exists i: nat :: LeftmostPhone(cells, i) && r.value.phone == Trim(cells[i])
                                        && r.value.name == if |cells| > 1 && (i == 0 || !PhoneLike(Trim(cells[1]))) then Trim(cells[1]) else "")
            && (r.None? <==> (forall i :: 0 <= i < |cells| ==> !PhoneLike(Trim(cells[i])))
                             || (first && HeaderRow(cells)) || (!first && cells != [] && Trim(cells[0]) == ""))
  {
    if cells != [] {
      var found := PhoneIndex(cells, 0);
      if found.Some? {
        forall k | 0 <= k < found.value ensures !PhoneLike(Trim(cells[k])) { assert !PhoneAt(cells, k); }
        assert PhoneAt(cells, found.value) && LeftmostPhone(cells, found.value);
      } else {
        forall k | 0 <= k < |cells| ensures !PhoneLike(Trim(cells[k])) { assert !PhoneAt(cells, k); }
      }
      assert PhoneAt(cells, 0) <==> PhoneLike(Trim(cells[0]));
      assert PhoneLike("") == false;
    }
    hide PhoneLike, Trim, HeaderRow;
  }
}
