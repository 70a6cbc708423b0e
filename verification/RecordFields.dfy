/**
 Which header words name which field of an identity record, and from which cell of a row each field is read, with the words
 written out.
 */
module RecordFields {
  import opened Wrappers
  import opened Text
  import opened RecordsImport
  import D = OneTimeCodes
  import R = RecipientImport

  // One character of a header: letters fold to lower case, digits stay, everything else goes.
  lemma {:induction false} HeaderCharsFold(s: string, c: char)
    ensures Normalized(s + [c]) ==
            Normalized(s) + if 'a' <= c <= 'z' || '0' <= c <= '9' then [c]
                            else if 'A' <= c <= 'Z' then [(c as int + 32) as char]
                            else if c == '\U{0130}' then "i" else if c == '\U{212A}' then "k" else ""
  {
    assert (s + [c])[..|s|] == s;
    hide IsSpace;
  }

  function Words(field: Field): set<string> {
    match field
    case RowNumber => {"sn", "sno", "serial", "row"}
    case Name => {"name", "fullname", "recipient", "beneficiary"}
    case Phone => {"phone", "phonenumber", "phonenumbers", "msisdn", "mobile", "telephone"}
    case Bvn => {"bvn"}
    case Nin => {"nin"}
    case Vin => {"vin", "voterid", "vinnumber"}
    case AccountNumber => {"accountnumber", "acctnumber", "accountno"}
    case BankName => {"bankname", "bank"}
    case BankCode => {"bankcode"}
    case AccountName => {"accountname"}
    case State => {"state"}
    case Lga => {"lga", "localgovernment"}
    case Ward => {"ward"}
    case PollingUnit => {"pollingunit", "pollingunitbooth", "pollingbooth", "booth"}
    case SourceFile => {"sourcefile"}
  }

  lemma {:induction false} AliasIff(header: string, field: Field)
    ensures Alias(header) == Some(field) <==> header in Words(field)
  {
    hide Words, Alias;
    if header in Words(field) { WordsAreTheirOwn(header, field); }
    if Alias(header).Some? { AliasIsAWord(header); }
  }

  lemma {:induction false} AliasIsAWord(header: string)
    requires Alias(header).Some?
    ensures header in Words(Alias(header).value)
  {
  }

  lemma {:induction false} WordsAreTheirOwn(header: string, field: Field)
    requires header in Words(field)
    ensures Alias(header) == Some(field)
  {
  }

  // The leftmost column of the header whose cell is one of the words.
  predicate HeadedAt(header: Row, words: set<string>, i: nat) {
    i < |header| && Normalized(header[i]) in words && forall k :: 0 <= k < i ==> Normalized(header[k]) !in words
  }

  // The trimmed cell of a row under such a column; blank if there is none or the row is too short.
  ghost predicate Under(header: Row, row: Row, words: set<string>, text: string) {
    if exists i: nat :: HeadedAt(header, words, i)
    then exists i: nat :: HeadedAt(header, words, i) && text == if i < |row| then Trim(row[i]) else ""
    else text == ""
  }

  lemma {:induction false} FieldIsRead(header: Row, row: Row, columns: map<Field, nat>, field: Field)
    requires Indexes(columns, header)
    ensures Under(header, row, Words(field), FieldCell(row, columns, field))
    ensures field in columns <==> exists i: nat :: HeadedAt(header, Words(field), i)
  {
    var first := FirstColumn(header, field);
    forall i: nat | i < |header| ensures FieldAt(header, i) == Some(field) <==> Normalized(header[i]) in Words(field) {
      AliasIff(Normalized(header[i]), field);
    }
    hide Words, Normalized, Alias;
    if first.Some? {
      assert FieldAt(header, first.value) == Some(field);
      assert HeadedAt(header, Words(field), first.value);
    } else {
      forall i: nat ensures !HeadedAt(header, Words(field), i) {
        if i < |header| { assert FieldAt(header, i) != Some(field); }
      }
    }
  }

  /**
   With a header, each field of a record is the cell under the leftmost column headed with one of the field's words, wherever
   that is; the file's own source file, if a row names one, wins over the name it was uploaded under.
   */
  lemma {:induction false} FieldsAreReadUnderTheirWords(header: Row, row: Row, columns: map<Field, nat>, center: Option<nat>, sourceFile: string)
    requires Indexes(columns, header) && columns != map[]
    ensures var r := RecordOf(row, columns, center, sourceFile);
            && r.center == center
            && Under(header, row, Words(Phone), r.phone) && Under(header, row, Words(Name), r.name)
            && Under(header, row, Words(Bvn), r.bvn) && Under(header, row, Words(Nin), r.nin) && Under(header, row, Words(Vin), r.vin)
            && Under(header, row, Words(AccountNumber), r.accountNumber) && Under(header, row, Words(AccountName), r.accountName)
            && Under(header, row, Words(BankName), r.bankName) && Under(header, row, Words(BankCode), r.bankCode)
            && Under(header, row, Words(State), r.state) && Under(header, row, Words(Lga), r.lga)
            && Under(header, row, Words(Ward), r.ward) && Under(header, row, Words(PollingUnit), r.pollingUnit)
            && (if r.sourceFile == sourceFile then Under(header, row, Words(SourceFile), "") || Under(header, row, Words(SourceFile), sourceFile)
                else r.sourceFile != "" && Under(header, row, Words(SourceFile), r.sourceFile))
  {
    hide Under, Indexes, FieldCell, Words;
    forall field ensures Under(header, row, Words(field), FieldCell(row, columns, field)) {
      FieldIsRead(header, row, columns, field);
    }
  }

  // ---------- without a header ----------

  predicate HasOther(s: string) {
    exists i :: 0 <= i < |s| && !('0' <= s[i] <= '9')
  }

  // Neither blank, nor a phone, nor a serial number.
  predicate NameCell(s: string) {
    s != "" && !R.PhoneLike(s) && HasOther(s)
  }

  // The first trimmed cell with a property; blank if none has it.
  ghost predicate FirstSuch(row: Row, such: string -> bool, text: string) {
    if exists i :: 0 <= i < |row| && such(Trim(row[i]))
    then exists i :: 0 <= i < |row| && such(Trim(row[i])) && text == Trim(row[i]) && forall k :: 0 <= k < i ==> !such(Trim(row[k]))
    else text == ""
  }

  lemma {:induction false} FirstSuchLast(row: Row, such: string -> bool, text: string)
    requires row != [] && FirstSuch(row[..|row| - 1], such, text) && !such("")
    ensures FirstSuch(row, such, if text == "" && such(Trim(row[|row| - 1])) then Trim(row[|row| - 1]) else text)
  {
    hide Trim;
    var front, last := row[..|row| - 1], Trim(row[|row| - 1]);
    if i :| 0 <= i < |front| && such(Trim(front[i])) {
      var j :| 0 <= j < |front| && such(Trim(front[j])) && text == Trim(front[j]) && forall k :: 0 <= k < j ==> !such(Trim(front[k]));
      assert forall k :: 0 <= k <= j ==> front[k] == row[k];
      assert such(Trim(row[j]));
    } else {
      assert forall k :: 0 <= k < |front| ==> front[k] == row[k] && !such(Trim(row[k]));
      if such(last) { assert such(Trim(row[|row| - 1])); }
    }
  }

  lemma {:induction false} LegacyIsFirst(row: Row)
    ensures FirstSuch(row, R.PhoneLike, LegacyPhone(row)) && FirstSuch(row, NameCell, LegacyName(row))
  {
    assert !R.PhoneLike("") && !NameCell("");
    if row != [] {
      var last := Trim(row[|row| - 1]);
      LegacyIsFirst(row[..|row| - 1]);
      FirstSuchLast(row, R.PhoneLike, LegacyPhone(row[..|row| - 1]));
      FirstSuchLast(row, NameCell, LegacyName(row[..|row| - 1]));
      assert NameLike(last) <==> NameCell(last);
    }
    hide R.PhoneLike, Trim, FirstSuch;
  }

  // Without a header a record is the first phone-like cell, and the first that is neither that nor a serial number.
  lemma {:induction false} WithoutAHeader(row: Row, center: Option<nat>, sourceFile: string)
    ensures var r := RecordOf(row, map[], center, sourceFile);
            && r == Record(center, sourceFile, r.phone, r.name, "", "", "", "", "", "", "", "", "", "", "")
            && FirstSuch(row, R.PhoneLike, r.phone) && FirstSuch(row, NameCell, r.name)
  {
    LegacyIsFirst(row);
    hide LegacyPhone, LegacyName, FirstSuch;
  }

  // ---------- what becomes of a row ----------

  predicate BlankCells(row: Row) {
    forall i :: 0 <= i < |row| ==> Trim(row[i]) == ""
  }

  /**
   Without a header a row is skipped exactly when all its cells are blank; with one, exactly when every cell under a
   recognised column but the row number's is. Of the others those without a phone are complained about and the rest kept.
   */
  lemma {:induction false} ARowIsSkippedOrKept(row: Row, o: Options)
    ensures o.columns == map[] ==> (FateOf(row, o) == Skipped <==> BlankCells(row))
    ensures o.columns != map[] ==>
              (FateOf(row, o) == Skipped <==>
                 forall field :: field in o.columns && field != RowNumber ==> FieldCell(row, o.columns, field) == "")
    ensures FateOf(row, o) != Skipped ==>
              (FateOf(row, o) == Complained <==> Trim(RecordOf(row, o.columns, o.center, o.sourceFile).phone) == "")
  {
    if o.columns != map[] { HeaderedDataIsRecordData(row, o.columns); }
    hide Trim, RecordOf;
  }

  // A complaint names the row by its own number, if it has one, and otherwise by its position in the file, counted from one.
  lemma {:induction false} ComplaintsNameTheRow(header: Row, row: Row, columns: map<Field, nat>, i: nat)
    requires Indexes(columns, header)
    ensures exists number ::
              && Under(header, row, {"sn", "sno", "serial", "row"}, number)
              && ProblemLine(i, row, columns) == (if number != "" then number else D.Decimal(i + 1)) + ": no phone number"
    ensures D.AllDigits(D.Decimal(i + 1)) && D.ParseDigits(D.Decimal(i + 1)) == i + 1
  {
    FieldIsRead(header, row, columns, RowNumber);
    D.DecimalShape(i + 1);
    var number := FieldCell(row, columns, RowNumber);
    assert Under(header, row, {"sn", "sno", "serial", "row"}, number);
    hide Under, D.Decimal, Cell;
  }
}
