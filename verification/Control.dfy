/** Reconciling a period with a control file. */
module Control {
  import opened Options
  import opened Digits
  import opened Records
  import opened Books

  // ----- Control files -----

  type ControlRecords = map<string, ControlRecord>

  /** The control records by client code, or nothing when a nonempty line is malformed. */
  function ParseControls(lines: seq<string>): Option<ControlRecords> {
    if lines == [] then Some(map[])
    else
      var init, line := ParseControls(lines[..|lines| - 1]), lines[|lines| - 1];
      if init.None? || line == "" then init
      else
        match ParseControl(line)
        case None => None
        case Some(record) => Some(init.value[record.code := record])
  }

  method ParseControlFile(lines: seq<string>) returns (records: Option<ControlRecords>)
    ensures records == ParseControls(lines)
  {
    var found: ControlRecords := map[];
    for i := 0 to |lines|
      invariant ParseControls(lines[..i]) == Some(found)
    {
      assert lines[..i + 1][..i] == lines[..i];
      if lines[i] != "" {
        var record := ParseControl(lines[i]);
        if record.None? {
          MalformedLine(lines, i);
          return None;
        }
        found := found[record.value.code := record.value];
      }
    }
    assert lines[..|lines|] == lines;
    return Some(found);
  }

  lemma {:induction false} MalformedLine(lines: seq<string>, i: nat)
    requires i < |lines| && lines[i] != "" && ParseControl(lines[i]).None?
    ensures ParseControls(lines).None?
  {
    if i < |lines| - 1 {
      MalformedLine(lines[..|lines| - 1], i);
    }
  }

  /** A control file is refused if and only if a nonempty line of it is malformed. */
  lemma {:induction false} RefusedIffMalformed(lines: seq<string>)
    ensures ParseControls(lines).None?
            <==> exists i | 0 <= i < |lines| :: lines[i] != "" && ParseControl(lines[i]).None?
  {
    if lines != [] {
      var init := lines[..|lines| - 1];
      assert forall i | 0 <= i < |init| :: init[i] == lines[i];
      RefusedIffMalformed(init);
    }
  }

  predicate IsLineFor(lines: seq<string>, i: nat, code: string)
    requires i < |lines|
  {
    ParseControl(lines[i]).Some? && ParseControl(lines[i]).value.code == code
  }

  predicate RecordsOk(records: ControlRecords) {
    forall code | code in records :: records[code].code == code && IsControl(records[code])
  }

  lemma {:induction false} ControlsAreOk(lines: seq<string>)
    requires ParseControls(lines).Some?
    ensures RecordsOk(ParseControls(lines).value)
  {
    if lines != [] {
      var line := lines[|lines| - 1];
      ControlsAreOk(lines[..|lines| - 1]);
      if line != "" {
        ParseThenFormatControl(line);
      }
    }
  }

  /** Of the lines with the same code the last one wins. */
  lemma {:induction false} LastLineWins(lines: seq<string>, i: nat, code: string)
    requires ParseControls(lines).Some?
    requires i < |lines| && IsLineFor(lines, i, code)
    requires forall j | i < j < |lines| :: !IsLineFor(lines, j, code)
    ensures code in ParseControls(lines).value
    ensures ParseControls(lines).value[code] == ParseControl(lines[i]).value
  {
    var n := |lines| - 1;
    if i < n {
      var init := lines[..n];
      assert forall j | 0 <= j < n :: init[j] == lines[j];
      assert IsLineFor(init, i, code);
      assert forall j | i < j < n :: IsLineFor(init, j, code) ==> IsLineFor(lines, j, code);
      LastLineWins(init, i, code);
      assert !IsLineFor(lines, n, code);
    }
  }

  /** A code has a record only if some line has it. */
  lemma {:induction false} RecordHasLine(lines: seq<string>, code: string) returns (i: nat)
    requires ParseControls(lines).Some? && code in ParseControls(lines).value
    ensures i < |lines| && IsLineFor(lines, i, code)
  {
    var n := |lines| - 1;
    if lines[n] != "" && ParseControl(lines[n]).value.code == code {
      i := n;
    } else {
      i := RecordHasLine(lines[..n], code);
    }
  }

  // ----- Errors -----

  datatype ErrorRecord = ErrorRecord(code: string, transactionAmount: Option<nat>, controlAmount: Option<nat>)

  function Lookup(amounts: map<string, nat>, code: string): Option<nat> {
    if code in amounts then Some(amounts[code]) else None
  }

  function ControlAmount(records: ControlRecords, code: string): Option<nat> {
    if code in records then Some(records[code].controlAmount) else None
  }

  function ErrorFor(amounts: map<string, nat>, records: ControlRecords, code: string): ErrorRecord {
    ErrorRecord(code, Lookup(amounts, code), ControlAmount(records, code))
  }

  predicate HasError(errors: seq<ErrorRecord>, code: string) {
    exists i | 0 <= i < |errors| :: errors[i].code == code
  }

  /** Among `codes`, the errors report once each code on which the two sides differ, with both amounts. */
  predicate Reports(errors: seq<ErrorRecord>, amounts: map<string, nat>, records: ControlRecords, codes: set<string>) {
    && (forall i, j | 0 <= i < j < |errors| :: errors[i].code != errors[j].code)
    && (forall i | 0 <= i < |errors| ::
          errors[i].code in codes && errors[i] == ErrorFor(amounts, records, errors[i].code)
          && errors[i].transactionAmount != errors[i].controlAmount)
    && (forall code | code in codes ::
          Lookup(amounts, code) != ControlAmount(records, code) ==> HasError(errors, code))
  }

  lemma ReportsOneMore(errors: seq<ErrorRecord>, amounts: map<string, nat>, records: ControlRecords,
                       codes: set<string>, code: string)
    requires Reports(errors, amounts, records, codes) && code !in codes
    ensures Reports(if Lookup(amounts, code) != ControlAmount(records, code)
                    then errors + [ErrorFor(amounts, records, code)] else errors,
                    amounts, records, codes + {code})
  {
    var e := ErrorFor(amounts, records, code);
    if Lookup(amounts, code) != ControlAmount(records, code) {
      assert (errors + [e])[|errors|].code == code;
      forall c | c in codes && HasError(errors, c)
        ensures HasError(errors + [e], c)
      {
        var i :| 0 <= i < |errors| && errors[i].code == c;
        assert (errors + [e])[i].code == c;
      }
    }
  }

  /** The sums by client code, and the codes. */
  method CollectAmounts(ghost items: seq<Item>, groups: seq<Group>)
    returns (amounts: map<string, nat>, clients: set<string>)
    requires IsGroupBy(items, groups)
    ensures forall code: string :: Lookup(amounts, code) == PeriodAmount(items, code)
    ensures clients == amounts.Keys
  {
    amounts, clients := map[], {};
    for i := 0 to |groups|
      invariant clients == amounts.Keys
      invariant forall code | code in amounts :: Some(amounts[code]) == PeriodAmount(items, code)
      invariant forall g | 0 <= g < i :: groups[g].client.code in amounts
    {
      assert PeriodAmount(items, groups[i].client.code) == Some(groups[i].sum);
      amounts := amounts[groups[i].client.code := groups[i].sum];
      clients := clients + {groups[i].client.code};
    }
    forall code: string | code !in amounts
      ensures PeriodAmount(items, code) == None
    {
      NoGroupNoOccurrence(items, groups, code);
    }
  }

  /** The records with the period's amounts filled in. */
  predicate FilledIn(filled: ControlRecords, records: ControlRecords, amounts: map<string, nat>, codes: set<string>) {
    && filled.Keys == records.Keys
    && forall code | code in records ::
         filled[code] == if code in codes then records[code].(transactionsAmount := Lookup(amounts, code))
                         else records[code]
  }

  /** Checks every control record, in any order. */
  method CompareRecords(records: ControlRecords, amounts: map<string, nat>, clients: set<string>)
    returns (filled: ControlRecords, errors: seq<ErrorRecord>, unseen: set<string>)
    requires RecordsOk(records) && clients == amounts.Keys
    ensures FilledIn(filled, records, amounts, records.Keys)
    ensures Reports(errors, amounts, records, records.Keys)
    ensures unseen == clients - records.Keys
  {
    filled, errors, unseen := records, [], clients;
    var todo := records.Keys;
    ghost var done: set<string> := {};
    while exists code :: code in todo
      invariant todo + done == records.Keys && todo !! done
      invariant FilledIn(filled, records, amounts, done)
      invariant Reports(errors, amounts, records, done)
      invariant unseen == clients - done
      decreases todo
    {
      var code :| code in todo;
      var record := filled[code].(transactionsAmount := Lookup(amounts, code));
      ReportsOneMore(errors, amounts, records, done, code);
      filled := filled[code := record];
      if !record.AmountsMatch() {
        errors := errors + [ErrorRecord(record.code, record.transactionsAmount, Some(record.controlAmount))];
      }
      if code in amounts {
        unseen := unseen - {code};
      }
      todo, done := todo - {code}, done + {code};
    }
    assert done == records.Keys;
  }

  /** Adds an error for each client of the period that the control file leaves out, in any order. */
  method AddMissing(records: ControlRecords, amounts: map<string, nat>, unseen: set<string>, before: seq<ErrorRecord>)
    returns (errors: seq<ErrorRecord>)
    requires unseen == amounts.Keys - records.Keys
    requires Reports(before, amounts, records, records.Keys)
    ensures Reports(errors, amounts, records, records.Keys + amounts.Keys)
  {
    errors := before;
    var todo := unseen;
    ghost var done := records.Keys;
    while exists code :: code in todo
      invariant todo <= unseen && done == records.Keys + (unseen - todo)
      invariant Reports(errors, amounts, records, done)
      decreases todo
    {
      var code :| code in todo;
      ReportsOneMore(errors, amounts, records, done, code);
      errors := errors + [ErrorRecord(code, Some(amounts[code]), None)];
      todo, done := todo - {code}, done + {code};
    }
    assert done == records.Keys + amounts.Keys;
  }

  /** The errors of controlling a period whose transactions are `items`. */
  ghost predicate IsErrorReport(items: seq<Item>, records: ControlRecords, errors: seq<ErrorRecord>) {
    && (forall i, j | 0 <= i < j < |errors| :: errors[i].code != errors[j].code)
    && (forall i | 0 <= i < |errors| ::
          errors[i] == ErrorRecord(errors[i].code, PeriodAmount(items, errors[i].code),
                                   ControlAmount(records, errors[i].code)))
    && (forall code: string ::
          HasError(errors, code) <==> PeriodAmount(items, code) != ControlAmount(records, code))
  }

  lemma ReportsAreErrorReport(items: seq<Item>, records: ControlRecords, amounts: map<string, nat>,
                              errors: seq<ErrorRecord>)
    requires forall code: string :: Lookup(amounts, code) == PeriodAmount(items, code)
    requires Reports(errors, amounts, records, records.Keys + amounts.Keys)
    ensures IsErrorReport(items, records, errors)
  {
    forall code: string
      ensures HasError(errors, code) <==> PeriodAmount(items, code) != ControlAmount(records, code)
    {
      assert Lookup(amounts, code) == PeriodAmount(items, code);
    }
  }

  // ----- The error file -----

  const NO_AMOUNT := "---"
  const HEADER := "Cliente,Monto de periodo,Monto de control"

  function FormatOptional(amount: Option<nat>): string {
    if amount.None? then NO_AMOUNT else FormatAmount(amount.value)
  }

  function FormatError(e: ErrorRecord): string {
    e.code + "," + FormatOptional(e.transactionAmount) + "," + FormatOptional(e.controlAmount)
  }

  predicate IsErrorFile(errors: seq<ErrorRecord>, lines: seq<string>) {
    && (errors == [] ==> lines == [])
    && (errors != [] ==> |lines| == 1 + |errors| && lines[0] == HEADER)
    && (forall i | 0 <= i < |errors| && i + 1 < |lines| :: lines[i + 1] == FormatError(errors[i]))
  }

  /** The lines of the error file: a header, then one line for each error; nothing when there are no errors. */
  method GenerateErrorFile(errors: seq<ErrorRecord>) returns (lines: seq<string>)
    ensures IsErrorFile(errors, lines)
  {
    if errors == [] {
      return [];
    }
    lines := [HEADER];
    for i := 0 to |errors|
      invariant |lines| == 1 + i && lines[0] == HEADER
      invariant forall k | 0 <= k < i :: lines[k + 1] == FormatError(errors[k])
    {
      lines := lines + [FormatError(errors[i])];
    }
  }

  predicate NoComma(s: string) {
    forall i | 0 <= i < |s| :: s[i] != ','
  }

  /** However large, an amount is read back from the digits around its point. */
  lemma FormatAmountParts(amount: nat)
    ensures var s := FormatAmount(amount);
            && |s| >= 10 && NoComma(s)
            && AllDigits(s[..|s| - 3]) && AllDigits(s[|s| - 2..])
            && Value(s[..|s| - 3]) * 100 + Value(s[|s| - 2..]) == amount
  {
    var s, whole, cents := FormatAmount(amount), Pad(amount / 100, 7), Pad(amount % 100, 2);
    PadThenValue(amount / 100, 7);
    PadThenValue(amount % 100, 2);
    PowersOfTen();
    assert s[..|s| - 3] == whole && s[|s| - 2..] == cents;
    assert forall i | 0 <= i < |whole| :: IsDigit(whole[i]);
    assert forall i | 0 <= i < 2 :: IsDigit(cents[i]);
  }

  function ReadOptional(s: string): Option<nat> {
    if |s| < 10 || !AllDigits(s[..|s| - 3]) || !AllDigits(s[|s| - 2..]) then None
    else Some(Value(s[..|s| - 3]) * 100 + Value(s[|s| - 2..]))
  }

  function CommaAt(s: string): (i: nat)
    ensures i <= |s| && forall k | 0 <= k < i :: s[k] != ','
    ensures i < |s| ==> s[i] == ','
  {
    if s == "" || s[0] == ',' then 0 else 1 + CommaAt(s[1..])
  }

  /** The client code, then what the period holds, then what the control file says: the columns of the header. */
  function ReadError(line: string): ErrorRecord
    requires |line| >= 10
  {
    var fields := line[10..];
    var comma := CommaAt(fields);
    ErrorRecord(line[..9], ReadOptional(fields[..comma]),
                if comma < |fields| then ReadOptional(fields[comma + 1..]) else None)
  }

  lemma FormatThenReadOptional(a: Option<nat>)
    ensures NoComma(FormatOptional(a)) && ReadOptional(FormatOptional(a)) == a
  {
    if a.Some? { FormatAmountParts(a.value); }
  }

  /** A line of the error file reads back as its error: both amounts in their columns, missing or not,
      and however long they are. */
  lemma ErrorLineReadsBack(e: ErrorRecord)
    requires |e.code| == 9
    ensures |FormatError(e)| >= 10 && ReadError(FormatError(e)) == e
  {
    var line, x, y := FormatError(e), FormatOptional(e.transactionAmount), FormatOptional(e.controlAmount);
    var fields := x + "," + y;
    FormatThenReadOptional(e.transactionAmount);
    FormatThenReadOptional(e.controlAmount);
    assert line[..9] == e.code && line[10..] == fields;
    assert fields[|x|] == ',' && forall k | 0 <= k < |x| :: fields[k] == x[k];
    assert CommaAt(fields) == |x|;
    assert fields[..|x|] == x && fields[|x| + 1..] == y;
  }
}
