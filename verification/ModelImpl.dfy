/** The operations of the accounting application. */
module ModelImpl {
  import opened Options
  import opened Records
  import opened Books
  import opened Uploads
  import opened Aggregates
  import opened Periods
  import opened Control
  import opened Splits

  datatype ControlResults = ControlResults(errorFile: seq<string>, zip: seq<ZipEntry>)

  /** The control records once a period with these transactions has been compared with them. */
  function Filled(records: ControlRecords, items: seq<Item>): ControlRecords {
    map code | code in records :: records[code].(transactionsAmount := PeriodAmount(items, code))
  }

  /** What controlling a period with these transactions gives: nothing if a control line is malformed, and otherwise
      the error file and the split, which belong to `errors` and `ids`. */
  ghost predicate IsControlResult(items: seq<Item>, lines: seq<string>, r: Option<ControlResults>,
                                  errors: seq<ErrorRecord>, ids: seq<nat>) {
    && (r.None? <==> ParseControls(lines).None?)
    && (r.Some? ==>
          var records := ParseControls(lines).value;
          && IsErrorReport(items, records, errors)
          && IsErrorFile(errors, r.value.errorFile)
          && NamedInOrder(r.value.zip)
          && (items == [] ==> r.value.zip == [])
          && (items != [] ==> IsSplit(Filled(records, items), items, items[0].file, ids, ZipLines(r.value.zip))))
  }

  class Model {
    const database: Database

    constructor (database: Database)
      ensures this.database == database
    {
      this.database := database;
    }

    method StartUploadPeriod() returns (id: nat)
      requires database.Valid()
      modifies database
      ensures database.Valid() && database.Contents() == Apply(old(database.Contents()), AddPeriod)
      ensures id == |old(database.periods)|
      ensures IsOpen(database.Contents(), id) && Items(database.Contents(), id) == []
    {
      id := database.AddUploadPeriod();
    }

    method ClosePeriod(period: nat) returns (r: Outcome)
      requires database.Valid()
      modifies database
      ensures database.Valid() && database.Contents() == Apply(old(database.Contents()), Event.ClosePeriod(period))
      ensures r == if period < |old(database.periods)| then Ok else NoSuchPeriod
    {
      r := database.CloseUploadPeriod(period);
    }

    /** Parses every line before anything is stored. */
    method HandleFileUpload(lines: seq<string>, period: nat) returns (r: Outcome)
      requires database.Valid()
      modifies database
      ensures database.Valid()
      ensures (database.Contents(), r) == Upload(old(database.Contents()), lines, period)
    {
      var transactions: seq<Transaction> := [];
      for i := 0 to |lines|
        invariant database.Valid() && database.Contents() == old(database.Contents())
        invariant ParseFile(lines[..i]) == Some(transactions)
      {
        assert lines[..i + 1][..i] == lines[..i];
        if lines[i] != "" {
          var transaction := ParseInput(lines[i]);
          if transaction.None? {
            ParsedAreOk(lines);
            assert lines[i] != "" && !IsInputLine(lines[i]);
            return InvalidLine;
          }
          transactions := transactions + [transaction.value];
        }
      }
      assert lines[..|lines|] == lines;
      ParsedAreOk(lines);
      r := PersistInputFile(transactions, period);
    }

    /** Stores the clients one by one, and only then the file. */
    method PersistInputFile(transactions: seq<Transaction>, period: nat) returns (r: Outcome)
      requires database.Valid() && TransactionsOk(transactions)
      modifies database
      ensures database.Valid()
      ensures var reg := Register(old(database.Contents()), transactions);
              database.Contents() == Apply(reg.store, AddFile(reg.rows, period)) && r == FileOutcome(reg.store, period)
    {
      var rows: seq<Row> := [];
      ghost var start := database.Contents();
      for i := 0 to |transactions|
        invariant database.Valid()
        invariant Register(start, transactions[..i]) == Registration(database.Contents(), rows)
      {
        assert transactions[..i + 1][..i] == transactions[..i];
        var client := database.AddIfNotPresent(transactions[i].client);
        rows := rows + [Row(client.value, transactions[i].amount)];
      }
      assert transactions[..|transactions|] == transactions;
      RegisterEffect(start, transactions);
      RowsForAreOk(rows, database.clients, transactions);
      r := database.AddInputFile(rows, period);
    }

    method GetAggregatedDataFile(period: nat) returns (lines: seq<string>)
      requires database.Valid()
      ensures IsAggregatedFile(database.Contents(), period, lines)
    {
      var rows := database.GetAggregatedInputData(period);
      lines := [];
      for i := 0 to |rows|
        invariant lines == AggregatedLines(rows[..i])
      {
        assert rows[..i + 1][..i] == rows[..i];
        lines := lines + [FormatInput(rows[i].client, rows[i].sum)];
      }
      assert rows[..|rows|] == rows;
    }

    /** Compares a period with a control file; nothing comes out when a line of the file is malformed. */
    method ControlPeriod(lines: seq<string>, period: nat)
      returns (r: Option<ControlResults>, ghost errors: seq<ErrorRecord>, ghost ids: seq<nat>)
      requires database.Valid()
      ensures r.None? <==> ParseControls(lines).None?
      ensures IsControlResult(Items(database.Contents(), period), lines, r, errors, ids)
    {
      errors, ids := [], [];
      var records := ParseControlFile(lines);
      if records.None? {
        return None, [], [];
      }
      ControlsAreOk(lines);
      ghost var items := Items(database.Contents(), period);
      var groups := database.GetAggregatedInputData(period);
      var amounts, clients := CollectAmounts(items, groups);
      var filled, mismatches, unseen := CompareRecords(records.value, amounts, clients);
      var all := AddMissing(records.value, amounts, unseen, mismatches);
      ReportsAreErrorReport(items, records.value, amounts, all);
      FilledInIsFilled(items, filled, records.value, amounts);
      ItemsAreSorted(database.clients, database.files, period);
      var zip;
      zip, ids := GetSplitFiles(database.GetTransactionsFromPeriod(period), filled);
      var errorFile := GenerateErrorFile(all);
      errors := all;
      return Some(ControlResults(errorFile, zip)), errors, ids;
    }
  }

  lemma FilledInIsFilled(items: seq<Item>, filled: ControlRecords, records: ControlRecords, amounts: map<string, nat>)
    requires FilledIn(filled, records, amounts, records.Keys)
    requires forall code: string :: Lookup(amounts, code) == PeriodAmount(items, code)
    ensures filled == Filled(records, items)
  {
  }

  // ----- What controlling a period guarantees -----

  /** Each client code is in exactly one case: both sides agree, and then there is no error and its lines are its
      transactions, adding up to its control amount; or they differ, and then there is one error, with the amount
      of either side if it has one, and no line. */
  lemma ControlPartition(items: seq<Item>, records: ControlRecords, errors: seq<ErrorRecord>, ids: seq<nat>,
                         zip: seq<ZipEntry>, code: string)
    requires RecordsOk(records) && AmountsFit(items)
    requires IsErrorReport(items, records, errors)
    requires items == [] ==> zip == []
    requires items != [] ==> IsSplit(Filled(records, items), items, items[0].file, ids, ZipLines(zip))
    ensures PeriodAmount(items, code) == ControlAmount(records, code) ==>
              && !HasError(errors, code)
              && AmountsOnLines(Concat(ZipLines(zip)), code) == AmountsOf(items, code)
              && Some(Sum(AmountsOnLines(Concat(ZipLines(zip)), code)))
                 == if code in records then ControlAmount(records, code) else Some(0)
    ensures PeriodAmount(items, code) != ControlAmount(records, code) ==>
              && AmountsOnLines(Concat(ZipLines(zip)), code) == []
              && exists i :: 0 <= i < |errors|
                   && errors[i] == ErrorRecord(code, PeriodAmount(items, code), ControlAmount(records, code))
                   && forall j | 0 <= j < |errors| && errors[j].code == code :: j == i
  {
    if items != [] {
      SplitConserves(Filled(records, items), items, items[0].file, ids, ZipLines(zip), code);
    }
    if PeriodAmount(items, code) == ControlAmount(records, code) {
      if code !in records { AmountsOfOthers(items, code); }
    } else {
      assert HasError(errors, code);
    }
  }

  lemma {:induction false} AmountsOfOthers(items: seq<Item>, code: string)
    requires !Occurs(items, code)
    ensures AmountsOf(items, code) == []
  {
    if items != [] {
      var n := |items| - 1;
      assert forall i | 0 <= i < n :: items[..n][i] == items[i];
      AmountsOfOthers(items[..n], code);
    }
  }

  /** The two queries of one control may see different transactions when uploads run in between: the split then
      conserves a matched client's amount if and only if nothing was added to it, as is certain in a closed period. */
  lemma SplitConservesIffNothingAdded(s: Store, events: seq<Event>, period: nat, records: ControlRecords,
                                      first: nat, ids: seq<nat>, chunks: seq<seq<string>>, code: string)
    requires Consistent(s) && period < |s.periods| && IsRun(s, events) && RecordsOk(records)
    requires Consistent(Run(s, events))
    requires Matched(Filled(records, Items(s, period)), code)
    requires IsSplit(Filled(records, Items(s, period)), Items(Run(s, events), period), first, ids, chunks)
    ensures Items(s, period) <= Items(Run(s, events), period)
    ensures var added := Items(Run(s, events), period)[|Items(s, period)|..];
            && (Sum(AmountsOnLines(Concat(chunks), code)) == records[code].controlAmount <==> Total(added, code) == 0)
            && (IsClosed(s, period) ==> added == [])
  {
    PeriodsOnlyGrow(s, events, period);
    if IsClosed(s, period) { ClosedPeriodsAreImmutable(s, events, period); }
    var before, after := Items(s, period), Items(Run(s, events), period);
    var added := after[|before|..];
    assert after == before + added;
    ItemsAreSorted(Run(s, events).clients, Run(s, events).files, period);
    LinesAreTransactions(Filled(records, before), after, code);
    SumIsTotal(after, code);
    TotalConcat(before, added, code);
  }
}
