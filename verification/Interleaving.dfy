/** What uploads in between two queries of a period can change, and what they cannot. */
module Interleaving {
  import opened Options
  import opened Records
  import opened Books
  import opened Uploads
  import opened Aggregates
  import opened Periods
  import opened Control
  import opened Splits
  import opened ModelImpl

  // ----- Closed periods -----

  /** The groups of a period are its own clients, so it does not matter which others are stored. */
  lemma GroupsAreOfTheItems(items: seq<Item>, groups: seq<Group>, clients: seq<Client>, files: nat)
    requires IsGroupBy(items, groups) && ItemsOk(items, clients, files)
    ensures GroupsOf(groups, clients)
  {
    forall i | 0 <= i < |groups| ensures groups[i].client in clients {
      assert PeriodAmount(items, groups[i].client.code) == Some(groups[i].sum);
      var k :| 0 <= k < |items| && items[k].client.code == groups[i].client.code;
      assert HasGroup(groups, items[k].client);
      var j :| 0 <= j < |groups| && groups[j].client == items[k].client;
      assert i == j;
    }
  }

  /** Once a period is closed, whatever else is uploaded, its aggregated files and the results of controlling it
      are the same for ever. */
  lemma ClosedPeriodAnswersStay(s: Store, events: seq<Event>, period: nat)
    requires Consistent(s) && IsRun(s, events) && IsClosed(s, period)
    ensures Consistent(Run(s, events)) && IsClosed(Run(s, events), period)
    ensures forall lines :: IsAggregatedFile(Run(s, events), period, lines) <==> IsAggregatedFile(s, period, lines)
    ensures forall lines, r, errors, ids ::
              IsControlResult(Items(Run(s, events), period), lines, r, errors, ids)
              <==> IsControlResult(Items(s, period), lines, r, errors, ids)
  {
    ClosedPeriodsAreImmutable(s, events, period);
    PeriodsOnlyGrow(s, events, period);
    var (next, items) := (Run(s, events), Items(s, period));
    ItemsAreSorted(s.clients, s.files, period);
    ItemsAreSorted(next.clients, next.files, period);
    forall groups | IsGroupBy(items, groups) ensures GroupsOf(groups, s.clients) && GroupsOf(groups, next.clients) {
      GroupsAreOfTheItems(items, groups, s.clients, |s.files|);
      GroupsAreOfTheItems(items, groups, next.clients, |next.files|);
    }
  }

  // ----- Open periods -----

  /** Period 0 is open and `c` is the only client so far, if there is one. */
  predicate OnlyClient(s: Store, c: Client) {
    Consistent(s) && IsClient(c) && IsOpen(s, 0) && (s.clients == [] || s.clients == [c])
  }

  lemma OneLineUpload(s: Store, c: Client, amount: nat)
    requires OnlyClient(s, c) && amount < AMOUNT_LIMIT
    ensures Upload(s, [FormatInput(c, amount)], 0).0
         == Store([c], s.periods, s.files + [InputFile(0, [Row(0, amount)])])
  {
    var line, t := FormatInput(c, amount), Transaction(c, amount);
    FormatThenParseInput(c, amount);
    assert [line][..0] == [];
    assert ParseFile([line]) == Some([] + [t]) && [] + [t] == [t];
    OneRegistered(s, t);
  }

  lemma OneRegistered(s: Store, t: Transaction)
    requires OnlyClient(s, t.client)
    ensures Register(s, [t]) == Registration(s.(clients := [t.client]), [Row(0, t.amount)])
  {
    assert [t][..0] == [];
    assert Register(s, [t]).store == s.(clients := [t.client]);
    assert Register(s, [t]).rows == [] + [Row(0, t.amount)] == [Row(0, t.amount)];
  }

  lemma OneMoreItem(s: Store, c: Client, amount: nat)
    requires OnlyClient(s, c) && amount < AMOUNT_LIMIT
    ensures var next := Store([c], s.periods, s.files + [InputFile(0, [Row(0, amount)])]);
            && OnlyClient(next, c)
            && Items(next, 0) == Items(s, 0) + [Item(|s.files|, c, amount)]
  {
    ItemsIgnoreNewClients(s.clients, if s.clients == [] then [c] else [], s.files, 0);
    ItemsWithNewFile([c], s.files, InputFile(0, [Row(0, amount)]), 0);
    assert FileItems([c], |s.files|, [Row(0, amount)]) == [Item(|s.files|, c, amount)];
    if s.clients == [] { assert [] + [c] == [c]; } else { assert [c] + [] == [c]; }
  }

  lemma OneMoreUpload(s: Store, c: Client, amount: nat)
    requires OnlyClient(s, c) && amount < AMOUNT_LIMIT
    ensures var next := Upload(s, [FormatInput(c, amount)], 0).0;
            && OnlyClient(next, c) && |next.files| == |s.files| + 1
            && Items(next, 0) == Items(s, 0) + [Item(|s.files|, c, amount)]
  {
    OneLineUpload(s, c, amount);
    OneMoreItem(s, c, amount);
  }

  lemma SplitOfTwo(c: Client, a: nat, b: nat, records: ControlRecords)
    requires Matched(records, c.code)
    ensures var r := records[c.code];
            IsSplit(records, [Item(0, c, a), Item(1, c, b)], 0, [0, 1], [[FormatControl(r, a)], [FormatControl(r, b)]])
  {
    var r := records[c.code];
    var chunks: seq<seq<string>> := [];
    SplitNothing(records, 0);
    SplitSameFile(records, [], 0, [0], chunks, [], Item(0, c, a));
    assert [] + [FormatControl(r, a)] == [FormatControl(r, a)];
    assert [] + [Item(0, c, a)] == [Item(0, c, a)] && chunks + [[] + [FormatControl(r, a)]] == [[FormatControl(r, a)]];
    SplitNewFile(records, [Item(0, c, a)], 0, [0], [[FormatControl(r, a)]], Item(1, c, b));
    assert [Item(0, c, a)] + [Item(1, c, b)] == [Item(0, c, a), Item(1, c, b)];
    assert [[FormatControl(r, a)]] + [[FormatControl(r, b)]] == [[FormatControl(r, a)], [FormatControl(r, b)]];
  }

  lemma SumOfTwo(c: Client, a: nat, b: nat, records: ControlRecords)
    requires Matched(records, c.code) && RecordsOk(records) && a < AMOUNT_LIMIT && b < AMOUNT_LIMIT
    ensures Sum(AmountsOnLines(MatchedLines(records, [Item(0, c, a), Item(1, c, b)]), c.code)) == a + b
  {
    var items := [Item(0, c, a), Item(1, c, b)];
    LinesAreTransactions(records, items, c.code);
    SumIsTotal(items, c.code);
    assert items[..1] == [Item(0, c, a)] && items[..1][..0] == [];
    assert Total(items[..1], c.code) == a && Total(items, c.code) == a + b;
  }

  lemma FilledWithOne(c: Client, r: ControlRecord)
    requires r.code == c.code
    ensures Filled(map[c.code := r], [Item(0, c, r.controlAmount)])
         == map[c.code := r.(transactionsAmount := Some(r.controlAmount))]
  {
    var items := [Item(0, c, r.controlAmount)];
    assert items[..0] == [] && items[0].client.code == c.code;
    assert Total(items[..0], c.code) == 0;
    assert Total(items, c.code) == r.controlAmount && Occurs(items, c.code);
  }

  lemma TwoUploads(empty: Store, c: Client, a: nat, b: nat)
    requires OnlyClient(empty, c) && empty.files == [] && a < AMOUNT_LIMIT && b < AMOUNT_LIMIT
    ensures var s := Upload(empty, [FormatInput(c, a)], 0).0;
            var next := Upload(s, [FormatInput(c, b)], 0).0;
            && Consistent(s) && Items(s, 0) == [Item(0, c, a)]
            && Consistent(next) && Items(next, 0) == [Item(0, c, a), Item(1, c, b)]
  {
    OneMoreUpload(empty, c, a);
    OneMoreUpload(Upload(empty, [FormatInput(c, a)], 0).0, c, b);
    assert Items(empty, 0) + [Item(0, c, a)] == [Item(0, c, a)];
    assert [Item(0, c, a)] + [Item(1, c, b)] == [Item(0, c, a), Item(1, c, b)];
  }

  lemma SplitSumsUp(c: Client, r: ControlRecord, b: nat)
    requires IsClient(c) && IsControl(r) && r.code == c.code && b < AMOUNT_LIMIT
    ensures var records := Filled(map[c.code := r], [Item(0, c, r.controlAmount)]);
            var chunks := [[FormatControl(r, r.controlAmount)], [FormatControl(r, b)]];
            && Matched(records, c.code)
            && IsSplit(records, [Item(0, c, r.controlAmount), Item(1, c, b)], 0, [0, 1], chunks)
            && Sum(AmountsOnLines(Concat(chunks), c.code)) == r.controlAmount + b
  {
    var records := map[c.code := r.(transactionsAmount := Some(r.controlAmount))];
    FilledWithOne(c, r);
    SplitOfTwo(c, r.controlAmount, b, records);
    SumOfTwo(c, r.controlAmount, b, records);
  }

  /** A client's only transaction agrees with the control file. Before the control reads the transactions that it is
      going to split, a second file brings `b` cents for the client: then the lines of the split add up to too much. */
  lemma UploadInBetween(c: Client, r: ControlRecord, b: nat)
    requires IsClient(c) && IsControl(r) && r.code == c.code && 0 < b < AMOUNT_LIMIT
    ensures var s := Upload(Apply(Store([], [], []), AddPeriod), [FormatInput(c, r.controlAmount)], 0).0;
            var next := Upload(s, [FormatInput(c, b)], 0).0;
            && Consistent(s) && Consistent(next)
            && var records := Filled(map[c.code := r], Items(s, 0));
               var chunks := [[FormatControl(r, r.controlAmount)], [FormatControl(r, b)]];
               && Matched(records, c.code) && IsSplit(records, Items(next, 0), 0, [0, 1], chunks)
               && Sum(AmountsOnLines(Concat(chunks), c.code)) == r.controlAmount + b > r.controlAmount
  {
    TwoUploads(Apply(Store([], [], []), AddPeriod), c, r.controlAmount, b);
    SplitSumsUp(c, r, b);
  }
}
