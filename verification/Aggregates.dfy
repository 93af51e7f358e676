/** The aggregated file of a period: what it conserves, and when it can be uploaded again. */
module Aggregates {
  import opened Options
  import opened Digits
  import opened Records
  import opened Books
  import opened Uploads

  /** One line for each row of the aggregated query. */
  function AggregatedLines(groups: seq<Group>): seq<string> {
    if groups == [] then []
    else
      var g := groups[|groups| - 1];
      AggregatedLines(groups[..|groups| - 1]) + [FormatInput(g.client, g.sum)]
  }

  // ----- Conservation -----

  function ItemsSum(items: seq<Item>): nat {
    if items == [] then 0 else ItemsSum(items[..|items| - 1]) + items[|items| - 1].amount
  }

  function GroupsSum(groups: seq<Group>): nat {
    if groups == [] then 0 else groups[0].sum + GroupsSum(groups[1..])
  }

  /** The total of the items, taken group by group. */
  function SumOver(items: seq<Item>, groups: seq<Group>): nat {
    if groups == [] then 0 else Total(items, groups[0].client.code) + SumOver(items, groups[1..])
  }

  lemma {:induction false} SumOverOneMore(items: seq<Item>, item: Item, groups: seq<Group>)
    requires GroupsDistinct(groups)
    ensures SumOver(items + [item], groups)
         == SumOver(items, groups)
            + if exists i | 0 <= i < |groups| :: groups[i].client.code == item.client.code then item.amount else 0
  {
    if groups != [] {
      SumOverOneMore(items, item, groups[1..]);
      assert (items + [item])[..|items|] == items;
      assert forall i | 0 <= i < |groups[1..]| :: groups[1..][i] == groups[i + 1];
      assert (exists i | 0 <= i < |groups| :: groups[i].client.code == item.client.code)
        <==> groups[0].client.code == item.client.code
             || exists i | 0 <= i < |groups[1..]| :: groups[1..][i].client.code == item.client.code;
    }
  }

  lemma {:induction false} SumOverAll(items: seq<Item>, groups: seq<Group>)
    requires GroupsDistinct(groups) && AllGrouped(items, groups)
    ensures SumOver(items, groups) == ItemsSum(items)
  {
    if items == [] {
      SumOverNothing(groups);
    } else {
      var n := |items| - 1;
      assert AllGrouped(items[..n], groups) by {
        assert forall k | 0 <= k < n :: items[..n][k] == items[k];
      }
      SumOverAll(items[..n], groups);
      assert HasGroup(groups, items[n].client);
      SumOverOneMore(items[..n], items[n], groups);
      assert items[..n] + [items[n]] == items;
    }
  }

  lemma {:induction false} SumOverNothing(groups: seq<Group>)
    ensures SumOver([], groups) == 0
  {
    if groups != [] { SumOverNothing(groups[1..]); }
  }

  lemma {:induction false} SumOverIsGroupsSum(items: seq<Item>, groups: seq<Group>)
    requires SumsRight(items, groups)
    ensures SumOver(items, groups) == GroupsSum(groups)
  {
    if groups != [] {
      assert PeriodAmount(items, groups[0].client.code) == Some(groups[0].sum);
      assert forall i | 0 <= i < |groups[1..]| :: groups[1..][i] == groups[i + 1];
      SumOverIsGroupsSum(items, groups[1..]);
    }
  }

  /** The sums of the aggregated query add up to all the amounts of the period. */
  lemma AggregateConserves(items: seq<Item>, groups: seq<Group>)
    requires IsGroupBy(items, groups)
    ensures GroupsSum(groups) == ItemsSum(items)
  {
    SumOverAll(items, groups);
    SumOverIsGroupsSum(items, groups);
  }

  // ----- Reading the aggregated file back -----

  predicate ClientsOk(groups: seq<Group>) {
    forall i | 0 <= i < |groups| :: IsClient(groups[i].client)
  }

  predicate SumsFit(groups: seq<Group>) {
    forall i | 0 <= i < |groups| :: groups[i].sum < AMOUNT_LIMIT
  }

  function AsTransactions(groups: seq<Group>): seq<Transaction> {
    seq(|groups|, i requires 0 <= i < |groups| => Transaction(groups[i].client, groups[i].sum))
  }

  lemma ParseOneMore(lines: seq<string>, line: string)
    requires line != ""
    ensures ParseFile(lines + [line])
         == if ParseFile(lines).Some? && ParseInput(line).Some?
            then Some(ParseFile(lines).value + [ParseInput(line).value]) else None
  {
    assert (lines + [line])[..|lines|] == lines;
  }

  lemma SumsFitOneMore(groups: seq<Group>, g: Group)
    ensures SumsFit(groups + [g]) <==> SumsFit(groups) && g.sum < AMOUNT_LIMIT
    ensures AsTransactions(groups + [g]) == AsTransactions(groups) + [Transaction(g.client, g.sum)]
  {
    assert (groups + [g])[|groups|] == g;
    assert forall i | 0 <= i < |groups| :: (groups + [g])[i] == groups[i];
  }

  /** The aggregated file is a valid input file exactly when every sum fits its field. */
  lemma {:induction false} AggregatedFileParses(groups: seq<Group>)
    requires ClientsOk(groups)
    ensures ParseFile(AggregatedLines(groups)) == if SumsFit(groups) then Some(AsTransactions(groups)) else None
  {
    if groups == [] {
      assert AsTransactions(groups) == [];
    } else {
      var n := |groups| - 1;
      var init, g := groups[..n], groups[n];
      AggregatedFileParses(init);
      FormatThenParseInput(g.client, g.sum);
      ParseOneMore(AggregatedLines(init), FormatInput(g.client, g.sum));
      SumsFitOneMore(init, g);
      assert groups == init + [g];
    }
  }

  /** Clients that are stored already stay as they are, and are found by their codes. */
  lemma {:induction false} NoNewClients(clients: seq<Client>, ts: seq<Transaction>)
    requires forall i | 0 <= i < |ts| :: ts[i].client in clients
    ensures NewClients(clients, ts) == []
  {
    if ts != [] {
      NoNewClients(clients, ts[..|ts| - 1]);
      var k :| 0 <= k < |clients| && clients[k] == ts[|ts| - 1].client;
      assert clients[k].code == ts[|ts| - 1].client.code;
    }
  }

  /** The groups as the items of one file. */
  predicate ItemsOfGroups(items: seq<Item>, groups: seq<Group>) {
    && |items| == |groups|
    && forall i | 0 <= i < |items| :: items[i].client == groups[i].client && items[i].amount == groups[i].sum
  }

  lemma {:induction false} TotalOfDistinct(items: seq<Item>, groups: seq<Group>, i: nat)
    requires ItemsOfGroups(items, groups) && GroupsDistinct(groups) && i < |groups|
    ensures Total(items, groups[i].client.code) == groups[i].sum
  {
    var n := |items| - 1;
    if i < n {
      TotalOfDistinct(items[..n], groups[..n], i);
    } else {
      assert !Occurs(items[..n], groups[n].client.code);
      TotalOfOthers(items[..n], groups[n].client.code);
    }
  }

  /** Items with one entry for each group have the same groups. */
  lemma SameGroups(items: seq<Item>, groups: seq<Group>)
    requires ItemsOfGroups(items, groups) && GroupsDistinct(groups)
    ensures IsGroupBy(items, groups)
  {
    forall i | 0 <= i < |groups|
      ensures PeriodAmount(items, groups[i].client.code) == Some(groups[i].sum)
    {
      TotalOfDistinct(items, groups, i);
      assert items[i].client.code == groups[i].client.code;
    }
    assert forall k | 0 <= k < |items| :: groups[k].client == items[k].client;
  }

  lemma RowsGiveGroups(clients: seq<Client>, file: nat, rows: seq<Row>, groups: seq<Group>)
    requires CodesDistinct(clients) && RowsOk(clients, rows)
    requires GroupsOf(groups, clients) && RowsFor(rows, clients, AsTransactions(groups))
    ensures ItemsOfGroups(FileItems(clients, file, rows), groups)
  {
    forall i | 0 <= i < |rows|
      ensures clients[rows[i].client] == groups[i].client
    {
      assert AsTransactions(groups)[i] == Transaction(groups[i].client, groups[i].sum);
      var k :| 0 <= k < |clients| && clients[k] == groups[i].client;
      assert clients[rows[i].client].code == clients[k].code;
    }
  }

  /** An uploaded aggregated file adds nothing but one file, with a row for each group. */
  lemma UploadAggregated(s: Store, groups: seq<Group>, target: nat) returns (f: InputFile)
    requires Consistent(s) && GroupsOf(groups, s.clients) && ClientsOk(groups)
    requires IsOpen(s, target) && SumsFit(groups)
    ensures Upload(s, AggregatedLines(groups), target) == (s.(files := s.files + [f]), Ok)
    ensures f.period == target && RowsOk(s.clients, f.rows) && RowsFor(f.rows, s.clients, AsTransactions(groups))
  {
    AggregatedFileParses(groups);
    UploadEffect(s, AggregatedLines(groups), target);
    var ts, next := AsTransactions(groups), Upload(s, AggregatedLines(groups), target).0;
    NoNewClients(s.clients, ts);
    assert s.clients + [] == s.clients;
    f := next.files[|s.files|];
    assert next.files == s.files + [f];
    RowsForAreOk(f.rows, s.clients, ts);
  }

  lemma GroupsHaveStoredClients(s: Store, groups: seq<Group>)
    requires Consistent(s) && GroupsOf(groups, s.clients)
    ensures ClientsOk(groups)
  {
    assert forall g | 0 <= g < |groups| :: groups[g].client in s.clients;
  }

  /** Uploading an aggregated file to an open period succeeds if and only if every sum fits its field;
      otherwise the file is refused and nothing changes. */
  lemma AggregateAcceptedIffSumsFit(s: Store, groups: seq<Group>, target: nat)
    requires Consistent(s) && GroupsOf(groups, s.clients) && IsOpen(s, target)
    ensures Upload(s, AggregatedLines(groups), target).1 == if SumsFit(groups) then Ok else InvalidLine
    ensures !SumsFit(groups) ==> Upload(s, AggregatedLines(groups), target).0 == s
  {
    GroupsHaveStoredClients(s, groups);
    if SumsFit(groups) {
      var f := UploadAggregated(s, groups, target);
    } else {
      AggregatedFileParses(groups);
    }
  }

  lemma NewFileHasTheGroups(s: Store, groups: seq<Group>, target: nat, f: InputFile)
    requires Consistent(s) && Items(s, target) == [] && f.period == target
    requires RowsOk(s.clients, f.rows) && ItemsOfGroups(FileItems(s.clients, |s.files|, f.rows), groups)
    requires GroupsDistinct(groups)
    ensures FilesOk(s.clients, s.files + [f])
    ensures IsGroupBy(ItemsOf(s.clients, s.files + [f], target), groups)
    ensures forall other: nat | other != target ::
              ItemsOf(s.clients, s.files + [f], other) == ItemsOf(s.clients, s.files, other)
  {
    var more := FileItems(s.clients, |s.files|, f.rows);
    SameGroups(more, groups);
    ItemsWithNewFile(s.clients, s.files, f, target);
    assert [] + more == more;
    forall other: nat | other != target
      ensures ItemsOf(s.clients, s.files + [f], other) == ItemsOf(s.clients, s.files, other)
    {
      ItemsWithNewFile(s.clients, s.files, f, other);
    }
  }

  /** The rows of the aggregated query determine what every code amounts to. */
  lemma GroupsDetermineAmounts(a: seq<Item>, b: seq<Item>, groups: seq<Group>, code: string)
    requires IsGroupBy(a, groups) && IsGroupBy(b, groups)
    ensures PeriodAmount(a, code) == PeriodAmount(b, code)
  {
    if i :| 0 <= i < |groups| && groups[i].client.code == code {
      assert PeriodAmount(a, groups[i].client.code) == PeriodAmount(b, groups[i].client.code);
    } else {
      NoGroupNoOccurrence(a, groups, code);
      NoGroupNoOccurrence(b, groups, code);
    }
  }

  lemma UploadGroups(s: Store, groups: seq<Group>, target: nat)
    requires Consistent(s) && GroupsDistinct(groups) && GroupsOf(groups, s.clients) && SumsFit(groups)
    requires IsOpen(s, target) && Items(s, target) == []
    ensures var next := Upload(s, AggregatedLines(groups), target).0;
            && Consistent(next) && next.clients == s.clients && next.periods == s.periods
            && IsGroupBy(Items(next, target), groups)
            && (forall other: nat | other != target :: Items(next, other) == Items(s, other))
  {
    GroupsHaveStoredClients(s, groups);
    var f := UploadAggregated(s, groups, target);
    RowsGiveGroups(s.clients, |s.files|, f.rows, groups);
    NewFileHasTheGroups(s, groups, target, f);
    ApplyKeepsConsistent(s, AddFile(f.rows, target));
  }

  // ----- The same, about the file -----

  /** The lines of an aggregated file of a period; the order of its clients is left open. */
  ghost predicate IsAggregatedFile(s: Store, period: nat, lines: seq<string>)
    requires Consistent(s)
  {
    exists groups ::
      IsGroupBy(Items(s, period), groups) && GroupsOf(groups, s.clients) && lines == AggregatedLines(groups)
  }

  ghost predicate AmountsFitField(items: seq<Item>) {
    forall code: string :: PeriodAmount(items, code).Some? ==> PeriodAmount(items, code).value < AMOUNT_LIMIT
  }

  lemma SumsFitIffAmountsFit(items: seq<Item>, groups: seq<Group>)
    requires IsGroupBy(items, groups)
    ensures SumsFit(groups) <==> AmountsFitField(items)
  {
    forall code: string | SumsFit(groups) && PeriodAmount(items, code).Some?
      ensures PeriodAmount(items, code).value < AMOUNT_LIMIT
    {
      if forall j | 0 <= j < |groups| :: groups[j].client.code != code {
        NoGroupNoOccurrence(items, groups, code);
      }
    }
    forall i | AmountsFitField(items) && 0 <= i < |groups|
      ensures groups[i].sum < AMOUNT_LIMIT
    {
      assert PeriodAmount(items, groups[i].client.code) == Some(groups[i].sum);
    }
  }

  /** Uploading a period's aggregated file to an open period succeeds if and only if every client's amount fits
      nine digits; otherwise the file is refused and nothing changes. */
  lemma AggregatedFileIsAcceptedIffAmountsFit(s: Store, period: nat, lines: seq<string>, target: nat)
    requires Consistent(s) && IsAggregatedFile(s, period, lines) && IsOpen(s, target)
    ensures Upload(s, lines, target).1 == if AmountsFitField(Items(s, period)) then Ok else InvalidLine
    ensures !AmountsFitField(Items(s, period)) ==> Upload(s, lines, target).0 == s
  {
    var groups :|
      IsGroupBy(Items(s, period), groups) && GroupsOf(groups, s.clients) && lines == AggregatedLines(groups);
    SumsFitIffAmountsFit(Items(s, period), groups);
    AggregateAcceptedIffSumsFit(s, groups, target);
  }

  /** Accepted into an open, empty period it gives every client the same amount there, and is again an aggregated
      file of that period; no client and no other period changes. */
  lemma AggregatedFileRoundTrip(s: Store, period: nat, lines: seq<string>, target: nat)
    requires Consistent(s) && IsAggregatedFile(s, period, lines)
    requires IsOpen(s, target) && Items(s, target) == []
    requires Upload(s, lines, target).1 == Ok
    ensures var next := Upload(s, lines, target).0;
            && Consistent(next) && next.clients == s.clients && next.periods == s.periods
            && (forall code: string :: PeriodAmount(Items(next, target), code) == PeriodAmount(Items(s, period), code))
            && IsAggregatedFile(next, target, lines)
            && (forall other: nat | other != target :: Items(next, other) == Items(s, other))
  {
    var groups :|
      IsGroupBy(Items(s, period), groups) && GroupsOf(groups, s.clients) && lines == AggregatedLines(groups);
    AggregateAcceptedIffSumsFit(s, groups, target);
    UploadGroups(s, groups, target);
    var next := Upload(s, lines, target).0;
    forall code: string
      ensures PeriodAmount(Items(next, target), code) == PeriodAmount(Items(s, period), code)
    {
      GroupsDetermineAmounts(Items(s, period), Items(next, target), groups, code);
    }
  }
}
