/** The stored clients, upload periods and input files, and the data-access operations on them. */
module Books {
  import opened Options
  import opened Records

  datatype Row = Row(client: nat, amount: nat)

  datatype InputFile = InputFile(period: nat, rows: seq<Row>)

  /** Ids are handed out in order: the id of an entity is its position. */
  datatype Store = Store(clients: seq<Client>, periods: seq<bool>, files: seq<InputFile>)

  /** A transaction as the queries return it, with its client. */
  datatype Item = Item(file: nat, client: Client, amount: nat)

  /** One row of the aggregated query. */
  datatype Group = Group(client: Client, sum: nat)

  datatype Outcome = Ok | InvalidLine | ClosedPeriod | NoSuchPeriod

  // ----- Consistency -----

  predicate RowsOk(clients: seq<Client>, rows: seq<Row>) {
    forall i | 0 <= i < |rows| :: rows[i].client < |clients| && rows[i].amount < AMOUNT_LIMIT
  }

  predicate FilesOk(clients: seq<Client>, files: seq<InputFile>) {
    forall i | 0 <= i < |files| :: RowsOk(clients, files[i].rows)
  }

  predicate CodesDistinct(clients: seq<Client>) {
    forall i, j | 0 <= i < j < |clients| :: clients[i].code != clients[j].code
  }

  predicate Consistent(s: Store) {
    && CodesDistinct(s.clients)
    && (forall i | 0 <= i < |s.clients| :: IsClient(s.clients[i]))
    && FilesOk(s.clients, s.files)
    && (forall i | 0 <= i < |s.files| :: s.files[i].period < |s.periods|)
  }

  predicate IsOpen(s: Store, period: nat) {
    period < |s.periods| && s.periods[period]
  }

  predicate IsClosed(s: Store, period: nat) {
    period < |s.periods| && !s.periods[period]
  }

  // ----- Queries -----

  function FileItems(clients: seq<Client>, file: nat, rows: seq<Row>): (items: seq<Item>)
    requires RowsOk(clients, rows)
  {
    seq(|rows|, i requires 0 <= i < |rows| => Item(file, clients[rows[i].client], rows[i].amount))
  }

  /** The transactions of the files of a period, in the order of their files and of their own ids. */
  function ItemsOf(clients: seq<Client>, files: seq<InputFile>, period: nat): seq<Item>
    requires FilesOk(clients, files)
  {
    if files == [] then []
    else
      var last := |files| - 1;
      if files[last].period == period
      then ItemsOf(clients, files[..last], period) + FileItems(clients, last, files[last].rows)
      else ItemsOf(clients, files[..last], period)
  }

  function Items(s: Store, period: nat): seq<Item>
    requires Consistent(s)
  {
    ItemsOf(s.clients, s.files, period)
  }

  predicate Occurs(items: seq<Item>, code: string) {
    exists i | 0 <= i < |items| :: items[i].client.code == code
  }

  /** The sum of the amounts of the client with this code. */
  function Total(items: seq<Item>, code: string): nat {
    if items == [] then 0
    else
      var last := items[|items| - 1];
      Total(items[..|items| - 1], code) + if last.client.code == code then last.amount else 0
  }

  /** What a period holds for a code, if anything. */
  function PeriodAmount(items: seq<Item>, code: string): Option<nat> {
    if Occurs(items, code) then Some(Total(items, code)) else None
  }

  predicate GroupsDistinct(groups: seq<Group>) {
    forall i, j | 0 <= i < j < |groups| :: groups[i].client.code != groups[j].client.code
  }

  predicate SumsRight(items: seq<Item>, groups: seq<Group>) {
    forall i | 0 <= i < |groups| :: PeriodAmount(items, groups[i].client.code) == Some(groups[i].sum)
  }

  predicate HasGroup(groups: seq<Group>, client: Client) {
    exists i | 0 <= i < |groups| :: groups[i].client == client
  }

  predicate AllGrouped(items: seq<Item>, groups: seq<Group>) {
    forall k | 0 <= k < |items| :: HasGroup(groups, items[k].client)
  }

  /** One row for each client of the items, in any order, with the sum of its amounts. */
  predicate IsGroupBy(items: seq<Item>, groups: seq<Group>) {
    GroupsDistinct(groups) && SumsRight(items, groups) && AllGrouped(items, groups)
  }

  // ----- Steps -----

  /** One data-access call; requests of several users may be interleaved call by call. */
  datatype Event =
    | AddPeriod
    | ClosePeriod(period: nat)
    | AddClient(client: Client)
    | AddFile(rows: seq<Row>, period: nat)

  /** The position of the client with this code, or the number of clients. */
  function ClientId(clients: seq<Client>, code: string): (id: nat)
    ensures id <= |clients|
    ensures id < |clients| ==> clients[id].code == code
    ensures forall i | 0 <= i < id :: clients[i].code != code
  {
    if clients == [] then 0
    else if clients[0].code == code then 0
    else 1 + ClientId(clients[1..], code)
  }

  /** Files refer to clients that were added before. */
  predicate IsEvent(s: Store, e: Event) {
    match e
    case AddClient(c) => IsClient(c)
    case AddFile(rows, _) => RowsOk(s.clients, rows)
    case _ => true
  }

  function Apply(s: Store, e: Event): Store {
    match e
    case AddPeriod => s.(periods := s.periods + [true])
    case ClosePeriod(p) => if p < |s.periods| then s.(periods := s.periods[p := false]) else s
    case AddClient(c) => if ClientId(s.clients, c.code) < |s.clients| then s else s.(clients := s.clients + [c])
    case AddFile(rows, p) => if IsOpen(s, p) then s.(files := s.files + [InputFile(p, rows)]) else s
  }

  lemma ApplyKeepsConsistent(s: Store, e: Event)
    requires Consistent(s) && IsEvent(s, e)
    ensures Consistent(Apply(s, e))
  {
  }

  // ----- What the queries depend on -----

  lemma {:induction false} ItemsIgnoreNewClients(clients: seq<Client>, more: seq<Client>, files: seq<InputFile>,
                                                 period: nat)
    requires FilesOk(clients, files)
    ensures FilesOk(clients + more, files)
    ensures ItemsOf(clients + more, files, period) == ItemsOf(clients, files, period)
  {
    if files != [] {
      var last := |files| - 1;
      ItemsIgnoreNewClients(clients, more, files[..last], period);
      assert FileItems(clients + more, last, files[last].rows) == FileItems(clients, last, files[last].rows);
    }
  }

  lemma ItemsWithNewFile(clients: seq<Client>, files: seq<InputFile>, f: InputFile, period: nat)
    requires FilesOk(clients, files) && RowsOk(clients, f.rows)
    ensures FilesOk(clients, files + [f])
    ensures ItemsOf(clients, files + [f], period)
         == ItemsOf(clients, files, period)
            + if f.period == period then FileItems(clients, |files|, f.rows) else []
  {
    assert (files + [f])[..|files|] == files;
  }

  predicate SortedByFile(items: seq<Item>) {
    forall i, j | 0 <= i < j < |items| :: items[i].file <= items[j].file
  }

  predicate ItemsOk(items: seq<Item>, clients: seq<Client>, files: nat) {
    forall i | 0 <= i < |items| ::
      items[i].file < files && items[i].client in clients && items[i].amount < AMOUNT_LIMIT
  }

  /** The transactions come sorted by file, and all of them refer to stored clients. */
  lemma {:induction false} ItemsAreSorted(clients: seq<Client>, files: seq<InputFile>, period: nat)
    requires FilesOk(clients, files)
    ensures SortedByFile(ItemsOf(clients, files, period))
    ensures ItemsOk(ItemsOf(clients, files, period), clients, |files|)
  {
    if files != [] {
      var last := |files| - 1;
      ItemsAreSorted(clients, files[..last], period);
      var init, more := ItemsOf(clients, files[..last], period), FileItems(clients, last, files[last].rows);
      assert ItemsOk(init, clients, last);
      assert forall i | 0 <= i < |more| :: more[i].client == clients[files[last].rows[i].client];
    }
  }

  lemma {:induction false} TotalConcat(a: seq<Item>, b: seq<Item>, code: string)
    ensures Total(a + b, code) == Total(a, code) + Total(b, code)
  {
    if b == [] {
      assert a + b == a;
    } else {
      TotalConcat(a, b[..|b| - 1], code);
      assert (a + b)[..|a + b| - 1] == a + b[..|b| - 1];
    }
  }

  lemma OccursConcat(a: seq<Item>, b: seq<Item>, code: string)
    ensures Occurs(a + b, code) == (Occurs(a, code) || Occurs(b, code))
  {
    if Occurs(a, code) {
      var i :| 0 <= i < |a| && a[i].client.code == code;
      assert (a + b)[i].client.code == code;
    }
    if Occurs(b, code) {
      var i :| 0 <= i < |b| && b[i].client.code == code;
      assert (a + b)[|a| + i].client.code == code;
    }
  }

  lemma {:induction false} TotalOfOthers(items: seq<Item>, code: string)
    requires !Occurs(items, code)
    ensures Total(items, code) == 0
  {
    if items != [] {
      var init := items[..|items| - 1];
      assert items == init + [items[|items| - 1]];
      OccursConcat(init, [items[|items| - 1]], code);
      assert items[|items| - 1].client.code != code;
      TotalOfOthers(init, code);
    }
  }

  // ----- The stored state -----

  class Database {
    var clients: seq<Client>
    var periods: seq<bool>
    var files: seq<InputFile>

    function Contents(): Store
      reads this
    {
      Store(clients, periods, files)
    }

    predicate Valid()
      reads this
    {
      Consistent(Contents())
    }

    constructor ()
      ensures Contents() == Store([], [], [])
    {
      clients, periods, files := [], [], [];
    }

    method AddUploadPeriod() returns (id: nat)
      requires Valid()
      modifies this
      ensures Valid() && Contents() == Apply(old(Contents()), AddPeriod)
      ensures id == |old(periods)| && IsOpen(Contents(), id) && Items(Contents(), id) == []
    {
      NoFileForNewPeriod(Contents(), |periods|);
      id := |periods|;
      periods := periods + [true];
    }

    method CloseUploadPeriod(period: nat) returns (r: Outcome)
      requires Valid()
      modifies this
      ensures Valid() && Contents() == Apply(old(Contents()), ClosePeriod(period))
      ensures r == (if period < |old(periods)| then Ok else NoSuchPeriod)
      ensures r == Ok ==> IsClosed(Contents(), period)
    {
      if period >= |periods| {
        return NoSuchPeriod;
      }
      periods := periods[period := false];
      return Ok;
    }

    /** The ids of the clients with this code. */
    method FindByCode(code: string) returns (found: seq<nat>)
      requires Valid()
      ensures ClientId(clients, code) < |clients| ==> found == [ClientId(clients, code)]
      ensures ClientId(clients, code) == |clients| ==> found == []
    {
      found := [];
      for id := 0 to |clients|
        invariant found == if ClientId(clients, code) < id then [ClientId(clients, code)] else []
      {
        if clients[id].code == code {
          found := found + [id];
        }
      }
    }

    /** Gives the stored client with the code of `c`, or stores `c`; `None` if there are several. */
    method AddIfNotPresent(c: Client) returns (id: Option<nat>)
      requires Valid() && IsClient(c)
      modifies this
      ensures Valid() && Contents() == Apply(old(Contents()), AddClient(c))
      ensures id == Some(ClientId(clients, c.code)) && id.value < |clients|
    {
      var found := FindByCode(c.code);
      if |found| == 1 {
        return Some(found[0]);
      } else if |found| == 0 {
        ClientIdAppend(clients, c, c.code);
        clients := clients + [c];
        return Some(|clients| - 1);
      } else {
        return None;
      }
    }

    method AddInputFile(rows: seq<Row>, period: nat) returns (r: Outcome)
      requires Valid() && RowsOk(clients, rows)
      modifies this
      ensures Valid() && Contents() == Apply(old(Contents()), AddFile(rows, period))
      ensures r == FileOutcome(old(Contents()), period)
    {
      if period >= |periods| {
        return NoSuchPeriod;
      }
      if !periods[period] {
        return ClosedPeriod;
      }
      files := files + [InputFile(period, rows)];
      return Ok;
    }

    /** The aggregated query: groups the rows of the period by client. */
    method GetAggregatedInputData(period: nat) returns (groups: seq<Group>)
      requires Valid()
      ensures IsGroupBy(Items(Contents(), period), groups) && GroupsOf(groups, clients)
    {
      ItemsAreSorted(clients, files, period);
      groups := GroupByClient(clients, Items(Contents(), period));
    }

    /** The query for the transactions of a period. */
    function GetTransactionsFromPeriod(period: nat): (items: seq<Item>)
      requires Valid()
      reads this
    {
      Items(Contents(), period)
    }
  }

  predicate GroupsOf(groups: seq<Group>, clients: seq<Client>) {
    forall g | 0 <= g < |groups| :: groups[g].client in clients
  }

  method GroupByClient(clients: seq<Client>, items: seq<Item>) returns (groups: seq<Group>)
    requires CodesDistinct(clients)
    requires forall i | 0 <= i < |items| :: items[i].client in clients
    ensures IsGroupBy(items, groups) && GroupsOf(groups, clients)
  {
    groups := [];
    for k := 0 to |items|
      invariant IsGroupBy(items[..k], groups) && GroupsOf(groups, clients)
    {
      var g := FindGroup(groups, items[k].client);
      assert items[..k + 1] == items[..k] + [items[k]];
      GroupStep(clients, items[..k], groups, items[k], g);
      groups := AddTo(groups, g, items[k]);
    }
    assert items[..|items|] == items;
  }

  method FindGroup(groups: seq<Group>, client: Client) returns (g: nat)
    ensures g <= |groups| && (g < |groups| ==> groups[g].client == client)
    ensures forall j | 0 <= j < g :: groups[j].client != client
  {
    g := 0;
    while g < |groups| && groups[g].client != client
      invariant g <= |groups|
      invariant forall j | 0 <= j < g :: groups[j].client != client
    {
      g := g + 1;
    }
  }

  function AddTo(groups: seq<Group>, g: nat, item: Item): seq<Group>
    requires g <= |groups|
  {
    if g < |groups| then groups[g := Group(item.client, groups[g].sum + item.amount)]
    else groups + [Group(item.client, item.amount)]
  }

  function FileOutcome(s: Store, period: nat): Outcome {
    if period >= |s.periods| then NoSuchPeriod else if s.periods[period] then Ok else ClosedPeriod
  }

  lemma {:induction false} NoFileForNewPeriod(s: Store, period: nat)
    requires FilesOk(s.clients, s.files) && forall i | 0 <= i < |s.files| :: s.files[i].period < period
    ensures ItemsOf(s.clients, s.files, period) == []
    decreases |s.files|
  {
    if s.files != [] {
      NoFileForNewPeriod(s.(files := s.files[..|s.files| - 1]), period);
    }
  }

  lemma ClientIdAppend(clients: seq<Client>, c: Client, code: string)
    ensures ClientId(clients + [c], code)
         == if ClientId(clients, code) < |clients| then ClientId(clients, code)
            else if c.code == code then |clients| else |clients| + 1
  {
    var id, more := ClientId(clients, code), clients + [c];
    assert forall i | 0 <= i < |clients| :: more[i] == clients[i];
    assert more[|clients|] == c;
    if id < |clients| { assert more[id].code == code; }
  }

  /** Clients are told apart by their codes, so a client's group is the only one with its code. */
  lemma OnlyGroup(clients: seq<Client>, groups: seq<Group>, client: Client, g: nat)
    requires CodesDistinct(clients) && GroupsDistinct(groups) && client in clients
    requires GroupsOf(groups, clients)
    requires g <= |groups| && (g < |groups| ==> groups[g].client == client)
    requires forall j | 0 <= j < g :: groups[j].client != client
    ensures forall j | 0 <= j < |groups| && groups[j].client.code == client.code :: j == g
  {
    var m :| 0 <= m < |clients| && clients[m] == client;
    forall j | 0 <= j < |groups| && groups[j].client.code == client.code
      ensures j == g
    {
      var n :| 0 <= n < |clients| && clients[n] == groups[j].client;
      assert n == m;
    }
  }

  lemma NoGroupNoOccurrence(items: seq<Item>, groups: seq<Group>, code: string)
    requires AllGrouped(items, groups)
    requires forall j | 0 <= j < |groups| :: groups[j].client.code != code
    ensures !Occurs(items, code)
  {
    forall k | 0 <= k < |items|
      ensures items[k].client.code != code
    {
      assert HasGroup(groups, items[k].client);
    }
  }

  lemma PeriodAmountOneMore(items: seq<Item>, item: Item, code: string)
    ensures PeriodAmount(items + [item], code)
         == if item.client.code != code then PeriodAmount(items, code)
            else Some(item.amount + if Occurs(items, code) then Total(items, code) else 0)
  {
    OccursConcat(items, [item], code);
    assert (items + [item])[..|items|] == items;
    if item.client.code == code {
      assert [item][0].client.code == code;
      if !Occurs(items, code) {
        TotalOfOthers(items, code);
      }
    }
  }

  lemma GroupOneMoreSums(items: seq<Item>, groups: seq<Group>, item: Item, g: nat)
    requires SumsRight(items, groups) && AllGrouped(items, groups)
    requires g <= |groups| && (g < |groups| ==> groups[g].client == item.client)
    requires forall j | 0 <= j < |groups| && groups[j].client.code == item.client.code :: j == g
    ensures SumsRight(items + [item], AddTo(groups, g, item))
  {
    var next := AddTo(groups, g, item);
    forall i | 0 <= i < |next|
      ensures PeriodAmount(items + [item], next[i].client.code) == Some(next[i].sum)
    {
      PeriodAmountOneMore(items, item, next[i].client.code);
      if i == |groups| {
        NoGroupNoOccurrence(items, groups, item.client.code);
      }
    }
  }

  lemma GroupOneMoreCovers(items: seq<Item>, groups: seq<Group>, item: Item, g: nat)
    requires AllGrouped(items, groups)
    requires g <= |groups| && (g < |groups| ==> groups[g].client == item.client)
    ensures AllGrouped(items + [item], AddTo(groups, g, item))
  {
    var next := AddTo(groups, g, item);
    forall k | 0 <= k <= |items|
      ensures HasGroup(next, (items + [item])[k].client)
    {
      if k < |items| {
        assert HasGroup(groups, items[k].client);
        var i :| 0 <= i < |groups| && groups[i].client == items[k].client;
        assert next[i].client == groups[i].client;
      } else {
        assert next[g].client == item.client;
      }
    }
  }

  lemma GroupOneMore(items: seq<Item>, groups: seq<Group>, item: Item, g: nat)
    requires IsGroupBy(items, groups)
    requires g <= |groups| && (g < |groups| ==> groups[g].client == item.client)
    requires forall j | 0 <= j < |groups| && groups[j].client.code == item.client.code :: j == g
    ensures IsGroupBy(items + [item], AddTo(groups, g, item))
  {
    GroupOneMoreSums(items, groups, item, g);
    GroupOneMoreCovers(items, groups, item, g);
  }

  lemma GroupStep(clients: seq<Client>, items: seq<Item>, groups: seq<Group>, item: Item, g: nat)
    requires CodesDistinct(clients) && item.client in clients
    requires IsGroupBy(items, groups) && GroupsOf(groups, clients)
    requires g <= |groups| && (g < |groups| ==> groups[g].client == item.client)
    requires forall j | 0 <= j < g :: groups[j].client != item.client
    ensures IsGroupBy(items + [item], AddTo(groups, g, item)) && GroupsOf(AddTo(groups, g, item), clients)
  {
    OnlyGroup(clients, groups, item.client, g);
    GroupOneMore(items, groups, item, g);
  }
}
