/** Uploading input files, the aggregated file of a period, and what closing a period guarantees. */
module Uploads {
  import opened Options
  import opened Digits
  import opened Records
  import opened Books

  /** The transactions of the nonempty lines, or nothing when one of them is malformed. */
  function ParseFile(lines: seq<string>): Option<seq<Transaction>> {
    if lines == [] then Some([])
    else
      var init, line := ParseFile(lines[..|lines| - 1]), lines[|lines| - 1];
      if init.None? || line == "" then init
      else if ParseInput(line).None? then None
      else Some(init.value + [ParseInput(line).value])
  }

  datatype Registration = Registration(store: Store, rows: seq<Row>)

  /** Stores the clients that are new, one after the other, and refers to each client by its id. */
  function Register(s: Store, ts: seq<Transaction>): Registration {
    if ts == [] then Registration(s, [])
    else
      var r, t := Register(s, ts[..|ts| - 1]), ts[|ts| - 1];
      var next := Apply(r.store, AddClient(t.client));
      Registration(next, r.rows + [Row(ClientId(next.clients, t.client.code), t.amount)])
  }

  function Upload(s: Store, lines: seq<string>, period: nat): (Store, Outcome) {
    match ParseFile(lines)
    case None => (s, InvalidLine)
    case Some(ts) =>
      var r := Register(s, ts);
      (Apply(r.store, AddFile(r.rows, period)), FileOutcome(r.store, period))
  }

  predicate TransactionsOk(ts: seq<Transaction>) {
    forall i | 0 <= i < |ts| :: IsClient(ts[i].client) && ts[i].amount < AMOUNT_LIMIT
  }

  lemma {:induction false} ParsedAreOk(lines: seq<string>)
    ensures ParseFile(lines).None?
            <==> exists i | 0 <= i < |lines| :: lines[i] != "" && !IsInputLine(lines[i])
    ensures ParseFile(lines).Some? ==> TransactionsOk(ParseFile(lines).value)
  {
    if lines != [] {
      var init, line := lines[..|lines| - 1], lines[|lines| - 1];
      ParsedAreOk(init);
      assert forall i | 0 <= i < |init| :: init[i] == lines[i];
      if IsInputLine(line) { ParseThenFormatInput(line); }
    }
  }

  function NonEmpty(lines: seq<string>): seq<string> {
    if lines == [] then []
    else if lines[0] == "" then NonEmpty(lines[1..])
    else [lines[0]] + NonEmpty(lines[1..])
  }

  lemma {:induction false} NonEmptyConcat(a: seq<string>, b: seq<string>)
    ensures NonEmpty(a + b) == NonEmpty(a) + NonEmpty(b)
  {
    if a == [] {
      assert a + b == b;
    } else {
      assert (a + b)[1..] == a[1..] + b;
      NonEmptyConcat(a[1..], b);
    }
  }

  /** Empty lines make no difference, wherever they are. */
  lemma EmptyLinesAreSkipped(s: Store, lines: seq<string>, period: nat)
    ensures Upload(s, lines, period) == Upload(s, NonEmpty(lines), period)
  {
    ParsedNonEmpty(lines);
  }

  lemma {:induction false} ParsedNonEmpty(lines: seq<string>)
    ensures ParseFile(lines) == ParseFile(NonEmpty(lines))
  {
    if lines != [] {
      var init, line := lines[..|lines| - 1], lines[|lines| - 1];
      ParsedNonEmpty(init);
      NonEmptyConcat(init, [line]);
      assert lines == init + [line] && [line][1..] == [];
      if line != "" {
        assert NonEmpty(lines) == NonEmpty(init) + [line];
        assert NonEmpty(lines)[..|NonEmpty(init)|] == NonEmpty(init);
      } else {
        assert NonEmpty(init) + [] == NonEmpty(init);
      }
    }
  }

  /** Transaction `k` is what line `k` says, if no line is empty. */
  lemma {:induction false} TransactionsAreLines(lines: seq<string>)
    requires ParseFile(lines).Some? && "" !in lines
    ensures |ParseFile(lines).value| == |lines|
    ensures forall k | 0 <= k < |lines| :: ParseInput(lines[k]) == Some(ParseFile(lines).value[k])
  {
    if lines != [] {
      var init := lines[..|lines| - 1];
      assert forall k | 0 <= k < |init| :: init[k] == lines[k];
      TransactionsAreLines(init);
    }
  }

  /** Line `i` is the first to bring its client code: none is stored or on an earlier line. */
  predicate FirstSeen(before: seq<Client>, ts: seq<Transaction>, i: nat)
    requires i < |ts|
  {
    && (forall k | 0 <= k < |before| :: before[k].code != ts[i].client.code)
    && (forall k | 0 <= k < i :: ts[k].client.code != ts[i].client.code)
  }

  function NewClients(before: seq<Client>, ts: seq<Transaction>): seq<Client> {
    if ts == [] then []
    else
      var n := |ts| - 1;
      if FirstSeen(before, ts, n) then NewClients(before, ts[..n]) + [ts[n].client] else NewClients(before, ts[..n])
  }

  predicate HasCode(clients: seq<Client>, code: string) {
    exists k | 0 <= k < |clients| :: clients[k].code == code
  }

  lemma {:induction false} CodesAfterRegister(before: seq<Client>, ts: seq<Transaction>, code: string)
    ensures ClientId(before + NewClients(before, ts), code) < |before + NewClients(before, ts)|
            <==> HasCode(before, code) || exists i | 0 <= i < |ts| :: ts[i].client.code == code
  {
    if ts == [] {
      assert before + [] == before;
    } else {
      var n := |ts| - 1;
      var init := before + NewClients(before, ts[..n]);
      CodesAfterRegister(before, ts[..n], code);
      assert forall i | 0 <= i < n :: ts[..n][i] == ts[i];
      if FirstSeen(before, ts, n) {
        assert before + NewClients(before, ts) == init + [ts[n].client];
        ClientIdAppend(init, ts[n].client, code);
      }
    }
  }

  predicate RowsFor(rows: seq<Row>, clients: seq<Client>, ts: seq<Transaction>) {
    && |rows| == |ts|
    && forall i | 0 <= i < |ts| ::
         && rows[i].client < |clients| && clients[rows[i].client].code == ts[i].client.code
         && rows[i].amount == ts[i].amount
  }

  /** A client is added exactly when its line is the first to bring the code. */
  lemma NewClientsOneMore(before: seq<Client>, ts: seq<Transaction>, t: Transaction)
    ensures var clients := before + NewClients(before, ts);
            before + NewClients(before, ts + [t])
            == if ClientId(clients, t.client.code) < |clients| then clients else clients + [t.client]
  {
    var n := |ts|;
    assert (ts + [t])[..n] == ts && (ts + [t])[n] == t;
    CodesAfterRegister(before, ts, t.client.code);
    assert forall i | 0 <= i < n :: (ts + [t])[i] == ts[i];
    assert before + (NewClients(before, ts) + [t.client]) == before + NewClients(before, ts) + [t.client];
  }

  /** Registering keeps the stored clients; a new code gets the fields of the first line that has it,
      nothing else is added, and every row refers to the client with the code of its line. */
  lemma {:induction false} RegisterEffect(s: Store, ts: seq<Transaction>)
    requires Consistent(s) && TransactionsOk(ts)
    ensures Register(s, ts).store == s.(clients := s.clients + NewClients(s.clients, ts))
    ensures Consistent(Register(s, ts).store)
    ensures RowsFor(Register(s, ts).rows, Register(s, ts).store.clients, ts)
  {
    if ts == [] {
      assert s.clients + [] == s.clients;
    } else {
      var init, t := ts[..|ts| - 1], ts[|ts| - 1];
      RegisterEffect(s, init);
      var r := Register(s, init);
      assert ts == init + [t];
      NewClientsOneMore(s.clients, init, t);
      ClientIdAppend(r.store.clients, t.client, t.client.code);
      ApplyKeepsConsistent(r.store, AddClient(t.client));
      RowsForOneMore(r.rows, r.store.clients, init, t, Register(s, ts));
    }
  }

  lemma RowsForOneMore(rows: seq<Row>, clients: seq<Client>, ts: seq<Transaction>, t: Transaction, next: Registration)
    requires RowsFor(rows, clients, ts)
    requires clients <= next.store.clients && ClientId(next.store.clients, t.client.code) < |next.store.clients|
    requires next.rows == rows + [Row(ClientId(next.store.clients, t.client.code), t.amount)]
    ensures RowsFor(next.rows, next.store.clients, ts + [t])
  {
  }

  lemma RowsForAreOk(rows: seq<Row>, clients: seq<Client>, ts: seq<Transaction>)
    requires RowsFor(rows, clients, ts) && TransactionsOk(ts)
    ensures RowsOk(clients, rows)
  {
  }

  predicate Uploaded(s: Store, ts: seq<Transaction>, period: nat, next: Store) {
    && next.periods == s.periods
    && next.clients == s.clients + NewClients(s.clients, ts)
    && (!IsOpen(s, period) ==> next.files == s.files)
    && (IsOpen(s, period) ==>
          && next.files != [] && next.files[..|next.files| - 1] == s.files
          && next.files[|s.files|].period == period
          && RowsFor(next.files[|s.files|].rows, next.clients, ts))
  }

  /** An upload is refused whole when a line is malformed; otherwise its clients are stored even
      when the period turns out to be missing or closed, and its rows exactly when it is open. */
  lemma UploadEffect(s: Store, lines: seq<string>, period: nat)
    requires Consistent(s)
    ensures Consistent(Upload(s, lines, period).0)
    ensures Upload(s, lines, period).1 == InvalidLine
            <==> exists i | 0 <= i < |lines| :: lines[i] != "" && !IsInputLine(lines[i])
    ensures Upload(s, lines, period).1 == Ok <==> ParseFile(lines).Some? && IsOpen(s, period)
    ensures Upload(s, lines, period).1 == ClosedPeriod <==> ParseFile(lines).Some? && IsClosed(s, period)
    ensures Upload(s, lines, period).1 == InvalidLine ==> Upload(s, lines, period).0 == s
    ensures ParseFile(lines).Some? ==>
              Uploaded(s, ParseFile(lines).value, period, Upload(s, lines, period).0)
  {
    ParsedAreOk(lines);
    if ParseFile(lines).Some? {
      var ts := ParseFile(lines).value;
      RegisterEffect(s, ts);
      var r := Register(s, ts);
      RowsForAreOk(r.rows, r.store.clients, ts);
      ApplyKeepsConsistent(r.store, AddFile(r.rows, period));
    }
  }

  // ----- What an upload adds, read off its lines -----

  /** The cents that the characters 25 to 33 of the line give to the client code at 6 to 14. */
  function LineAmount(line: string, code: string): nat {
    if |line| == 81 && line[6..15] == code && AllDigits(line[25..34]) then Weighted(line[25..34]) else 0
  }

  function LinesTotal(lines: seq<string>, code: string): nat {
    if lines == [] then 0 else LinesTotal(lines[..|lines| - 1], code) + LineAmount(lines[|lines| - 1], code)
  }

  function TransactionsTotal(ts: seq<Transaction>, code: string): nat {
    if ts == [] then 0
    else
      var last := ts[|ts| - 1];
      TransactionsTotal(ts[..|ts| - 1], code) + if last.client.code == code then last.amount else 0
  }

  lemma {:induction false} LinesTotalIsTransactionsTotal(lines: seq<string>, code: string)
    requires ParseFile(lines).Some?
    ensures LinesTotal(lines, code) == TransactionsTotal(ParseFile(lines).value, code)
  {
    if lines != [] {
      var init, line := lines[..|lines| - 1], lines[|lines| - 1];
      LinesTotalIsTransactionsTotal(init, code);
      if line != "" {
        InputLineLayout(line);
        var ts := ParseFile(lines).value;
        assert ts[..|ts| - 1] == ParseFile(init).value;
      }
    }
  }

  lemma {:induction false} RowsTotal(clients: seq<Client>, file: nat, rows: seq<Row>, ts: seq<Transaction>,
                                     code: string)
    requires RowsFor(rows, clients, ts) && RowsOk(clients, rows)
    ensures Total(FileItems(clients, file, rows), code) == TransactionsTotal(ts, code)
  {
    if ts != [] {
      var n := |ts| - 1;
      assert forall i | 0 <= i < n :: rows[..n][i] == rows[i] && ts[..n][i] == ts[i];
      RowsTotal(clients, file, rows[..n], ts[..n], code);
      assert FileItems(clients, file, rows)[..n] == FileItems(clients, file, rows[..n]);
    }
  }

  /** An accepted upload adds to each client code of its period the cents of the lines that have the code,
      and nothing to any other period. */
  lemma UploadAddsItsLines(s: Store, lines: seq<string>, period: nat, code: string)
    requires Consistent(s) && Upload(s, lines, period).1 == Ok
    ensures var next := Upload(s, lines, period).0;
            && Consistent(next)
            && Total(Items(next, period), code) == Total(Items(s, period), code) + LinesTotal(lines, code)
            && forall other: nat | other != period :: Items(next, other) == Items(s, other)
  {
    UploadEffect(s, lines, period);
    ParsedAreOk(lines);
    var (next, ts) := (Upload(s, lines, period).0, ParseFile(lines).value);
    var (n, more) := (|s.files|, NewClients(s.clients, ts));
    var f := next.files[n];
    assert next.files == s.files + [f];
    ItemsIgnoreNewClients(s.clients, more, s.files, period);
    ItemsWithNewFile(next.clients, s.files, f, period);
    TotalConcat(ItemsOf(next.clients, s.files, period), FileItems(next.clients, n, f.rows), code);
    RowsTotal(next.clients, n, f.rows, ts, code);
    LinesTotalIsTransactionsTotal(lines, code);
    forall other: nat | other != period ensures Items(next, other) == Items(s, other) {
      ItemsIgnoreNewClients(s.clients, more, s.files, other);
      ItemsWithNewFile(next.clients, s.files, f, other);
    }
  }
}
