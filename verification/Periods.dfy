/** What any run of data-access calls, in any interleaving of requests, does to a period. */
module Periods {
  import opened Options
  import opened Records
  import opened Books
  import opened Uploads

  function Run(s: Store, events: seq<Event>): Store {
    if events == [] then s else Apply(Run(s, events[..|events| - 1]), events[|events| - 1])
  }

  ghost predicate IsRun(s: Store, events: seq<Event>) {
    events == [] || (IsRun(s, events[..|events| - 1])
                     && IsEvent(Run(s, events[..|events| - 1]), events[|events| - 1]))
  }

  /** In every run a client code is stored once, and every transaction refers to a stored client and period. */
  lemma {:induction false} RunKeepsConsistent(s: Store, events: seq<Event>)
    requires Consistent(s) && IsRun(s, events)
    ensures Consistent(Run(s, events))
  {
    if events != [] {
      RunKeepsConsistent(s, events[..|events| - 1]);
      ApplyKeepsConsistent(Run(s, events[..|events| - 1]), events[|events| - 1]);
    }
  }

  /** One call keeps the stored clients, reopens nothing, and appends to a period at most, if it is open. */
  lemma ApplyEffect(s: Store, e: Event, period: nat)
    requires Consistent(s) && IsEvent(s, e) && period < |s.periods|
    ensures Consistent(Apply(s, e)) && period < |Apply(s, e).periods|
    ensures s.clients <= Apply(s, e).clients
    ensures IsClosed(s, period) ==> IsClosed(Apply(s, e), period)
    ensures IsClosed(s, period) ==> Items(Apply(s, e), period) == Items(s, period)
    ensures Items(s, period) <= Items(Apply(s, e), period)
  {
    ApplyKeepsConsistent(s, e);
    match e
    case AddPeriod =>
    case ClosePeriod(_) =>
    case AddClient(c) => ItemsIgnoreNewClients(s.clients, [c], s.files, period);
    case AddFile(rows, p) => if IsOpen(s, p) { ItemsWithNewFile(s.clients, s.files, InputFile(p, rows), period); }
  }

  /** A closed period stays closed and keeps its transactions, with their clients, for ever. */
  lemma {:induction false} ClosedPeriodsAreImmutable(s: Store, events: seq<Event>, period: nat)
    requires Consistent(s) && IsRun(s, events) && IsClosed(s, period)
    ensures Consistent(Run(s, events)) && IsClosed(Run(s, events), period)
    ensures Items(Run(s, events), period) == Items(s, period)
  {
    if events != [] {
      var n := |events| - 1;
      ClosedPeriodsAreImmutable(s, events[..n], period);
      ApplyEffect(Run(s, events[..n]), events[n], period);
    }
  }

  /** A period is open until a call closes this very period: nothing else closes it. */
  lemma {:induction false} ClosedExactlyByClosing(s: Store, events: seq<Event>, period: nat)
    requires Consistent(s) && IsRun(s, events) && IsOpen(s, period)
    ensures period < |Run(s, events).periods|
    ensures IsClosed(Run(s, events), period) <==> ClosePeriod(period) in events
  {
    if events != [] {
      var n := |events| - 1;
      ClosedExactlyByClosing(s, events[..n], period);
      RunKeepsConsistent(s, events[..n]);
      ApplyEffect(Run(s, events[..n]), events[n], period);
      assert events == events[..n] + [events[n]];
    }
  }

  /** In any period transactions are only ever appended, and a stored client never changes. */
  lemma {:induction false} PeriodsOnlyGrow(s: Store, events: seq<Event>, period: nat)
    requires Consistent(s) && IsRun(s, events) && period < |s.periods|
    ensures Consistent(Run(s, events)) && period < |Run(s, events).periods|
    ensures s.clients <= Run(s, events).clients
    ensures Items(s, period) <= Items(Run(s, events), period)
  {
    if events != [] {
      var n := |events| - 1;
      PeriodsOnlyGrow(s, events[..n], period);
      ApplyEffect(Run(s, events[..n]), events[n], period);
    }
  }

  // ----- Uploads are runs -----

  function RegisterEvents(ts: seq<Transaction>): seq<Event> {
    seq(|ts|, i requires 0 <= i < |ts| => AddClient(ts[i].client))
  }

  lemma {:induction false} RegisterIsRun(s: Store, ts: seq<Transaction>)
    requires TransactionsOk(ts)
    ensures Run(s, RegisterEvents(ts)) == Register(s, ts).store && IsRun(s, RegisterEvents(ts))
  {
    if ts != [] {
      var n := |ts| - 1;
      RegisterIsRun(s, ts[..n]);
      assert RegisterEvents(ts)[..n] == RegisterEvents(ts[..n]);
    }
  }

  /** The data-access calls of one upload: one for each line, then one for the file. */
  function UploadEvents(s: Store, lines: seq<string>, period: nat): seq<Event> {
    match ParseFile(lines)
    case None => []
    case Some(ts) => RegisterEvents(ts) + [AddFile(Register(s, ts).rows, period)]
  }

  /** An upload is the run of its calls, so what runs cannot do no upload does. */
  lemma UploadIsRun(s: Store, lines: seq<string>, period: nat)
    requires Consistent(s)
    ensures IsRun(s, UploadEvents(s, lines, period))
    ensures Run(s, UploadEvents(s, lines, period)) == Upload(s, lines, period).0
  {
    ParsedAreOk(lines);
    if ParseFile(lines).Some? {
      var ts := ParseFile(lines).value;
      RegisterIsRun(s, ts);
      RegisterEffect(s, ts);
      RowsForAreOk(Register(s, ts).rows, Register(s, ts).store.clients, ts);
      var events := UploadEvents(s, lines, period);
      assert events[..|events| - 1] == RegisterEvents(ts);
    }
  }
}
