/** A broker node's table from its clients' pids to their global ids.
    An entry is pending, with global id 0, from the CREATE request until its acknowledgement. */
module LocalIds {
  import opened Messages

  datatype Entry = Entry(local: int, global: int)

  const PENDING := 0

  /** Position of the first entry with global id `g`, or -1. */
  function IndexOfGlobal(es: seq<Entry>, g: int): (i: int)
    ensures -1 <= i < |es|
    ensures 0 <= i ==> es[i].global == g && forall j | 0 <= j < i :: es[j].global != g
    ensures i < 0 ==> forall j | 0 <= j < |es| :: es[j].global != g
  {
    if es == [] then -1
    else if es[0].global == g then 0
    else var i := IndexOfGlobal(es[1..], g); if i < 0 then -1 else i + 1
  }

  /** Position of the first entry of client `l`, or -1. */
  function IndexOfLocal(es: seq<Entry>, l: int): (i: int)
    ensures -1 <= i < |es|
    ensures 0 <= i ==> es[i].local == l && forall j | 0 <= j < i :: es[j].local != l
    ensures i < 0 ==> forall j | 0 <= j < |es| :: es[j].local != l
  {
    if es == [] then -1
    else if es[0].local == l then 0
    else var i := IndexOfLocal(es[1..], l); if i < 0 then -1 else i + 1
  }

  predicate HasGlobal(es: seq<Entry>, g: int) {
    0 <= IndexOfGlobal(es, g)
  }

  predicate HasLocal(es: seq<Entry>, l: int) {
    0 <= IndexOfLocal(es, l)
  }

  function LocalOf(es: seq<Entry>, g: int): int {
    if HasGlobal(es, g) && es[IndexOfGlobal(es, g)].local >= 0 then es[IndexOfGlobal(es, g)].local else -1
  }

  function GlobalOf(es: seq<Entry>, l: int): int {
    if HasLocal(es, l) && es[IndexOfLocal(es, l)].global >= 0 then es[IndexOfLocal(es, l)].global else -1
  }

  function Assign(es: seq<Entry>, g: int): seq<Entry> {
    var i := IndexOfGlobal(es, PENDING);
    if i < 0 then es else es[i := es[i].(global := g)]
  }

  function Remove(es: seq<Entry>, l: int): seq<Entry> {
    var i := IndexOfLocal(es, l);
    if i < 0 then es else es[..i] + es[i + 1..]
  }

  /** The clients of the pending entries, oldest first. */
  function Pending(es: seq<Entry>): seq<int> {
    if es == [] then []
    else if es[0].global == PENDING then [es[0].local] + Pending(es[1..])
    else Pending(es[1..])
  }

  /** No two entries share an assigned global id. */
  predicate Injective(es: seq<Entry>) {
    forall i, j | 0 <= i < j < |es| && es[i].global == es[j].global :: es[i].global == PENDING
  }

  predicate PidsPositive(es: seq<Entry>) {
    forall i | 0 <= i < |es| :: es[i].local > 0 && es[i].global >= 0
  }

  lemma GlobalIndexIs(es: seq<Entry>, g: int, k: nat)
    requires k < |es| && es[k].global == g
    requires forall j | 0 <= j < k :: es[j].global != g
    ensures IndexOfGlobal(es, g) == k
  {
  }

  lemma LocalIndexIs(es: seq<Entry>, l: int, k: nat)
    requires k < |es| && es[k].local == l
    requires forall j | 0 <= j < k :: es[j].local != l
    ensures IndexOfLocal(es, l) == k
  {
  }

  lemma {:induction false} PendingConcat(a: seq<Entry>, b: seq<Entry>)
    ensures Pending(a + b) == Pending(a) + Pending(b)
  {
    if a == [] {
      assert a + b == b;
    } else {
      assert (a + b)[1..] == a[1..] + b;
      PendingConcat(a[1..], b);
    }
  }

  lemma {:induction false} PendingMembers(es: seq<Entry>, l: int)
    ensures l in Pending(es) <==> exists i | 0 <= i < |es| :: es[i] == Entry(l, PENDING)
  {
    if es != [] {
      PendingMembers(es[1..], l);
      if i :| 0 <= i < |es| && es[i] == Entry(l, PENDING) {
        if i > 0 { assert es[1..][i - 1] == es[i]; }
      }
      if l in Pending(es[1..]) {
        var i :| 0 <= i < |es[1..]| && es[1..][i] == Entry(l, PENDING);
        assert es[i + 1] == Entry(l, PENDING);
      }
    }
  }

  lemma {:induction false} NoPending(es: seq<Entry>)
    requires forall j | 0 <= j < |es| :: es[j].global != PENDING
    ensures Pending(es) == []
  {
    if es != [] { NoPending(es[1..]); }
  }

  lemma SplitAt(es: seq<Entry>, k: nat)
    requires k < |es|
    ensures es == es[..k] + [es[k]] + es[k + 1..]
  {
  }

  /** An assignment goes to the oldest pending client and to nobody else. */
  lemma AssignEffect(es: seq<Entry>, g: int)
    requires g > 0 && HasGlobal(es, PENDING) && PidsPositive(es)
    ensures Pending(es) != [] && LocalOf(es, PENDING) == Pending(es)[0]
    ensures Pending(Assign(es, g)) == Pending(es)[1..]
  {
    var i := IndexOfGlobal(es, PENDING);
    PendingAround(es[..i], es[i], es[i + 1..]);
    PendingAround(es[..i], es[i].(global := g), es[i + 1..]);
    SplitAt(es, i);
    SplitAt(Assign(es, g), i);
  }

  lemma PendingAround(a: seq<Entry>, e: Entry, b: seq<Entry>)
    requires forall j | 0 <= j < |a| :: a[j].global != PENDING
    ensures Pending(a + [e] + b) == (if e.global == PENDING then [e.local] else []) + Pending(b)
  {
    NoPending(a);
    PendingConcat(a, [e]);
    PendingConcat(a + [e], b);
  }

  /** A fresh id keeps the table injective and takes the oldest client off the pending list. */
  lemma AssignKeepsInjective(es: seq<Entry>, g: int)
    requires g > 0 && PidsPositive(es)
    ensures PidsPositive(Assign(es, g))
    ensures Injective(es) && !HasGlobal(es, g) ==> Injective(Assign(es, g))
    ensures HasGlobal(es, PENDING) ==> Pending(es) != [] && Pending(Assign(es, g)) == Pending(es)[1..]
  {
    if HasGlobal(es, PENDING) { AssignEffect(es, g); }
  }

  /** The id goes to the oldest pending client; every other client, pending or not, keeps what it has. */
  lemma AssignLookup(es: seq<Entry>, g: int, h: int, l: int)
    requires g > 0 && h > 0 && HasGlobal(es, PENDING) && PidsPositive(es) && !HasGlobal(es, g)
    ensures HasGlobal(Assign(es, g), h) <==> h == g || HasGlobal(es, h)
    ensures LocalOf(Assign(es, g), h) == if h == g then LocalOf(es, PENDING) else LocalOf(es, h)
    ensures HasLocal(Assign(es, g), l) <==> HasLocal(es, l)
    ensures GlobalOf(Assign(es, g), l)
         == if GlobalOf(es, l) == PENDING && l == LocalOf(es, PENDING) then g else GlobalOf(es, l)
  {
    var p, after := IndexOfGlobal(es, PENDING), Assign(es, g);
    GlobalIndexIs(after, g, p);
    if h != g && HasGlobal(es, h) { GlobalIndexIs(after, h, IndexOfGlobal(es, h)); }
    if HasLocal(es, l) { LocalIndexIs(after, l, IndexOfLocal(es, l)); }
  }

  /** Removing a client whose first entry is assigned frees that id only. */
  lemma RemoveEffect(es: seq<Entry>, l: int)
    requires GlobalOf(es, l) > 0 && PidsPositive(es)
    ensures Pending(Remove(es, l)) == Pending(es)
    ensures PidsPositive(Remove(es, l))
    ensures Injective(es) ==> Injective(Remove(es, l))
  {
    var i := IndexOfLocal(es, l);
    SplitAt(es, i);
    PendingConcat(es[..i], [es[i]]);
    PendingConcat(es[..i] + [es[i]], es[i + 1..]);
    PendingConcat(es[..i], es[i + 1..]);
    assert Pending([es[i]]) == [];
    RemoveShifts(es, l);
  }

  lemma RemoveShifts(es: seq<Entry>, l: int)
    requires HasLocal(es, l)
    ensures forall k | 0 <= k < |Remove(es, l)| ::
              Remove(es, l)[k] == es[if k < IndexOfLocal(es, l) then k else k + 1]
  {
  }

  lemma RemoveLookupGlobal(es: seq<Entry>, l: int, h: int)
    requires GlobalOf(es, l) > 0 && h > 0 && Injective(es) && PidsPositive(es)
    ensures HasGlobal(Remove(es, l), h) <==> h != GlobalOf(es, l) && HasGlobal(es, h)
    ensures h != GlobalOf(es, l) ==> LocalOf(Remove(es, l), h) == LocalOf(es, h)
  {
    var p, after := IndexOfLocal(es, l), Remove(es, l);
    RemoveShifts(es, l);
    if HasGlobal(es, h) {
      var i := IndexOfGlobal(es, h);
      if h != GlobalOf(es, l) {
        GlobalIndexIs(after, h, if i < p then i else i - 1);
      } else {
        GlobalIndexIs(es, h, p);
        assert forall k | 0 <= k < |after| :: after[k].global != h;
      }
    }
  }

  lemma RemoveLookupLocal(es: seq<Entry>, l: int, m: int)
    requires HasLocal(es, l) && m != l
    ensures GlobalOf(Remove(es, l), m) == GlobalOf(es, m)
  {
    RemoveShifts(es, l);
    if HasLocal(es, m) {
      var i, p := IndexOfLocal(es, m), IndexOfLocal(es, l);
      LocalIndexIs(Remove(es, l), m, if i < p then i else i - 1);
    }
  }

  lemma AppendEffect(es: seq<Entry>, l: int)
    requires PidsPositive(es) && l > 0
    ensures Pending(es + [Entry(l, PENDING)]) == Pending(es) + [l]
    ensures PidsPositive(es + [Entry(l, PENDING)])
    ensures Injective(es) ==> Injective(es + [Entry(l, PENDING)])
  {
    PendingConcat(es, [Entry(l, PENDING)]);
  }

  lemma AppendLookup(es: seq<Entry>, l: int, h: int, m: int)
    requires h > 0
    ensures HasGlobal(es + [Entry(l, PENDING)], h) <==> HasGlobal(es, h)
    ensures HasGlobal(es, PENDING) ==>
              IndexOfGlobal(es + [Entry(l, PENDING)], PENDING) == IndexOfGlobal(es, PENDING)
    ensures LocalOf(es + [Entry(l, PENDING)], h) == LocalOf(es, h)
    ensures HasLocal(es, m) ==>
              && IndexOfLocal(es + [Entry(l, PENDING)], m) == IndexOfLocal(es, m)
              && GlobalOf(es + [Entry(l, PENDING)], m) == GlobalOf(es, m)
  {
    var after := es + [Entry(l, PENDING)];
    if HasGlobal(es, h) { GlobalIndexIs(after, h, IndexOfGlobal(es, h)); }
    if HasGlobal(es, PENDING) { GlobalIndexIs(after, PENDING, IndexOfGlobal(es, PENDING)); }
    if HasLocal(es, m) { LocalIndexIs(after, m, IndexOfLocal(es, m)); }
  }

  /** In an injective table the id of a client's first entry leads back to that client. */
  lemma RoundTrip(es: seq<Entry>, l: int)
    requires Injective(es) && PidsPositive(es) && GlobalOf(es, l) > 0
    ensures HasGlobal(es, GlobalOf(es, l)) && LocalOf(es, GlobalOf(es, l)) == l
  {
    var k := IndexOfLocal(es, l);
    GlobalIndexIs(es, es[k].global, k);
  }

  /** The shared-memory table: a fixed array with a count of used entries, and its semaphore.
      An operation on a table whose semaphore is held never returns. */
  class LocalIdTable {
    var count: nat
    var held: bool
    const ids: array<Entry>

    ghost predicate Valid()
      reads this
    {
      ids.Length == MAX_LOCAL_CLIENTS && count <= MAX_LOCAL_CLIENTS
    }

    ghost function Entries(): seq<Entry>
      requires Valid()
      reads this, ids
    {
      ids[..count]
    }

    constructor ()
      ensures Valid() && fresh(ids) && !held && Entries() == []
    {
      ids := new Entry[MAX_LOCAL_CLIENTS](_ => Entry(0, 0));
      count := 0;
      held := false;
    }

    /** Appends a pending entry. On a full table it fails and leaves the semaphore held for good. */
    method AddLocalId(localId: int) returns (ok: bool)
      requires Valid() && !held
      modifies this, ids
      ensures Valid()
      ensures ok <==> old(count) < MAX_LOCAL_CLIENTS
      ensures ok <==> !held
      ensures Entries() == old(Entries()) + if ok then [Entry(localId, PENDING)] else []
    {
      held := true;
      if count >= MAX_LOCAL_CLIENTS {
        return false;
      }
      ids[count] := Entry(localId, PENDING);
      count := count + 1;
      held := false;
      return true;
    }

    /** Gives `globalId` to the oldest pending client and returns that client, or -1 if none is pending. */
    method SetGlobalId(globalId: int) returns (localId: int)
      requires Valid() && !held
      modifies ids
      ensures Valid()
      ensures localId == old(LocalOf(Entries(), PENDING))
      ensures Entries() == Assign(old(Entries()), globalId)
    {
      ghost var before := Entries();
      localId := -1;
      var i := 0;
      while i < count
        invariant 0 <= i <= count
        invariant localId == -1 && Entries() == before
        invariant forall j | 0 <= j < i :: before[j].global != PENDING
      {
        if ids[i].global == PENDING {
          GlobalIndexIs(before, PENDING, i);
          localId := ids[i].local;
          ids[i] := Entry(ids[i].local, globalId);
          assert Entries() == Assign(before, globalId);
          break;
        }
        i := i + 1;
      }
      return if localId < 0 then -1 else localId;
    }

    method GetGlobalId(localId: int) returns (globalId: int)
      requires Valid() && !held
      ensures globalId == GlobalOf(Entries(), localId)
    {
      var found := -1;
      var i := 0;
      while i < count
        invariant 0 <= i <= count && found == -1
        invariant forall j | 0 <= j < i :: ids[j].local != localId
      {
        if ids[i].local == localId {
          found := ids[i].global;
          LocalIndexIs(Entries(), localId, i);
          break;
        }
        i := i + 1;
      }
      return if found < 0 then -1 else found;
    }

    method GetLocalId(globalId: int) returns (localId: int)
      requires Valid() && !held
      ensures localId == LocalOf(Entries(), globalId)
    {
      var found := -1;
      var i := 0;
      while i < count
        invariant 0 <= i <= count && found == -1
        invariant forall j | 0 <= j < i :: ids[j].global != globalId
      {
        if ids[i].global == globalId {
          found := ids[i].local;
          GlobalIndexIs(Entries(), globalId, i);
          break;
        }
        i := i + 1;
      }
      return if found < 0 then -1 else found;
    }

    method LocalIdExists(localId: int) returns (exists': bool)
      requires Valid() && !held
      ensures exists' <==> HasLocal(Entries(), localId) && localId >= 0
    {
      var found := -1;
      var i := 0;
      while i < count
        invariant 0 <= i <= count && found == -1
        invariant forall j | 0 <= j < i :: ids[j].local != localId
      {
        if ids[i].local == localId {
          found := ids[i].local;
          LocalIndexIs(Entries(), localId, i);
          break;
        }
        i := i + 1;
      }
      return found >= 0;
    }

    /** Removes the first entry of `localId` by shifting the later ones left. */
    method RemoveId(localId: int) returns (pos: int)
      requires Valid() && !held
      modifies this`count, ids
      ensures Valid()
      ensures pos == IndexOfLocal(old(Entries()), localId)
      ensures Entries() == Remove(old(Entries()), localId)
    {
      ghost var before := Entries();
      pos := -1;
      var i := 0;
      while i < count
        invariant 0 <= i <= count && pos == -1
        invariant forall j | 0 <= j < i :: ids[j].local != localId
      {
        if ids[i].local == localId {
          pos := i;
          break;
        }
        i := i + 1;
      }
      assert forall j | 0 <= j < count :: before[j] == ids[j];
      if pos >= 0 {
        i := pos + 1;
        while i < count
          invariant pos + 1 <= i <= count == |before|
          invariant forall j | 0 <= j < pos :: ids[j] == before[j]
          invariant forall j | pos <= j < i - 1 :: ids[j] == before[j + 1]
          invariant forall j | i - 1 <= j < count :: ids[j] == before[j]
        {
          ids[i - 1] := ids[i];
          i := i + 1;
        }
        count := count - 1;
        RemoveShifts(before, localId);
      }
    }
  }
}
