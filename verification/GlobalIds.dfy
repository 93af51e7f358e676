/** A broker server's table from global ids to the pid of the response handler that serves them. */
module GlobalIds {
  import opened Messages

  datatype Entry = Entry(mtype: int, globalId: int)

  /** Position of the first entry for `g`, or -1. */
  function IndexOf(es: seq<Entry>, g: int): (i: int)
    ensures -1 <= i < |es|
    ensures 0 <= i ==> es[i].globalId == g && forall j | 0 <= j < i :: es[j].globalId != g
    ensures i < 0 ==> forall j | 0 <= j < |es| :: es[j].globalId != g
  {
    if es == [] then -1
    else if es[0].globalId == g then 0
    else var i := IndexOf(es[1..], g); if i < 0 then -1 else i + 1
  }

  function MtypeOf(es: seq<Entry>, g: int): int {
    var i := IndexOf(es, g);
    if i < 0 || es[i].mtype < 0 then NO_MTYPE_FOUND else es[i].mtype
  }

  predicate Has(es: seq<Entry>, g: int) {
    exists i | 0 <= i < |es| :: es[i].globalId == g
  }

  function Without(es: seq<Entry>, g: int): seq<Entry> {
    var i := IndexOf(es, g);
    if i < 0 then es else es[..i] + es[i + 1..]
  }

  predicate Injective(es: seq<Entry>) {
    forall i, j | 0 <= i < j < |es| :: es[i].globalId != es[j].globalId
  }

  /** Pids are positive. */
  predicate Routable(es: seq<Entry>) {
    forall i | 0 <= i < |es| :: es[i].mtype > 0
  }

  /** The first position of an id is determined by what precedes it. */
  lemma IndexIs(es: seq<Entry>, g: int, k: nat)
    requires k < |es| && es[k].globalId == g
    requires forall j | 0 <= j < k :: es[j].globalId != g
    ensures IndexOf(es, g) == k
  {
  }

  /** In an injective table a lookup finds exactly the entry that is there. */
  lemma LookupFindsEntry(es: seq<Entry>, k: nat)
    requires k < |es| && Injective(es) && Routable(es)
    ensures IndexOf(es, es[k].globalId) == k
    ensures MtypeOf(es, es[k].globalId) == es[k].mtype
  {
    IndexIs(es, es[k].globalId, k);
  }

  lemma MtypeIffHas(es: seq<Entry>, g: int)
    requires Routable(es)
    ensures Has(es, g) <==> MtypeOf(es, g) != NO_MTYPE_FOUND
    ensures Has(es, g) <==> MtypeOf(es, g) > 0
    ensures Has(es, g) <==> 0 <= IndexOf(es, g)
  {
    var i := IndexOf(es, g);
    if 0 <= i { assert es[i].globalId == g; }
  }

  /** Appending an entry changes the lookup of its own id only, and removing one undoes it. */
  lemma AppendLookup(es: seq<Entry>, e: Entry, g: int)
    requires !Has(es, e.globalId) && e.mtype > 0
    ensures MtypeOf(es + [e], g) == if g == e.globalId then e.mtype else MtypeOf(es, g)
    ensures Has(es + [e], g) <==> g == e.globalId || Has(es, g)
    ensures Injective(es) ==> Injective(es + [e])
    ensures Without(es + [e], e.globalId) == es
  {
    var k := IndexOf(es, g);
    if 0 <= k { IndexIs(es + [e], g, k); }
    IndexIs(es + [e], e.globalId, |es|);
    assert (es + [e])[|es|] == e;
    assert Has(es, g) ==> Has(es + [e], g) by {
      if i :| 0 <= i < |es| && es[i].globalId == g { assert (es + [e])[i] == es[i]; }
    }
    assert Without(es + [e], e.globalId) == es + [] == es;
  }

  lemma WithoutShifts(es: seq<Entry>, g: int)
    requires 0 <= IndexOf(es, g)
    ensures |Without(es, g)| == |es| - 1
    ensures forall k | 0 <= k < |es| - 1 :: Without(es, g)[k] == es[if k < IndexOf(es, g) then k else k + 1]
  {
  }

  /** Removing the entry of `g` from an injective table leaves no other entry of `g` behind. */
  lemma RemoveKeepsInjective(es: seq<Entry>, g: int)
    requires Injective(es)
    ensures Injective(Without(es, g)) && !Has(Without(es, g), g)
    ensures Routable(es) ==> Routable(Without(es, g))
  {
    if 0 <= IndexOf(es, g) { WithoutShifts(es, g); }
  }

  /** Removing the entry of `g` from an injective table unmaps `g` and keeps every other lookup. */
  lemma RemoveLookup(es: seq<Entry>, g: int, h: int)
    requires Injective(es)
    ensures MtypeOf(Without(es, g), h) == if h == g then NO_MTYPE_FOUND else MtypeOf(es, h)
    ensures Has(Without(es, g), h) <==> h != g && Has(es, h)
  {
    var p, i := IndexOf(es, g), IndexOf(es, h);
    HasIndex(es, h);
    HasIndex(Without(es, g), h);
    if 0 <= p {
      WithoutShifts(es, g);
      if h != g && 0 <= i {
        IndexIs(Without(es, g), h, if i < p then i else i - 1);
      }
    }
  }

  lemma HasIndex(es: seq<Entry>, g: int)
    ensures Has(es, g) <==> 0 <= IndexOf(es, g)
  {
    var i := IndexOf(es, g);
    if 0 <= i { assert es[i].globalId == g; }
  }

  /** The shared-memory table: a fixed array with a count of used entries. */
  class GlobalIdTable {
    var count: nat
    const ids: array<Entry>

    ghost predicate Valid()
      reads this
    {
      ids.Length == MAX_CLIENTS && count <= MAX_CLIENTS
    }

    ghost function Entries(): seq<Entry>
      requires Valid()
      reads this, ids
    {
      ids[..count]
    }

    constructor ()
      ensures Valid() && fresh(ids) && Entries() == []
    {
      ids := new Entry[MAX_CLIENTS](_ => Entry(0, 0));
      count := 0;
    }

    method AddGlobalId(globalId: int, mtype: int) returns (res: int)
      requires Valid()
      modifies this, ids
      ensures Valid()
      ensures old(count) == MAX_CLIENTS ==> res == -1 && Entries() == old(Entries())
      ensures old(count) < MAX_CLIENTS ==> res == globalId && Entries() == old(Entries()) + [Entry(mtype, globalId)]
    {
      if count >= MAX_CLIENTS {
        return -1;
      }
      ids[count] := Entry(mtype, globalId);
      count := count + 1;
      return globalId;
    }

    method GetMtype(globalId: int) returns (mtype: int)
      requires Valid()
      ensures mtype == MtypeOf(Entries(), globalId)
    {
      var found := -1;
      var i := 0;
      while i < count
        invariant 0 <= i <= count
        invariant found == -1
        invariant forall j | 0 <= j < i :: ids[j].globalId != globalId
      {
        if ids[i].globalId == globalId {
          found := ids[i].mtype;
          assert Entries()[i].globalId == globalId;
          break;
        }
        i := i + 1;
      }
      return if found < 0 then NO_MTYPE_FOUND else found;
    }

    /** Removes the first entry for `globalId` by shifting the later ones left. */
    method RemoveGlobalId(globalId: int) returns (pos: int)
      requires Valid()
      modifies this, ids
      ensures Valid()
      ensures pos == IndexOf(old(Entries()), globalId)
      ensures Entries() == Without(old(Entries()), globalId)
    {
      ghost var before := Entries();
      pos := -1;
      var i := 0;
      while i < count
        invariant 0 <= i <= count
        invariant pos == -1
        invariant forall j | 0 <= j < i :: ids[j].globalId != globalId
      {
        if ids[i].globalId == globalId {
          pos := i;
          break;
        }
        i := i + 1;
      }
      assert forall j | 0 <= j < count :: before[j] == ids[j];
      if pos >= 0 {
        i := pos + 1;
        while i < count
          invariant pos + 1 <= i <= count == |before|
          invariant forall j | 0 <= j < pos :: ids[j] == before[j]
          invariant forall j | pos <= j < i - 1 :: ids[j] == before[j + 1]
          invariant forall j | i - 1 <= j < count :: ids[j] == before[j]
        {
          ids[i - 1] := ids[i];
          i := i + 1;
        }
        count := count - 1;
        WithoutShifts(before, globalId);
      }
    }
  }
}
