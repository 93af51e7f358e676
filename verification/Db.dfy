/** The central database: one file of topics per user, one file of user ids per topic.
    Subscriptions are recorded in both; the two sides are linked at every single write. */
module Db {
  import opened Messages

  /** The files as sequences of lines. A topic's lines are read back as numbers. */
  datatype Files = Files(users: map<int, seq<Topic>>, topics: map<Topic, seq<int>>)

  function Times<T(==)>(lines: seq<T>, x: T): nat {
    multiset(lines)[x]
  }

  function LinesOf(f: Files, t: Topic): seq<int> {
    if t in f.topics then f.topics[t] else []
  }

  function TopicsOf(f: Files, u: int): seq<Topic> {
    if u in f.users then f.users[u] else []
  }

  /** How often the file of topic `t` lists user `u`. */
  function Listed(f: Files, t: Topic, u: int): nat {
    Times(LinesOf(f, t), u)
  }

  /** How often the file of user `u` lists topic `t`. */
  function Noted(f: Files, t: Topic, u: int): nat {
    Times(TopicsOf(f, u), t)
  }

  /** What a topic file says is backed by the user files, which name existing topic files only. */
  ghost predicate Linked(f: Files) {
    && (forall u | u in f.users :: u > 0)
    && (forall t, u :: Listed(f, t, u) <= Noted(f, t, u))
    && (forall t, u :: Noted(f, t, u) > 0 ==> t in f.topics)
  }

  /** Both sides record every subscription equally often. */
  ghost predicate Balanced(f: Files) {
    && Linked(f)
    && forall t, u :: Listed(f, t, u) == Noted(f, t, u)
  }

  /** An id in a topic file belongs to a user whose file lists the topic. */
  lemma ListedUserIsLive(f: Files, t: Topic, u: int)
    requires Linked(f) && u in LinesOf(f, t)
    ensures u in f.users && t in f.users[u] && u > 0
  {
    assert Listed(f, t, u) > 0;
    assert Noted(f, t, u) > 0;
  }

  /** The lines other than `id`, in order. */
  function Without(lines: seq<int>, id: int): seq<int> {
    if lines == [] then []
    else if lines[0] != id then [lines[0]] + Without(lines[1..], id)
    else Without(lines[1..], id)
  }

  function Created(f: Files, id: int): Files {
    f.(users := f.users[id := []])
  }

  function Subscribed(f: Files, id: int, t: Topic): Files
    requires id in f.users
  {
    Files(f.users[id := f.users[id] + [t]], f.topics[t := LinesOf(f, t) + [id]])
  }

  function Deleted(f: Files, id: int): Files {
    Files(f.users - {id}, map t | t in f.topics :: Without(f.topics[t], id))
  }

  /** One more than the largest id in use. */
  ghost predicate IsNextId(ids: set<int>, id: int) {
    && id >= 1
    && (forall u | u in ids :: u < id)
    && (id == 1 || id - 1 in ids)
  }

  lemma {:induction false} WithoutConcat(a: seq<int>, b: seq<int>, id: int)
    ensures Without(a + b, id) == Without(a, id) + Without(b, id)
  {
    if a == [] {
      assert a + b == b;
    } else {
      assert (a + b)[1..] == a[1..] + b;
      WithoutConcat(a[1..], b, id);
    }
  }

  lemma {:induction false} WithoutTimes(lines: seq<int>, id: int, x: int)
    ensures Times(Without(lines, id), x) == if x == id then 0 else Times(lines, x)
    ensures x in Without(lines, id) <==> x != id && x in lines
  {
    if lines != [] {
      assert lines == [lines[0]] + lines[1..];
      WithoutTimes(lines[1..], id, x);
    }
  }

  lemma {:induction false} WithoutAbsent(lines: seq<int>, id: int)
    requires id !in lines
    ensures Without(lines, id) == lines
  {
    if lines != [] {
      WithoutAbsent(lines[1..], id);
    }
  }

  lemma NotedTopicExists(f: Files, t: Topic, u: int)
    requires Linked(f) && t in TopicsOf(f, u)
    ensures t in f.topics
  {
    assert Noted(f, t, u) > 0;
  }

  /** A new id is positive, so never the next server's id 0, unused by any live user,
      and absent from every topic file even if the number had an earlier owner. */
  lemma NewIdIsClean(f: Files, id: int)
    requires Linked(f) && IsNextId(f.users.Keys, id)
    ensures id > NEXT_SERVER_GLOBAL_ID && id !in f.users
    ensures forall t :: id !in LinesOf(f, t)
    ensures Linked(Created(f, id))
    ensures Balanced(f) ==> Balanced(Created(f, id))
  {
    forall t ensures id !in LinesOf(f, t) {
      assert Listed(f, t, id) <= Noted(f, t, id);
    }
    forall t, u
      ensures Listed(Created(f, id), t, u) == Listed(f, t, u)
      ensures Noted(Created(f, id), t, u) == Noted(f, t, u)
    {
    }
  }

  lemma SubscribeEffect(f: Files, id: int, t: Topic, s: Topic, u: int)
    requires id in f.users
    ensures Listed(Subscribed(f, id, t), s, u) == Listed(f, s, u) + if s == t && u == id then 1 else 0
    ensures Noted(Subscribed(f, id, t), s, u) == Noted(f, s, u) + if s == t && u == id then 1 else 0
  {
  }

  lemma SubscribeKeepsIndex(f: Files, id: int, t: Topic)
    requires Linked(f) && id in f.users
    ensures Linked(Subscribed(f, id, t))
    ensures Balanced(f) ==> Balanced(Subscribed(f, id, t))
  {
    forall s, u {
      SubscribeEffect(f, id, t, s, u);
    }
  }

  lemma DeleteEffect(f: Files, id: int, t: Topic, u: int)
    ensures Listed(Deleted(f, id), t, u) == if u == id then 0 else Listed(f, t, u)
    ensures Noted(Deleted(f, id), t, u) == if u == id then 0 else Noted(f, t, u)
  {
    if t in f.topics { WithoutTimes(f.topics[t], id, u); }
  }

  /** Deleting a user takes exactly its own subscriptions out of every file. */
  lemma DeleteKeepsIndex(f: Files, id: int)
    requires Linked(f)
    ensures Linked(Deleted(f, id))
    ensures Balanced(f) ==> Balanced(Deleted(f, id))
    ensures forall t, u :: Listed(Deleted(f, id), t, u) == if u == id then 0 else Listed(f, t, u)
  {
    forall t, u {
      DeleteEffect(f, id, t, u);
    }
  }

  class Database {
    var users: map<int, seq<Topic>>
    var topics: map<Topic, seq<int>>
    ghost var trace: seq<Files>  // the files after every write
    ghost var faults: nat  // how many file operations failed

    ghost function Current(): Files
      reads this
    {
      Files(users, topics)
    }

    /** Every state the files went through is linked. */
    ghost predicate Valid()
      reads this
    {
      && |trace| > 0 && trace[|trace| - 1] == Current()
      && forall i | 0 <= i < |trace| :: Linked(trace[i])
    }

    /** Unless a file operation has failed, both sides record every subscription equally often. */
    ghost predicate InBalance()
      reads this
    {
      faults == 0 ==> Balanced(Current())
    }

    constructor ()
      ensures Valid() && InBalance() && Current() == Files(map[], map[])
    {
      users, topics := map[], map[];
      trace, faults := [Files(map[], map[])], 0;
    }

    /** A file operation may fail, in which case it changes no file. */
    method Attempt() returns (ok: bool)
      modifies this`faults
      ensures faults == old(faults) + if ok then 0 else 1
    {
      ok := *;
      if !ok {
        faults := faults + 1;
      }
    }

    /** A file operation that leaves the files in a linked state `f` if it succeeds. */
    method Write(f: Files) returns (ok: bool)
      requires Valid() && Linked(f)
      modifies this
      ensures Valid() && old(trace) <= trace
      ensures Current() == if ok then f else old(Current())
      ensures faults == old(faults) + if ok then 0 else 1
    {
      ok := Attempt();
      if ok {
        users, topics := f.users, f.topics;
        trace := trace + [f];
      }
    }

    method GetNextId() returns (id: int)
      requires Valid()
      modifies this`faults
      ensures id < 0 || IsNextId(users.Keys, id)
      ensures faults == old(faults) + if id < 0 then 1 else 0
    {
      var readable := Attempt();
      if !readable {
        return -1;
      }
      var max := LargestId(users.Keys);
      return max + 1;
    }

    /** Scans a directory of ids in whatever order it is listed; 0 if there is none. */
    static method LargestId(ids: set<int>) returns (max: int)
      ensures max >= 0 && (max == 0 || max in ids)
      ensures forall u | u in ids :: u <= max
    {
      max := 0;
      var unread := ids;
      while exists u :: u in unread
        invariant unread <= ids && max >= 0
        invariant max == 0 || max in ids
        invariant forall u | u in ids && u !in unread :: u <= max
        decreases unread
      {
        var u :| u in unread;
        if u > max {
          max := u;
        }
        unread := unread - {u};
      }
    }

    method AddUser() returns (id: int)
      requires Valid()
      modifies this
      ensures Valid() && old(trace) <= trace
      ensures id < 0 ==> Current() == old(Current()) && faults > old(faults)
      ensures id >= 0 ==> IsNextId(old(users.Keys), id) && Current() == Created(old(Current()), id)
      ensures faults >= old(faults) && (old(InBalance()) ==> InBalance())
    {
      id := GetNextId();
      if id < 0 {
        return;
      }
      NewIdIsClean(Current(), id);
      var ok := Write(Created(Files(users, topics), id));
      if !ok {
        return -1;
      }
    }

    /** Creates the topic file if there is none. */
    method EnsureTopic(t: Topic) returns (ok: bool)
      requires Valid()
      modifies this
      ensures Valid() && old(trace) <= trace && users == old(users)
      ensures ok ==> topics == old(topics)[t := LinesOf(old(Current()), t)]
      ensures !ok ==> topics == old(topics)
      ensures faults == old(faults) + if ok then 0 else 1
    {
      if t in topics {
        return true;
      }
      NewTopicKeepsIndex(Current(), t);
      ok := Write(Files(users, topics[t := []]));
    }

    /** Writes the user file before the topic file: failing half-way leaves the topic's subscribers as they were
        and at most an unused line in the file of `id`. */
    method Subscribe(id: int, t: Topic) returns (ok: bool)
      requires Valid()
      modifies this
      ensures Valid() && old(trace) <= trace
      ensures ok ==> id in old(users) && Current() == Subscribed(old(Current()), id, t)
      ensures !ok ==> forall s :: LinesOf(Current(), s) == LinesOf(old(Current()), s)
      ensures !ok ==> users == old(users)
                      || (id in old(users) && users == old(users)[id := old(users)[id] + [t]])
      ensures faults == old(faults) ==> (ok <==> id in old(users))
      ensures id !in old(users) ==> !ok && Current() == old(Current())
      ensures faults >= old(faults) && (old(InBalance()) ==> InBalance())
    {
      if id !in users {
        return false;
      }
      ok := EnsureTopic(t);
      if !ok {
        return;
      }
      UserLineKeepsIndex(Current(), id, t);
      ok := Write(Files(users[id := users[id] + [t]], topics));
      if !ok {
        return;
      }
      SubscribeKeepsIndex(old(Current()), id, t);
      assert Files(users, topics[t := topics[t] + [id]]) == Subscribed(old(Current()), id, t);
      ok := Write(Files(users, topics[t := topics[t] + [id]]));
    }

    method GetSubscribed(t: Topic) returns (ok: bool, subscribed: seq<int>)
      requires Valid()
      modifies this`faults
      ensures ok ==> subscribed == LinesOf(Current(), t)
      ensures faults == old(faults) ==> ok
    {
      subscribed := [];
      if t !in topics {
        return true, [];
      }
      ok := Attempt();
      if !ok {
        return;
      }
      var i := 0;
      while i < |topics[t]|
        invariant 0 <= i <= |topics[t]|
        invariant subscribed == topics[t][..i]
      {
        subscribed := subscribed + [topics[t][i]];
        i := i + 1;
      }
    }

    /** Copies the other lines to a temporary file and renames it over the topic file. */
    method Unsubscribe(id: int, t: Topic) returns (ok: bool)
      requires Valid() && id in users
      modifies this
      ensures Valid() && old(trace) <= trace && users == old(users)
      ensures ok ==> t in old(topics) && topics == old(topics)[t := Without(old(topics)[t], id)]
      ensures !ok ==> topics == old(topics)
      ensures ok ==> faults == old(faults)
      ensures faults >= old(faults) && (faults == old(faults) ==> (ok <==> t in old(topics)))
    {
      if t !in topics {
        return false;
      }
      ok := Attempt();
      if !ok {
        return;
      }
      ghost var lines := topics[t];
      var out := [];
      var i := 0;
      while i < |topics[t]|
        invariant topics == old(topics) && 0 <= i <= |lines|
        invariant users == old(users) && trace == old(trace) && Valid()
        invariant out == Without(lines[..i], id) && faults == old(faults)
      {
        var line := topics[t][i];
        assert lines[..i + 1] == lines[..i] + [line];
        WithoutConcat(lines[..i], [line], id);
        if line != id {
          ok := Attempt();
          if !ok {
            return;
          }
          out := out + [line];
        }
        i := i + 1;
      }
      assert lines[..i] == lines;
      UnsubscribeKeepsIndex(Current(), id, t);
      ok := Write(Files(users, topics[t := out]));
    }

    /** Empties the topic files that the user file of `id` lists, one by one. */
    method UnsubscribeAll(id: int) returns (ok: bool)
      requires Valid() && id in users
      modifies this
      ensures Valid() && old(trace) <= trace && users == old(users) && topics.Keys == old(topics.Keys)
      ensures forall t | t in topics :: Thinned(old(topics)[t], topics[t], id)
      ensures ok ==> forall t | t in topics && t in users[id] :: topics[t] == Without(old(topics)[t], id)
      ensures faults >= old(faults) && (faults == old(faults) <==> ok)
    {
      ghost var before := Current();
      var subscriptions := users[id];
      ok := true;
      var i := 0;
      while i < |subscriptions|
        invariant 0 <= i <= |subscriptions| && ok
        invariant Valid() && old(trace) <= trace && users == before.users && faults == old(faults)
        invariant topics.Keys == before.topics.Keys
        invariant forall t | t in topics :: Thinned(before.topics[t], topics[t], id)
        invariant forall j | 0 <= j < i && subscriptions[j] in topics ::
                    topics[subscriptions[j]] == Without(before.topics[subscriptions[j]], id)
      {
        var t := subscriptions[i];
        NotedTopicExists(Current(), t, id);
        WithoutTwice(before.topics[t], id);
        ok := Unsubscribe(id, t);
        if !ok {
          return;
        }
        i := i + 1;
      }
    }

    /** Unsubscribes from every topic and removes the user file last. */
    method Delete(id: int) returns (ok: bool)
      requires Valid()
      modifies this
      ensures Valid() && old(trace) <= trace
      ensures ok ==> id in old(users) && Current() == Deleted(old(Current()), id)
      ensures !ok ==> users == old(users) && topics.Keys == old(topics.Keys)
      ensures !ok ==> forall t | t in topics :: Thinned(old(topics)[t], topics[t], id)
      ensures faults == old(faults) ==> (ok <==> id in old(users))
      ensures id !in old(users) ==> !ok && Current() == old(Current())
      ensures faults >= old(faults) && (old(InBalance()) ==> InBalance())
    {
      if id !in users {
        return false;
      }
      ok := Attempt();
      if !ok {
        return;
      }
      ok := UnsubscribeAll(id);
      if !ok {
        return;
      }
      DeletedTopics(old(Current()), topics, id);
      DeleteKeepsIndex(old(Current()), id);
      ok := Write(Files(users - {id}, topics));
    }
  }

  lemma DeletedTopics(f: Files, topics: map<Topic, seq<int>>, id: int)
    requires Linked(f) && id in f.users && topics.Keys == f.topics.Keys
    requires forall t | t in topics :: Thinned(f.topics[t], topics[t], id)
    requires forall t | t in topics && t in f.users[id] :: topics[t] == Without(f.topics[t], id)
    ensures topics == Deleted(f, id).topics
  {
    forall t | t in topics ensures topics[t] == Without(f.topics[t], id) {
      if t !in f.users[id] { UnlistedAbsent(f, id, t); }
    }
  }

  /** Either nothing was removed yet or exactly the lines of `id` were. */
  predicate Thinned(before: seq<int>, after: seq<int>, id: int) {
    after == before || after == Without(before, id)
  }

  lemma UnsubscribeKeepsIndex(f: Files, id: int, t: Topic)
    requires Linked(f) && t in f.topics
    ensures Linked(f.(topics := f.topics[t := Without(f.topics[t], id)]))
  {
    var g := f.(topics := f.topics[t := Without(f.topics[t], id)]);
    forall s, u ensures Listed(g, s, u) <= Listed(f, s, u) && Noted(g, s, u) == Noted(f, s, u) {
      WithoutTimes(f.topics[t], id, u);
    }
  }

  lemma NewTopicKeepsIndex(f: Files, t: Topic)
    requires Linked(f) && t !in f.topics
    ensures Linked(f.(topics := f.topics[t := []]))
  {
    var g := f.(topics := f.topics[t := []]);
    forall s, u ensures Listed(g, s, u) == Listed(f, s, u) && Noted(g, s, u) == Noted(f, s, u) {
    }
  }

  lemma UserLineKeepsIndex(f: Files, id: int, t: Topic)
    requires Linked(f) && id in f.users && t in f.topics
    ensures Linked(f.(users := f.users[id := f.users[id] + [t]]))
  {
    var g := f.(users := f.users[id := f.users[id] + [t]]);
    forall s, u
      ensures Listed(g, s, u) == Listed(f, s, u)
      ensures Noted(g, s, u) == Noted(f, s, u) + if s == t && u == id then 1 else 0
    {
    }
  }

  lemma WithoutTwice(lines: seq<int>, id: int)
    ensures Without(Without(lines, id), id) == Without(lines, id)
  {
    WithoutTimes(lines, id, id);
    WithoutAbsent(Without(lines, id), id);
  }

  /** A topic file that the user file does not list does not mention the user. */
  lemma UnlistedAbsent(f: Files, id: int, t: Topic)
    requires Linked(f) && t in f.topics && t !in TopicsOf(f, id)
    ensures Without(f.topics[t], id) == f.topics[t]
  {
    assert Listed(f, t, id) <= Noted(f, t, id);
    WithoutAbsent(f.topics[t], id);
  }
}
