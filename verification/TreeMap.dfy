/** A map from strings kept as a binary search tree of heap nodes, greater keys on the left. */
module TreeMap {

  /** Negative, zero or positive as `a` comes before, is, or comes after `b` in dictionary order. */
  function Compare(a: string, b: string): int {
    if a == "" && b == "" then 0
    else if a == "" then -1
    else if b == "" then 1
    else if a[0] != b[0] then a[0] as int - b[0] as int
    else Compare(a[1..], b[1..])
  }

  lemma {:induction false} CompareZero(a: string, b: string)
    ensures Compare(a, b) == 0 <==> a == b
  {
    if a != "" && b != "" && a[0] == b[0] {
      CompareZero(a[1..], b[1..]);
      assert a == [a[0]] + a[1..] && b == [b[0]] + b[1..];
    }
  }

  lemma {:induction false} CompareTransitive(a: string, b: string, c: string)
    requires Compare(a, b) < 0 && Compare(b, c) < 0
    ensures Compare(a, c) < 0
  {
    if a != "" && b != "" && c != "" && a[0] == b[0] == c[0] {
      CompareTransitive(a[1..], b[1..], c[1..]);
    }
  }

  lemma {:induction false} CompareReverse(a: string, b: string)
    ensures Compare(a, b) == -Compare(b, a)
  {
    if a != "" && b != "" && a[0] == b[0] {
      CompareReverse(a[1..], b[1..]);
    }
  }

  class Node<V> {
    const key: string
    var value: V
    var left: Node?<V>
    var right: Node?<V>

    constructor (key: string, value: V)
      ensures this.key == key && this.value == value && left == null && right == null
    {
      this.key, this.value, left, right := key, value, null, null;
    }
  }

  /** What the nodes hold: the abstract value of a linked tree. */
  datatype Tree<V> = Empty | Branch(node: Node<V>, value: V, left: Tree<V>, right: Tree<V>)

  ghost function Nodes<V>(t: Tree<V>): set<object> {
    match t
    case Empty => {}
    case Branch(n, _, l, r) => {n} + Nodes(l) + Nodes(r)
  }

  ghost function Keys<V>(t: Tree<V>): set<string> {
    match t
    case Empty => {}
    case Branch(n, _, l, r) => {n.key} + Keys(l) + Keys(r)
  }

  /** No node occurs twice. */
  ghost predicate Separate<V>(t: Tree<V>) {
    match t
    case Empty => true
    case Branch(n, _, l, r) =>
      n !in Nodes(l) && n !in Nodes(r) && Nodes(l) !! Nodes(r) && Separate(l) && Separate(r)
  }

  ghost predicate Ordered<V>(t: Tree<V>) {
    match t
    case Empty => true
    case Branch(n, _, l, r) =>
      && (forall k | k in Keys(l) :: Compare(n.key, k) < 0)
      && (forall k | k in Keys(r) :: Compare(n.key, k) > 0)
      && Ordered(l) && Ordered(r)
  }

  /** The linked nodes from `n` on are this tree. */
  ghost predicate Linked<V>(n: Node?<V>, t: Tree<V>)
    reads Nodes(t)
    decreases t
  {
    match t
    case Empty => n == null
    case Branch(o, v, l, r) => n == o && o.value == v && Linked(o.left, l) && Linked(o.right, r)
  }

  /** The map that a tree stands for. */
  ghost function Contents<V>(t: Tree<V>): map<string, V> {
    match t
    case Empty => map[]
    case Branch(n, v, l, r) => Contents(l) + Contents(r) + map[n.key := v]
  }

  ghost function Size<V>(t: Tree<V>): nat {
    match t
    case Empty => 0
    case Branch(_, _, l, r) => 1 + Size(l) + Size(r)
  }

  lemma {:induction false} ContentsKeys<V>(t: Tree<V>)
    ensures Contents(t).Keys == Keys(t)
  {
    if t.Branch? {
      ContentsKeys(t.left);
      ContentsKeys(t.right);
    }
  }

  /** An ordered tree has as many nodes as its map has keys. */
  lemma {:induction false} SizeIsNumberOfKeys<V>(t: Tree<V>)
    requires Ordered(t)
    ensures Size(t) == |Keys(t)| == |Contents(t)|
  {
    ContentsKeys(t);
    if t.Branch? {
      SizeIsNumberOfKeys(t.left);
      SizeIsNumberOfKeys(t.right);
      CompareZero(t.node.key, t.node.key);
      assert t.node.key !in Keys(t.left) && t.node.key !in Keys(t.right) && Keys(t.left) !! Keys(t.right);
      assert |Keys(t)| == |{t.node.key} + Keys(t.left)| + |Keys(t.right)|;
      assert |{t.node.key} + Keys(t.left)| == 1 + |Keys(t.left)|;
    }
    assert |Contents(t)| == |Contents(t).Keys|;
  }

  // ----- Searching -----

  ghost function Find<V>(t: Tree<V>, key: string): Tree<V> {
    match t
    case Empty => Empty
    case Branch(n, _, l, r) =>
      var result := Compare(n.key, key);
      if result == 0 then t else if result < 0 then Find(l, key) else Find(r, key)
  }

  /** Searching finds a key exactly when the map has it, with its value. */
  lemma {:induction false} FindIsLookup<V>(t: Tree<V>, key: string)
    requires Ordered(t)
    ensures Find(t, key).Branch? <==> key in Contents(t)
    ensures Find(t, key).Branch? ==> Find(t, key).node.key == key && Find(t, key).value == Contents(t)[key]
    ensures Find(t, key).Branch? ==> Find(t, key).node in Nodes(t)
  {
    if t.Branch? {
      CompareZero(t.node.key, key);
      ContentsKeys(t.left);
      ContentsKeys(t.right);
      if Compare(t.node.key, key) < 0 {
        FindIsLookup(t.left, key);
      } else if Compare(t.node.key, key) > 0 {
        FindIsLookup(t.right, key);
      }
    }
  }

  // ----- Updating -----

  /** The tree with the value of the node that a search for `key` finds replaced. */
  ghost function Updated<V>(t: Tree<V>, key: string, value: V): Tree<V> {
    match t
    case Empty => Empty
    case Branch(n, v, l, r) =>
      var result := Compare(n.key, key);
      if result == 0 then Branch(n, value, l, r)
      else if result < 0 then Branch(n, v, Updated(l, key, value), r)
      else Branch(n, v, l, Updated(r, key, value))
  }

  /** The tree with a new leaf where a search for its key ends. */
  ghost function Inserted<V>(t: Tree<V>, node: Node<V>, value: V): Tree<V> {
    match t
    case Empty => Branch(node, value, Empty, Empty)
    case Branch(n, v, l, r) =>
      if Compare(n.key, node.key) < 0 then Branch(n, v, Inserted(l, node, value), r)
      else Branch(n, v, l, Inserted(r, node, value))
  }

  lemma SetInFirst<V>(a: map<string, V>, b: map<string, V>, c: map<string, V>, key: string, value: V)
    requires key !in b && key !in c
    ensures a[key := value] + b + c == (a + b + c)[key := value]
  {
  }

  lemma SetInSecond<V>(a: map<string, V>, b: map<string, V>, c: map<string, V>, key: string, value: V)
    requires key !in c
    ensures a + b[key := value] + c == (a + b + c)[key := value]
  {
  }

  /** Keys on the other side of a node differ from a key that is sought on this side. */
  lemma OtherSide<V>(t: Tree<V>, key: string)
    requires Ordered(t) && t.Branch?
    ensures Compare(t.node.key, key) < 0 ==> key !in Contents(t.right)
    ensures Compare(t.node.key, key) > 0 ==> key !in Contents(t.left)
    ensures Compare(t.node.key, key) == 0 <==> t.node.key == key
  {
    CompareZero(t.node.key, key);
    ContentsKeys(t.left);
    ContentsKeys(t.right);
  }

  lemma {:induction false} UpdatedShape<V>(t: Tree<V>, key: string, value: V)
    ensures var u := Updated(t, key, value);
            && Keys(u) == Keys(t) && Nodes(u) == Nodes(t) && Size(u) == Size(t)
            && (Ordered(t) ==> Ordered(u)) && (Separate(t) ==> Separate(u))
  {
    if t.Branch? {
      UpdatedShape(t.left, key, value);
      UpdatedShape(t.right, key, value);
    }
  }

  /** Replacing a value changes what this one key stands for. */
  lemma {:induction false} UpdatedContents<V>(t: Tree<V>, key: string, value: V)
    requires Ordered(t) && key in Contents(t)
    ensures Contents(Updated(t, key, value)) == Contents(t)[key := value]
  {
    OtherSide(t, key);
    var l, r, own := Contents(t.left), Contents(t.right), map[t.node.key := t.value];
    if Compare(t.node.key, key) < 0 {
      assert key in l;
      UpdatedContents(t.left, key, value);
      SetInFirst(l, r, own, key, value);
    } else if Compare(t.node.key, key) > 0 {
      assert key in r;
      UpdatedContents(t.right, key, value);
      SetInSecond(l, r, own, key, value);
    } else {
      SetOwn(l + r, t.node.key, t.value, value);
    }
  }

  lemma SetOwn<V>(a: map<string, V>, key: string, before: V, value: V)
    ensures a + map[key := value] == (a + map[key := before])[key := value]
  {
  }

  lemma {:induction false} InsertedShape<V>(t: Tree<V>, node: Node<V>, value: V)
    ensures var u := Inserted(t, node, value);
            && Keys(u) == Keys(t) + {node.key} && Nodes(u) == Nodes(t) + {node} && Size(u) == Size(t) + 1
            && (Separate(t) && node !in Nodes(t) ==> Separate(u))
  {
    if t.Branch? {
      InsertedShape(t.left, node, value);
      InsertedShape(t.right, node, value);
    }
  }

  /** A new leaf adds its key and nothing else, and keeps the order. */
  lemma {:induction false} InsertedContents<V>(t: Tree<V>, node: Node<V>, value: V)
    requires Ordered(t) && node.key !in Contents(t)
    ensures Contents(Inserted(t, node, value)) == Contents(t)[node.key := value]
    ensures Ordered(Inserted(t, node, value))
  {
    if t.Branch? {
      OtherSide(t, node.key);
      var l, r, own := Contents(t.left), Contents(t.right), map[t.node.key := t.value];
      if Compare(t.node.key, node.key) < 0 {
        InsertedContents(t.left, node, value);
        InsertedShape(t.left, node, value);
        SetInFirst(l, r, own, node.key, value);
      } else {
        InsertedContents(t.right, node, value);
        InsertedShape(t.right, node, value);
        SetInSecond(l, r, own, node.key, value);
      }
    }
  }

  lemma InsertedEffect<V>(t: Tree<V>, node: Node<V>, value: V)
    requires Ordered(t) && Separate(t) && node !in Nodes(t) && node.key !in Contents(t)
    ensures var u := Inserted(t, node, value);
            && Contents(u) == Contents(t)[node.key := value]
            && Ordered(u) && Separate(u) && Nodes(u) == Nodes(t) + {node} && Size(u) == Size(t) + 1
  {
    InsertedShape(t, node, value);
    InsertedContents(t, node, value);
  }

  /** The keys from left to right. */
  ghost function InOrder<V>(t: Tree<V>): seq<string> {
    match t
    case Empty => []
    case Branch(n, _, l, r) => InOrder(l) + [n.key] + InOrder(r)
  }

  /** Read from left to right, the keys come in strictly descending order. */
  lemma {:induction false} InOrderDescends<V>(t: Tree<V>)
    requires Ordered(t)
    ensures forall i | 0 <= i < |InOrder(t)| :: InOrder(t)[i] in Keys(t)
    ensures forall i, j | 0 <= i < j < |InOrder(t)| :: Compare(InOrder(t)[i], InOrder(t)[j]) > 0
  {
    if t.Branch? {
      InOrderDescends(t.left);
      InOrderDescends(t.right);
      var l, r, k := InOrder(t.left), InOrder(t.right), t.node.key;
      forall i, j | 0 <= i < |l| && 0 <= j < |r|
        ensures Compare(l[i], r[j]) > 0 && Compare(l[i], k) > 0
      {
        CompareReverse(l[i], k);
        CompareReverse(k, r[j]);
        CompareReverse(l[i], r[j]);
        CompareTransitive(r[j], k, l[i]);
      }
      forall i | 0 <= i < |l| ensures Compare(l[i], k) > 0 {
        CompareReverse(l[i], k);
      }
    }
  }

  // ----- A place in a tree -----

  /** A tree with a hole, seen from the hole upwards. */
  datatype Context<V> =
    | Top
    | LeftOf(node: Node<V>, value: V, other: Tree<V>, up: Context<V>)
    | RightOf(node: Node<V>, value: V, other: Tree<V>, up: Context<V>)

  /** The tree with the hole filled. */
  ghost function Plug<V>(c: Context<V>, t: Tree<V>): Tree<V>
    decreases c
  {
    match c
    case Top => t
    case LeftOf(n, v, other, up) => Plug(up, Branch(n, v, t, other))
    case RightOf(n, v, other, up) => Plug(up, Branch(n, v, other, t))
  }

  ghost function Around<V>(c: Context<V>): set<object> {
    if c.Top? then {} else {c.node} + Nodes(c.other) + Around(c.up)
  }

  ghost predicate Apart<V>(c: Context<V>) {
    c.Top? || (c.node !in Nodes(c.other) && c.node !in Around(c.up) && Nodes(c.other) !! Around(c.up)
               && Separate(c.other) && Apart(c.up))
  }

  ghost function Pointer<V>(t: Tree<V>): Node?<V> {
    if t.Empty? then null else t.node
  }

  /** The nodes from `root` on are this context, with `hole` where the hole is. */
  ghost predicate LinkedAround<V>(root: Node?<V>, c: Context<V>, hole: Node?<V>)
    reads Around(c)
    decreases c
  {
    match c
    case Top => root == hole
    case LeftOf(n, v, other, up) =>
      n.value == v && n.left == hole && Linked(n.right, other) && LinkedAround(root, up, n)
    case RightOf(n, v, other, up) =>
      n.value == v && n.right == hole && Linked(n.left, other) && LinkedAround(root, up, n)
  }

  lemma {:induction false} PlugNodes<V>(c: Context<V>, t: Tree<V>)
    ensures Nodes(Plug(c, t)) == Around(c) + Nodes(t)
    ensures Separate(Plug(c, t)) <==> Apart(c) && Separate(t) && Around(c) !! Nodes(t)
    decreases c
  {
    match c
    case Top =>
    case LeftOf(n, v, other, up) => PlugNodes(up, Branch(n, v, t, other));
    case RightOf(n, v, other, up) => PlugNodes(up, Branch(n, v, other, t));
  }

  /** The whole tree is linked exactly when its parts are. */
  lemma {:induction false} PlugLinked<V>(root: Node?<V>, c: Context<V>, t: Tree<V>)
    ensures Linked(root, Plug(c, t)) <==> LinkedAround(root, c, Pointer(t)) && Linked(Pointer(t), t)
    decreases c
  {
    match c
    case Top =>
    case LeftOf(n, v, other, up) => PlugLinked(root, up, Branch(n, v, t, other));
    case RightOf(n, v, other, up) => PlugLinked(root, up, Branch(n, v, other, t));
  }

  // ----- The map -----

  function FindNode<V>(node: Node?<V>, key: string, ghost t: Tree<V>): (found: Node?<V>)
    requires Linked(node, t)
    reads Nodes(t)
    ensures found == Pointer(Find(t, key))
    ensures Linked(found, Find(t, key))
    decreases t
  {
    if node == null then null
    else
      var result := Compare(node.key, key);
      if result == 0 then node
      else if result < 0 then FindNode(node.left, key, t.left)
      else FindNode(node.right, key, t.right)
  }

  /** Where a search for `key` ends in `t`, itself at the place `c` of a larger tree. */
  ghost function PathTo<V>(c: Context<V>, t: Tree<V>, key: string): Context<V>
    decreases t
  {
    match t
    case Empty => c
    case Branch(n, v, l, r) =>
      var result := Compare(n.key, key);
      if result == 0 then c
      else if result < 0 then PathTo(LeftOf(n, v, r, c), l, key)
      else PathTo(RightOf(n, v, l, c), r, key)
  }

  lemma {:induction false} PathEffect<V>(c: Context<V>, t: Tree<V>, key: string, value: V)
    ensures Plug(PathTo(c, t, key), Find(t, key)) == Plug(c, t)
    ensures Plug(PathTo(c, t, key), Updated(Find(t, key), key, value)) == Plug(c, Updated(t, key, value))
    decreases t
  {
    if t.Branch? {
      var result := Compare(t.node.key, key);
      if result < 0 {
        PathEffect(LeftOf(t.node, t.value, t.right, c), t.left, key, value);
      } else if result > 0 {
        PathEffect(RightOf(t.node, t.value, t.left, c), t.right, key, value);
      }
    }
  }

  class Map<V> {
    var logicalLength: nat
    var root: Node?<V>
    ghost var tree: Tree<V>
    ghost var Repr: set<object>

    ghost predicate Valid()
      reads this, Repr
    {
      && Nodes(tree) == Repr && this !in Repr
      && Linked(root, tree) && Separate(tree) && Ordered(tree)
      && logicalLength == Size(tree)
    }

    constructor ()
      ensures Valid() && Repr == {} && Contents(tree) == map[]
    {
      logicalLength, root, tree, Repr := 0, null, Empty, {};
    }

    method ContainsKey(key: string) returns (b: bool)
      requires Valid()
      ensures b <==> key in Contents(tree)
    {
      FindIsLookup(tree, key);
      var node := FindNode(root, key, tree);
      b := node != null;
    }

    /** Stores a value for a key, over the one there was if any; no other key changes. */
    method Set(key: string, element: V)
      requires Valid()
      modifies this, Repr
      ensures Valid() && fresh(Repr - old(Repr))
      ensures Contents(tree) == old(Contents(tree))[key := element]
    {
      var contained := ContainsKey(key);
      if contained {
        Replace(key, element);
      } else {
        var node := new Node(key, element);
        Add(node, element);
      }
    }

    method Replace(key: string, element: V)
      requires Valid() && key in Contents(tree)
      modifies this, Repr
      ensures Valid() && Repr == old(Repr)
      ensures Contents(tree) == old(Contents(tree))[key := element]
    {
      FindIsLookup(tree, key);
      UpdatedShape(tree, key, element);
      UpdatedContents(tree, key, element);
      var node := FindNode(root, key, tree);
      Overwrite(root, node, element, key, tree);
      tree := Updated(tree, key, element);
    }

    method Add(node: Node<V>, ghost element: V)
      requires Valid() && node !in Repr && node.key !in Contents(tree)
      requires node.value == element && node.left == null && node.right == null
      modifies this, Repr
      ensures Valid() && Repr == old(Repr) + {node}
      ensures Contents(tree) == old(Contents(tree))[node.key := element]
    {
      InsertedEffect(tree, node, element);
      logicalLength := logicalLength + 1;
      if root == null {
        root := node;
      } else {
        InsertNode(root, node, tree, element);
      }
      tree := Inserted(tree, node, element);
      Repr := Repr + {node};
    }

    method Get(key: string) returns (element: V)
      requires Valid() && key in Contents(tree)
      ensures element == Contents(tree)[key]
    {
      FindIsLookup(tree, key);
      var node := FindNode(root, key, tree);
      element := node.value;
    }

    method Count() returns (n: nat)
      requires Valid()
      ensures n == |Contents(tree)|
    {
      SizeIsNumberOfKeys(tree);
      n := logicalLength;
    }
  }

  /** Replaces the value of the node that a search for `key` finds. */
  method Overwrite<V>(ghost root: Node?<V>, node: Node<V>, value: V, ghost key: string, ghost t: Tree<V>)
    requires Linked(root, t) && Separate(t) && Find(t, key).Branch? && node == Find(t, key).node
    requires node.key == key
    modifies node
    ensures Linked(root, Updated(t, key, value))
  {
    ghost var place, found := PathTo(Top, t, key), Find(t, key);
    CompareZero(node.key, key);
    PathEffect(Top, t, key, value);
    PlugNodes(place, found);
    PlugLinked(root, place, found);
    node.value := value;
    PlugLinked(root, place, Updated(found, key, value));
  }

  /** Walks down from the root and hangs the new node where the walk falls off. */
  method InsertNode<V>(root: Node<V>, node: Node<V>, ghost t: Tree<V>, ghost value: V)
    requires Linked(root, t) && Separate(t) && node !in Nodes(t)
    requires node.value == value && node.left == null && node.right == null
    modifies Nodes(t)
    ensures Linked(root, Inserted(t, node, value))
  {
    var tree: Node?<V>, parent := root, root;
    ghost var place: Context<V>, sub := Top, t;
    while tree != null
      invariant Plug(place, sub) == t && Plug(place, Inserted(sub, node, value)) == Inserted(t, node, value)
      invariant LinkedAround(root, place, tree) && Linked(tree, sub)
      invariant tree == null ==> !place.Top? && place.node == parent
                                 && (place.LeftOf? <==> Compare(parent.key, node.key) < 0)
      decreases sub
    {
      parent := tree;
      var result := Compare(tree.key, node.key);
      if result < 0 {
        place, sub := LeftOf(parent, sub.value, sub.right, place), sub.left;
        tree := tree.left;
      } else {
        place, sub := RightOf(parent, sub.value, sub.left, place), sub.right;
        tree := tree.right;
      }
    }
    PlugNodes(place, sub);
    PlugLinked(root, place, Branch(node, value, Empty, Empty));
    var result := Compare(parent.key, node.key);
    if result < 0 {
      parent.left := node;
    } else {
      parent.right := node;
    }
    PlugLinked(root, place, Branch(node, value, Empty, Empty));
  }
}
