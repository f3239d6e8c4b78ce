/** src/Trie.ts: a character-per-level prefix tree from strings to data.

    `Node` is the value a trie stands for; the class `Trie` below is the
    mutable object of the source, and its ghost field `Model` is kept equal to
    that value. Insertion and lookup both stop as soon as the remaining key is
    empty OR equal to the current node's one-character prefix, so a key whose
    last two characters are equal lands on the node of that key without its
    last character (`StoragePath`, `Slot`). */
module Tries {
  import opened Optionals

  datatype Node = Node(prefix: string, children: seq<Node>, data: Optional<string>)
  {
    /** `insert(key, value)` on the value level. */
    function Insert(key: string, value: string): (r: Node)
      ensures r.prefix == prefix
      decreases |key|
    {
      if Stops(prefix, key) then
        this.(data := Present(value))
      else
        var i := FindChild(children, key[..1]);
        if i == |children| then
          this.(children := children + [Leaf(key[..1]).Insert(key[1..], value)])
        else
          this.(children := children[i := children[i].Insert(key[1..], value)])
    }

    /** `lookup(key)` on the value level. */
    function Lookup(key: string): Optional<string>
      decreases |key|
    {
      if Stops(prefix, key) then
        data
      else
        var i := FindChild(children, key[..1]);
        if i == |children| then Absent else children[i].Lookup(key[1..])
    }

    /** Every value stored anywhere in the tree. */
    ghost function Values(): set<string>
      decreases this
    {
      (if data.Present? then {data.value} else {})
      + set i, v | 0 <= i < |children| && v in children[i].Values() :: v
    }
  }

  /** A fresh node: `new Trie(prefix)`; the root is `Leaf("")`. */
  function Leaf(prefix: string): Node {
    Node(prefix, [], Absent)
  }

  /** The stop test shared by `insert` and `lookup`. */
  predicate Stops(prefix: string, key: string) {
    key == prefix || key == ""
  }

  /** `children.find(c => c.currentPrefix === p)`: the index of the first child
      whose prefix is `p`, or `|children|` when there is none. */
  function FindChild(children: seq<Node>, p: string): (i: nat)
    ensures i <= |children|
    ensures i < |children| ==> children[i].prefix == p
    ensures forall j :: 0 <= j < i ==> children[j].prefix != p
  {
    if children == [] then 0
    else if children[0].prefix == p then 0
    else 1 + FindChild(children[1..], p)
  }

  /** The characters of the child links that `insert`/`lookup` follow for `key`
      from a node whose prefix is `prefix`. */
  function StoragePath(prefix: string, key: string): seq<char>
    decreases |key|
  {
    if Stops(prefix, key) then [] else [key[0]] + StoragePath(key[..1], key[1..])
  }

  /** Closed form of the storage path from the root: the key itself, except
      that a final character equal to the one before it is dropped. */
  function Slot(key: string): (s: string)
    ensures |s| <= |key|
  {
    if |key| >= 2 && key[|key| - 1] == key[|key| - 2] then key[..|key| - 1] else key
  }

  /** Well-formed trees: every child has a one-character prefix and siblings
      have pairwise distinct prefixes. */
  ghost predicate WellFormed(t: Node)
    decreases t
  {
    && (forall i :: 0 <= i < |t.children| ==> |t.children[i].prefix| == 1)
    && (forall i, j :: 0 <= i < j < |t.children| ==> t.children[i].prefix != t.children[j].prefix)
    && (forall i :: 0 <= i < |t.children| ==> WellFormed(t.children[i]))
  }

  // ----- lemmas -------------------------------------------------------------

  /** A prefix of at most one character in front of a key of two or more
      characters does not change where `Slot` cuts. */
  lemma {:induction false} SlotBehindPrefix(c: string, key: string)
    requires |c| <= 1 && |key| >= 2
    ensures Slot(c + key)[|c|..] == [key[0]] + Slot(key)[1..]
  {
    var ck, n, m := c + key, |c + key|, |key|;
    assert ck[n - 1] == key[m - 1] && ck[n - 2] == key[m - 2];
    var cut := if key[m - 1] == key[m - 2] then 1 else 0;
    assert Slot(ck) == ck[..n - cut] && Slot(key) == key[..m - cut];
    assert ck[..n - cut] == c + key[..m - cut];
    assert (c + key[..m - cut])[|c|..] == key[..m - cut];
    assert [key[0]] + key[..m - cut][1..] == key[..m - cut];
  }

  /** From a node with a one-character (or empty) prefix, the storage path is
      the slot of the prefix followed by the key, minus that prefix. */
  lemma {:induction false} StoragePathFromNode(c: string, key: string)
    requires |c| <= 1
    ensures StoragePath(c, key) == Slot(c + key)[|c|..]
    decreases |key|
  {
    if Stops(c, key) {
      if key == "" {
        assert c + key == c;
      } else {
        assert c + key == c + c;
      }
    } else if |key| >= 2 {
      StoragePathFromNode(key[..1], key[1..]);
      assert key[..1] + key[1..] == key;
      SlotBehindPrefix(c, key);
    } else {
      assert StoragePath(key[..1], key[1..]) == [];
      assert [key[0]] == key;
      if |c| == 1 {
        assert (c + key)[1] == key[0] && (c + key)[0] == c[0];
        assert c[0] != key[0];
      }
      assert (c + key)[|c|..] == key;
    }
  }

  /** The quirk in closed form: from the root, `key` is stored at the node
      reached by `Slot(key)`; e.g. "tag11" shares a node with "tag1". */
  lemma StoragePathIsSlot(key: string)
    ensures StoragePath("", key) == Slot(key)
  {
    StoragePathFromNode("", key);
    assert "" + key == key;
  }

  /** `FindChild` is the unique first-match index. */
  lemma FindChildUnique(children: seq<Node>, p: string, i: nat)
    requires i <= |children|
    requires i < |children| ==> children[i].prefix == p
    requires forall j :: 0 <= j < i ==> children[j].prefix != p
    ensures FindChild(children, p) == i
  {
  }

  lemma FindChildAfterUpdate(children: seq<Node>, i: nat, n: Node, p: string)
    requires i < |children| && n.prefix == children[i].prefix
    ensures FindChild(children[i := n], p) == FindChild(children, p)
  {
    var cs := children[i := n];
    assert forall j :: 0 <= j < |children| ==> cs[j].prefix == children[j].prefix;
    FindChildUnique(cs, p, FindChild(children, p));
  }

  lemma FindChildAfterAppend(children: seq<Node>, n: Node, p: string)
    ensures FindChild(children + [n], p) ==
              if FindChild(children, p) < |children| || n.prefix == p then FindChild(children, p)
              else |children| + 1
  {
    var cs := children + [n];
    assert forall j :: 0 <= j < |children| ==> cs[j] == children[j];
    var b := FindChild(children, p);
    if b < |children| || n.prefix == p {
      FindChildUnique(cs, p, b);
    } else {
      FindChildUnique(cs, p, |children| + 1);
    }
  }

  /** A node that has never been inserted into stores nothing. */
  lemma LeafLookup(prefix: string, key: string)
    ensures Leaf(prefix).Lookup(key) == Absent
  {
  }

  /** Insert/lookup agreement: after `insert(k, v)`, a lookup answers `v`
      exactly for the keys with the same storage path as `k`, and answers as
      before for every other key. */
  lemma {:induction false} LookupAfterInsert(t: Node, k: string, v: string, k': string)
    ensures t.Insert(k, v).Lookup(k') ==
              if StoragePath(t.prefix, k) == StoragePath(t.prefix, k') then Present(v) else t.Lookup(k')
    decreases |k|
  {
    var t' := t.Insert(k, v);
    if Stops(t.prefix, k) {
      if !Stops(t.prefix, k') {
        assert t'.children == t.children;
      }
    } else if Stops(t.prefix, k') {
      assert StoragePath(t.prefix, k') == [];
    } else {
      var i := FindChild(t.children, k[..1]);
      var j := FindChild(t.children, k'[..1]);
      if i == |t.children| {
        var n := Leaf(k[..1]).Insert(k[1..], v);
        FindChildAfterAppend(t.children, n, k'[..1]);
        assert t'.children == t.children + [n];
        if k'[..1] == k[..1] {
          assert k[0] == k'[0] by { assert k[..1][0] == k'[..1][0]; }
          LookupAfterInsert(Leaf(k[..1]), k[1..], v, k'[1..]);
          LeafLookup(k[..1], k'[1..]);
          assert FindChild(t'.children, k'[..1]) == |t.children|;
          assert t'.Lookup(k') == n.Lookup(k'[1..]);
          assert t.Lookup(k') == Absent;
          assert StoragePath(t.prefix, k)[1..] == StoragePath(k[..1], k[1..]);
          assert StoragePath(t.prefix, k')[1..] == StoragePath(k[..1], k'[1..]);
        } else {
          assert k[0] != k'[0];
          assert StoragePath(t.prefix, k)[0] != StoragePath(t.prefix, k')[0];
          if j < |t.children| {
            assert FindChild(t'.children, k'[..1]) == j;
            assert t'.children[j] == t.children[j];
            assert t'.Lookup(k') == t'.children[j].Lookup(k'[1..]);
            assert t.Lookup(k') == t.children[j].Lookup(k'[1..]);
          } else {
            assert FindChild(t'.children, k'[..1]) == |t'.children|;
          }
        }
      } else {
        var n := t.children[i].Insert(k[1..], v);
        FindChildAfterUpdate(t.children, i, n, k'[..1]);
        assert t'.children == t.children[i := n];
        if k'[..1] == k[..1] {
          assert k[0] == k'[0] by { assert k[..1][0] == k'[..1][0]; }
          LookupAfterInsert(t.children[i], k[1..], v, k'[1..]);
          assert FindChild(t'.children, k'[..1]) == i;
          assert t'.Lookup(k') == n.Lookup(k'[1..]);
          assert t.Lookup(k') == t.children[i].Lookup(k'[1..]);
          assert StoragePath(t.prefix, k) == [k[0]] + StoragePath(k[..1], k[1..]);
          assert StoragePath(t.prefix, k') == [k[0]] + StoragePath(k[..1], k'[1..]);
          assert t.children[i].prefix == k[..1];
          assert StoragePath(t.prefix, k)[1..] == StoragePath(k[..1], k[1..]);
          assert StoragePath(t.prefix, k')[1..] == StoragePath(k[..1], k'[1..]);
        } else {
          assert k[0] != k'[0];
          assert StoragePath(t.prefix, k)[0] != StoragePath(t.prefix, k')[0];
          if j < |t.children| {
            assert j != i;
            assert t'.children[j] == t.children[j];
            assert t'.Lookup(k') == t'.children[j].Lookup(k'[1..]);
          }
        }
      }
    }
  }

  /** Round trip: the value just inserted is found again under its key. */
  lemma LookupInserted(t: Node, k: string, v: string)
    ensures t.Insert(k, v).Lookup(k) == Present(v)
  {
    LookupAfterInsert(t, k, v, k);
  }

  /** Last write wins: re-inserting a key overwrites its value. */
  lemma InsertOverwrites(t: Node, k: string, v1: string, v2: string, k': string)
    ensures t.Insert(k, v1).Insert(k, v2).Lookup(k') == t.Insert(k, v2).Lookup(k')
  {
    LookupAfterInsert(t.Insert(k, v1), k, v2, k');
    LookupAfterInsert(t, k, v1, k');
    LookupAfterInsert(t, k, v2, k');
  }

  /** Root-level form: from the root, insertion and lookup interact through
      `Slot` alone; "tag1" and "tag1tag" keep distinct values. */
  lemma RootLookupAfterInsert(t: Node, k: string, v: string, k': string)
    requires t.prefix == ""
    ensures t.Insert(k, v).Lookup(k') == if Slot(k) == Slot(k') then Present(v) else t.Lookup(k')
  {
    LookupAfterInsert(t, k, v, k');
    StoragePathIsSlot(k);
    StoragePathIsSlot(k');
  }

  /** Insertion keeps every child prefix one character long and sibling
      prefixes distinct, because a child is added only when `find` fails. */
  lemma {:induction false} InsertPreservesWellFormed(t: Node, k: string, v: string)
    requires WellFormed(t)
    ensures WellFormed(t.Insert(k, v))
    decreases |k|
  {
    if !Stops(t.prefix, k) {
      var i := FindChild(t.children, k[..1]);
      if i == |t.children| {
        var n := Leaf(k[..1]).Insert(k[1..], v);
        InsertPreservesWellFormed(Leaf(k[..1]), k[1..], v);
        var cs := t.children + [n];
        assert forall a :: 0 <= a < |t.children| ==> cs[a] == t.children[a];
        assert t.Insert(k, v).children == cs;
      } else {
        var n := t.children[i].Insert(k[1..], v);
        InsertPreservesWellFormed(t.children[i], k[1..], v);
        var cs := t.children[i := n];
        assert forall a :: 0 <= a < |t.children| && a != i ==> cs[a] == t.children[a];
        assert t.Insert(k, v).children == cs;
      }
    }
  }

  /** `lookup` only ever answers a value that was stored in the tree. */
  lemma {:induction false} LookupFindsStoredValue(t: Node, k: string)
    requires t.Lookup(k).Present?
    ensures t.Lookup(k).value in t.Values()
    decreases |k|
  {
    if !Stops(t.prefix, k) {
      var i := FindChild(t.children, k[..1]);
      LookupFindsStoredValue(t.children[i], k[1..]);
    }
  }

  // ----- the mutable trie ---------------------------------------------------

  /** The `Trie` object of the source: `insert` assigns `data` and pushes new
      children in place; `lookup` only reads. `Model` is the value it stands
      for and `Repr` the objects it owns (each node owns its children). */
  class Trie {
    const currentPrefix: string
    var children: seq<Trie>
    var data: Optional<string>
    ghost var Model: Node
    ghost var Repr: set<object>

    ghost predicate Valid()
      reads this, Repr
      decreases Repr
    {
      && this in Repr
      && Model.prefix == currentPrefix
      && Model.data == data
      && |Model.children| == |children|
      && (forall i :: 0 <= i < |children| ==>
            && children[i] in Repr
            && children[i].Repr <= Repr
            && this !in children[i].Repr
            && children[i].Model == Model.children[i]
            && children[i].Valid())
      && (forall i, j :: 0 <= i < j < |children| ==> children[i].Repr !! children[j].Repr)
    }

    /** `new Trie(prefix)`: no children and no data. */
    constructor (prefix: string)
      ensures Valid() && fresh(Repr)
      ensures Model == Leaf(prefix)
    {
      currentPrefix := prefix;
      children := [];
      data := Absent;
      Model := Leaf(prefix);
      Repr := {this};
    }

    /** `children.find(...)` over the child objects. */
    static function Find(nodes: seq<Trie>, p: string): (i: nat)
      ensures i <= |nodes|
      ensures i < |nodes| ==> nodes[i].currentPrefix == p
      ensures forall j :: 0 <= j < i ==> nodes[j].currentPrefix != p
    {
      if nodes == [] then 0
      else if nodes[0].currentPrefix == p then 0
      else 1 + Find(nodes[1..], p)
    }

    /** The child objects carry the prefixes of the model's children, so the
        object-level `find` picks the same child as the model's. */
    lemma FindAgrees(p: string)
      requires Valid()
      ensures Find(children, p) == FindChild(Model.children, p)
    {
      forall j | 0 <= j < |children|
        ensures Model.children[j].prefix == children[j].currentPrefix
      {
        assert children[j].Valid();
      }
      FindChildUnique(Model.children, p, Find(children, p));
    }

    method Insert(key: string, value: string)
      requires Valid()
      modifies Repr
      ensures Valid() && fresh(Repr - old(Repr))
      ensures Model == old(Model).Insert(key, value)
      decreases |key|, 1
    {
      if key == currentPrefix || key == "" {
        data := Present(value);
        Model := Model.(data := Present(value));
        return;
      }
      var i := Find(children, key[..1]);
      FindAgrees(key[..1]);
      if i == |children| {
        InsertIntoNewChild(key, value);
      } else {
        InsertIntoChild(i, key, value);
      }
    }

    /** The `!child` branch of `insert`: push a fresh child for the first
        character, then insert the rest of the key into it. */
    method InsertIntoNewChild(key: string, value: string)
      requires Valid() && key != ""
      modifies Repr
      ensures Valid() && fresh(Repr - old(Repr))
      ensures Model == old(Model).(children := old(Model).children + [Leaf(key[..1]).Insert(key[1..], value)])
      decreases |key|, 0
    {
      var newChild := new Trie(key[..1]);
      children := children + [newChild];
      newChild.Insert(key[1..], value);
      Repr := Repr + newChild.Repr;
      Model := Model.(children := Model.children + [newChild.Model]);
      forall j | 0 <= j < |children| - 1
        ensures children[j] == old(children[j]) && children[j].Valid()
        ensures children[j].Model == old(children[j].Model)
        ensures children[j].Repr == old(children[j].Repr)
        ensures children[j].Repr !! newChild.Repr
      {
        assert old(children[j].Valid());
      }
    }

    /** The `child` branch of `insert`: recurse into the existing child `i`. */
    method InsertIntoChild(i: nat, key: string, value: string)
      requires Valid() && key != "" && i < |children|
      modifies Repr
      ensures Valid() && fresh(Repr - old(Repr))
      ensures Model == old(Model).(children := old(Model).children[i := old(Model).children[i].Insert(key[1..], value)])
      decreases |key|, 0
    {
      var child := children[i];
      ghost var childRepr := child.Repr;
      child.Insert(key[1..], value);
      forall j | 0 <= j < |children| && j != i
        ensures children[j].Valid()
        ensures children[j].Model == old(children[j].Model)
        ensures children[j].Repr == old(children[j].Repr)
        ensures children[j].Repr !! child.Repr
      {
        assert old(children[j].Valid());
        assert children[j].Repr !! childRepr;
      }
      Repr := Repr + child.Repr;
      Model := Model.(children := Model.children[i := child.Model]);
    }

    function Lookup(key: string): (r: Optional<string>)
      reads this, Repr
      requires Valid()
      ensures r == Model.Lookup(key)
      decreases |key|
    {
      if key == currentPrefix || key == "" then
        data
      else
        var i := Find(children, key[..1]);
        FindAgrees(key[..1]);
        if i < |children| then children[i].Lookup(key[1..]) else Absent
    }
  }
}
