/** The B-tree node of `src/node.rs`: a record holding a key limit
    (`max_keys`), a vector of `u32` keys and a vector of owned children.

    The first half of the module is a value-level specification of what one
    `insert` does to a node, seen one level deep (its own keys and the keys of
    each child), and of a sequence of inserts. The second half is the node as
    the source has it: a class whose `Insert` and `Split` methods update the
    key and child vectors in place, each proved to perform exactly the step the
    specification describes.

    The code is a single-level append-then-split node: `insert` pushes the key
    at the end of the node's own vector (it never sorts and never descends into
    a child), splits as soon as the length reaches `max_keys`, and the split
    leaves the middle key in the parent twice. */
module BTreeNode {
  import opened Vec

  /** `max_keys` of `Node::default()`, and so of every node `Node::new()` makes. */
  const DefaultMaxKeys: nat := 4

  // ---------------------------------------------------------------------------
  // Specification of one insert, on values
  // ---------------------------------------------------------------------------

  /** How `split` divides a key vector: the keys before the middle index, the
      key at the middle index `len / 2`, and the keys after it. */
  datatype SplitParts = SplitParts(left: seq<u32>, middle: u32, right: seq<u32>)

  /** The division `split` makes. It cannot be applied to an empty vector
      (`self.keys[middle]` would panic); `insert` only splits after a push. The
      three parts put back together give the vector again, and the left part is
      the larger one by at most one key. */
  function SplitKeys(keys: seq<u32>): (r: SplitParts)
    requires |keys| >= 1
    ensures r.left + [r.middle] + r.right == keys
    ensures |r.left| == |keys| / 2
    ensures |r.right| <= |r.left| <= |r.right| + 1
  {
    var mid := |keys| / 2;
    assert keys[..mid] + [keys[mid]] + keys[mid + 1..] == keys;
    SplitParts(keys[..mid], keys[mid], keys[mid + 1..])
  }

  /** The middle key is determined by where the split happens: any way of
      writing `keys` as `left + [m] + right` with `|left| == |keys| / 2` is the
      one `SplitKeys` picks. */
  lemma SplitKeysUnique(keys: seq<u32>, left: seq<u32>, m: u32, right: seq<u32>)
    requires left + [m] + right == keys
    requires |left| == |keys| / 2
    ensures SplitKeys(keys) == SplitParts(left, m, right)
  {
  }

  /** A node seen one level deep: its own keys, and the key vector of each of
      its children, in order. */
  datatype Snapshot = Snapshot(keys: seq<u32>, childKeys: seq<seq<u32>>)

  /** What `split` does to a node: its keys are replaced by two copies of the
      middle key, and two leaves are appended after the existing children, the
      left one holding the keys before the middle and the right one the keys
      after it. No key is lost: left child, one copy of the middle key and right
      child give the old key vector back. */
  function SplitSnapshot(s: Snapshot): (r: Snapshot)
    requires |s.keys| >= 1
    ensures |r.childKeys| == |s.childKeys| + 2
    ensures r.childKeys[..|s.childKeys|] == s.childKeys
    ensures r.keys == [s.keys[|s.keys| / 2], s.keys[|s.keys| / 2]]
    ensures r.childKeys[|s.childKeys|] + [r.keys[0]] + r.childKeys[|s.childKeys| + 1] == s.keys
    ensures |r.childKeys[|s.childKeys|]| == |s.keys| / 2
  {
    var p := SplitKeys(s.keys);
    Snapshot([p.middle, p.middle], s.childKeys + [p.left, p.right])
  }

  /** What `insert(value)` does to a node whose limit is `maxKeys`: push the
      value, then split when the new length is at least `maxKeys`. The node
      grows two children exactly when it splits; otherwise the value is simply
      the new last key and the children are untouched. */
  function InsertStep(maxKeys: nat, s: Snapshot, value: u32): (r: Snapshot)
    ensures |r.childKeys| == |s.childKeys| + (if |s.keys| + 1 >= maxKeys then 2 else 0)
    ensures r.childKeys[..|s.childKeys|] == s.childKeys
    ensures |s.keys| + 1 < maxKeys ==> r.keys == s.keys + [value]
    ensures |s.keys| + 1 >= maxKeys ==>
              |r.keys| == 2 && r.keys[0] == r.keys[1] &&
              r.childKeys[|s.childKeys|] + [r.keys[0]] + r.childKeys[|s.childKeys| + 1]
                == s.keys + [value] &&
              |r.childKeys[|s.childKeys|]| == (|s.keys| + 1) / 2
  {
    var pushed := Snapshot(s.keys + [value], s.childKeys);
    if |pushed.keys| >= maxKeys then
      SplitSnapshot(pushed)
    else
      pushed
  }

  /** The sizes after one insert: the key count grows by one, or becomes two
      on a split, which also adds two children. */
  lemma InsertStepLengths(maxKeys: nat, s: Snapshot, value: u32)
    ensures var r := InsertStep(maxKeys, s, value);
            |r.keys| == (if |s.keys| + 1 >= maxKeys then 2 else |s.keys| + 1) &&
            |r.childKeys| == |s.childKeys| + (if |s.keys| + 1 >= maxKeys then 2 else 0)
  {
  }

  /** A node after `insert` has been called with each of `values`, in order. */
  function Run(maxKeys: nat, s: Snapshot, values: seq<u32>): Snapshot
  {
    if values == [] then s
    else InsertStep(maxKeys, Run(maxKeys, s, values[..|values| - 1]), values[|values| - 1])
  }

  // ---------------------------------------------------------------------------
  // Properties of inserts
  // ---------------------------------------------------------------------------

  /** With `max_keys` at least 3, every insert leaves the node with fewer
      than `max_keys` keys, whatever it held before (a struct literal may hold
      more): either the push stays below the limit, or the split leaves two. */
  lemma InsertLeavesBelowMax(maxKeys: nat, s: Snapshot, value: u32)
    requires 3 <= maxKeys
    ensures |InsertStep(maxKeys, s, value).keys| < maxKeys
  {
  }

  /** With `max_keys` at most 2 the bound fails: every insert into a non-empty
      node splits, and the split leaves two keys, so the node holds at least
      `max_keys` keys afterwards. */
  lemma SmallMaxKeysOverfull(maxKeys: nat, s: Snapshot, value: u32)
    requires maxKeys <= 2
    requires |s.keys| >= 1
    ensures |InsertStep(maxKeys, s, value).childKeys| == |s.childKeys| + 2
    ensures |InsertStep(maxKeys, s, value).keys| == 2 >= maxKeys
  {
  }

  /** The total of the key counts of a list of key vectors. */
  function TotalLength(vs: seq<seq<u32>>): nat
  {
    if vs == [] then 0 else TotalLength(vs[..|vs| - 1]) + |vs[|vs| - 1]|
  }

  lemma TotalLengthSnoc(vs: seq<seq<u32>>, w: seq<u32>)
    ensures TotalLength(vs + [w]) == TotalLength(vs) + |w|
  {
  }

  /** The number of keys held by a node and its children. */
  function KeyTotal(s: Snapshot): nat
  {
    |s.keys| + TotalLength(s.childKeys)
  }

  /** Each insert adds one key to the node and its children, and a split adds
      one more: the middle key stays in the parent twice. */
  lemma InsertStepKeyTotal(maxKeys: nat, s: Snapshot, value: u32)
    ensures KeyTotal(InsertStep(maxKeys, s, value))
              == KeyTotal(s) + 1 + (if |s.keys| + 1 >= maxKeys then 1 else 0)
  {
    var r := InsertStep(maxKeys, s, value);
    if |s.keys| + 1 >= maxKeys {
      var n := |s.childKeys|;
      var l, rt := r.childKeys[n], r.childKeys[n + 1];
      assert r.childKeys == s.childKeys + [l] + [rt];
      TotalLengthSnoc(s.childKeys, l);
      TotalLengthSnoc(s.childKeys + [l], rt);
      assert |r.childKeys[n] + [r.keys[0]] + r.childKeys[n + 1]| == |s.keys| + 1;
    }
  }

  /** After a sequence of inserts, the node and its children hold one key per
      inserted value plus one per split (each split adds two children). */
  lemma {:induction false} RunKeyTotal(maxKeys: nat, s: Snapshot, values: seq<u32>)
    ensures |s.childKeys| <= |Run(maxKeys, s, values).childKeys|
    ensures KeyTotal(Run(maxKeys, s, values))
              == KeyTotal(s) + |values| + (|Run(maxKeys, s, values).childKeys| - |s.childKeys|) / 2
    ensures (|Run(maxKeys, s, values).childKeys| - |s.childKeys|) % 2 == 0
  {
    if values != [] {
      var prefix := values[..|values| - 1];
      RunKeyTotal(maxKeys, s, prefix);
      InsertStepKeyTotal(maxKeys, Run(maxKeys, s, prefix), values[|values| - 1]);
    }
  }

  /** The keys held by a list of key vectors, as a multiset. */
  function KeyBag(vs: seq<seq<u32>>): multiset<u32>
  {
    if vs == [] then multiset{} else KeyBag(vs[..|vs| - 1]) + multiset(vs[|vs| - 1])
  }

  lemma KeyBagSnoc(vs: seq<seq<u32>>, w: seq<u32>)
    ensures KeyBag(vs + [w]) == KeyBag(vs) + multiset(w)
  {
  }

  /** The keys held by a node and its children, as a multiset. */
  function Stored(s: Snapshot): multiset<u32>
  {
    multiset(s.keys) + KeyBag(s.childKeys)
  }

  /** An insert stores the value, keeps every key already stored, and stores
      nothing else except, on a split, a second copy of the middle key, which
      is one of the node's keys or the value itself. */
  lemma InsertStepStored(maxKeys: nat, s: Snapshot, value: u32)
    ensures var r := InsertStep(maxKeys, s, value);
            Stored(r) == Stored(s) + multiset{value}
                           + (if |s.keys| + 1 >= maxKeys then multiset{r.keys[0]} else multiset{})
    ensures var r := InsertStep(maxKeys, s, value);
            |s.keys| + 1 >= maxKeys ==> r.keys[0] in s.keys + [value]
  {
    var r := InsertStep(maxKeys, s, value);
    if |s.keys| + 1 >= maxKeys {
      var n := |s.childKeys|;
      var l, m, rt := r.childKeys[n], r.keys[0], r.childKeys[n + 1];
      assert r.childKeys == s.childKeys + [l] + [rt];
      KeyBagSnoc(s.childKeys, l);
      KeyBagSnoc(s.childKeys + [l], rt);
      assert multiset(l + [m] + rt) == multiset(s.keys + [value]);
      assert r.keys == [m, m];
      assert (l + [m] + rt)[|l|] == m;
    } else {
      assert multiset(s.keys + [value]) == multiset(s.keys) + multiset{value};
    }
  }

  /** The two halves of `InsertStepStored` that sequences of inserts need:
      nothing stored is lost, and nothing but the value is new. */
  lemma InsertStepStoredBounds(maxKeys: nat, s: Snapshot, value: u32)
    ensures Stored(s) + multiset{value} <= Stored(InsertStep(maxKeys, s, value))
    ensures forall x :: x in Stored(InsertStep(maxKeys, s, value)) ==> x in Stored(s) || x == value
  {
    InsertStepStored(maxKeys, s, value);
  }

  /** Inserting one more value is one more step of `Run`. */
  lemma RunSnoc(maxKeys: nat, s: Snapshot, values: seq<u32>, v: u32)
    ensures Run(maxKeys, s, values + [v]) == InsertStep(maxKeys, Run(maxKeys, s, values), v)
  {
  }

  /** No key is lost: after a sequence of inserts, the node and its children
      hold every key they held before and every inserted value. */
  lemma {:induction false} RunKeepsKeys(maxKeys: nat, s: Snapshot, values: seq<u32>)
    ensures Stored(s) + multiset(values) <= Stored(Run(maxKeys, s, values))
  {
    if values != [] {
      var prefix, v := values[..|values| - 1], values[|values| - 1];
      assert values == prefix + [v];
      RunSnoc(maxKeys, s, prefix, v);
      RunKeepsKeys(maxKeys, s, prefix);
      InsertStepStoredBounds(maxKeys, Run(maxKeys, s, prefix), v);
      assert multiset(values) == multiset(prefix) + multiset{v};
    }
  }

  /** No key appears from nowhere: any key the node or its children hold after
      a sequence of inserts was held before or was inserted. */
  lemma {:induction false} RunInventsNoKeys(maxKeys: nat, s: Snapshot, values: seq<u32>, x: u32)
    requires x in Stored(Run(maxKeys, s, values))
    ensures x in Stored(s) || x in values
  {
    if values != [] {
      var prefix, v := values[..|values| - 1], values[|values| - 1];
      InsertStepStoredBounds(maxKeys, Run(maxKeys, s, prefix), v);
      if x != v {
        assert x in Stored(Run(maxKeys, s, prefix));
        RunInventsNoKeys(maxKeys, s, prefix, x);
        if x in prefix {
          var k :| 0 <= k < |prefix| && prefix[k] == x;
          assert values[k] == x;
        }
      } else {
        assert values[|values| - 1] == x;
      }
    }
  }

  /** The two drains of `split` realise `SplitKeys`: `drain(..middle)` yields
      the left part, `drain(1..)` on what remains yields the right part, and
      what then remains, with the middle key pushed again, is that key twice. */
  lemma DrainsSplit(keys: seq<u32>)
    requires |keys| >= 1
    ensures var first := Drain(keys, 0, |keys| / 2);
            |first.kept| >= 1 &&
            var second := Drain(first.kept, 1, |first.kept|);
            var p := SplitKeys(keys);
            first.taken == p.left && second.taken == p.right &&
            second.kept + [keys[|keys| / 2]] == [p.middle, p.middle]
  {
  }

  /** The shape a default node (`max_keys` 4, empty) reaches after `n`
      inserts: the first split comes with the fourth key and from then on every
      second insert splits again, so the children come in pairs, the node holds
      two or three keys, and keys plus children always number `n`. */
  lemma {:induction false} DefaultRunShape(values: seq<u32>)
    ensures |Run(DefaultMaxKeys, Snapshot([], []), values).keys|
              + |Run(DefaultMaxKeys, Snapshot([], []), values).childKeys| == |values|
    ensures |Run(DefaultMaxKeys, Snapshot([], []), values).childKeys| % 2 == 0
    ensures |values| < 4 <==> Run(DefaultMaxKeys, Snapshot([], []), values).childKeys == []
    ensures |values| >= 4 ==> 2 <= |Run(DefaultMaxKeys, Snapshot([], []), values).keys| <= 3
  {
    if values != [] {
      var prefix, v := values[..|values| - 1], values[|values| - 1];
      assert values == prefix + [v];
      RunSnoc(DefaultMaxKeys, Snapshot([], []), prefix, v);
      DefaultRunShape(prefix);
      InsertStepLengths(DefaultMaxKeys, Run(DefaultMaxKeys, Snapshot([], []), prefix), v);
    }
  }

  /** The scenario of the unit test for splitting: a node with limit 4
      holding 1, 2, 3, 4 receives 5; it keeps 3 twice and gets the children
      [1, 2] and [4, 5]. */
  lemma SplittingFourKeysExample()
    ensures InsertStep(4, Snapshot([1, 2, 3, 4], []), 5) == Snapshot([3, 3], [[1, 2], [4, 5]])
  {
    var pushed: seq<u32> := [1, 2, 3, 4] + [5];
    assert pushed == [1, 2] + [3] + [4, 5];
    SplitKeysUnique(pushed, [1, 2], 3, [4, 5]);
  }

  // ---------------------------------------------------------------------------
  // The node, updated in place
  // ---------------------------------------------------------------------------

  /** The key vectors of a list of nodes. */
  function ChildKeys(cs: seq<Node>): (r: seq<seq<u32>>)
    reads cs
    ensures |r| == |cs|
  {
    if cs == [] then [] else ChildKeys(cs[..|cs| - 1]) + [cs[|cs| - 1].keys]
  }

  lemma ChildKeysSnoc(cs: seq<Node>, c: Node)
    ensures ChildKeys(cs + [c]) == ChildKeys(cs) + [c.keys]
  {
  }

  /** The `i`th key vector is the `i`th node's keys. */
  lemma {:induction false} ChildKeysAt(cs: seq<Node>, i: nat)
    requires i < |cs|
    ensures ChildKeys(cs)[i] == cs[i].keys
  {
    if i < |cs| - 1 {
      ChildKeysAt(cs[..|cs| - 1], i);
    }
  }

  /** The key vectors of nodes whose keys did not change are unchanged. */
  twostate lemma {:induction false} ChildKeysFramed(cs: seq<Node>)
    requires forall i :: 0 <= i < |cs| ==> old(allocated(cs[i])) && old(cs[i].keys) == cs[i].keys
    ensures old(ChildKeys(cs)) == ChildKeys(cs)
  {
    if cs != [] {
      ChildKeysFramed(cs[..|cs| - 1]);
    }
  }

  class Node {
    var maxKeys: nat
    var keys: seq<u32>
    var children: seq<Node>

    /** Ownership as Rust enforces it: a node is never one of its own children. */
    ghost predicate Valid()
      reads this
    {
      this !in children
    }

    /** The node seen one level deep. */
    ghost function Snap(): Snapshot
      reads this, children
    {
      Snapshot(keys, ChildKeys(children))
    }

    /** `Node::default()`: limit 4, no keys, no children. */
    constructor Default()
      ensures Valid()
      ensures maxKeys == DefaultMaxKeys && keys == [] && children == []
    {
      maxKeys := DefaultMaxKeys;
      keys := [];
      children := [];
    }

    /** `Node::new()`: empty key and child vectors, the limit taken from the
        default node. */
    constructor New()
      ensures Valid()
      ensures maxKeys == DefaultMaxKeys && keys == [] && children == []
    {
      maxKeys := DefaultMaxKeys;
      keys := [];
      children := [];
    }

    /** The struct literal `Node { max_keys, keys, children }`, as the unit
        tests build nodes. */
    constructor Literal(maxKeys: nat, keys: seq<u32>, children: seq<Node>)
      ensures Valid()
      ensures this.maxKeys == maxKeys && this.keys == keys && this.children == children
    {
      this.maxKeys := maxKeys;
      this.keys := keys;
      this.children := children;
    }

    /** A node as `Node::new()` leaves it, apart from its keys: the default
        limit and no children. */
    static ghost predicate IsNewLeaf(n: Node)
      reads n
    {
      n.maxKeys == DefaultMaxKeys && n.children == []
    }

    /** `min_keys`: half the limit, rounded down. */
    function MinKeys(): (r: nat)
      reads this
      ensures 2 * r <= maxKeys <= 2 * r + 1
    {
      maxKeys / 2
    }

    /** `insert`: push the value onto this node's own keys, then split when
        the length has reached the limit. The children already present are
        kept; any new ones are fresh leaves with the default limit. */
    method Insert(value: u32)
      requires Valid()
      modifies this
      ensures Valid() && maxKeys == old(maxKeys)
      ensures Snap() == InsertStep(maxKeys, old(Snap()), value)
      ensures children[..|old(children)|] == old(children)
      ensures forall i :: |old(children)| <= i < |children| ==> fresh(children[i]) && IsNewLeaf(children[i])
      ensures forall i, j :: |old(children)| <= i < j < |children| ==> children[i] != children[j]
    {
      keys := keys + [value];
      if |keys| >= maxKeys {
        Split();
      }
    }

    /** `Node::new()` followed by `keys.extend(taken)`, as `split` builds
        each of its two new children. */
    static method LeafWith(taken: seq<u32>) returns (n: Node)
      ensures fresh(n) && n.Valid() && IsNewLeaf(n) && n.keys == taken
    {
      n := new Node.New();
      n.keys := n.keys + taken;
    }

    /** `split`: drain the keys before the middle index into a new left leaf
        and the keys after it into a new right leaf, push a second copy of the
        middle key (which the drains left in place), and append the two leaves
        to the children. */
    method Split()
      requires Valid() && |keys| >= 1
      modifies this
      ensures Valid() && maxKeys == old(maxKeys)
      ensures Snap() == SplitSnapshot(old(Snap()))
      ensures |children| == |old(children)| + 2
      ensures children[..|old(children)|] == old(children)
      ensures fresh(children[|old(children)|]) && fresh(children[|old(children)| + 1])
      ensures IsNewLeaf(children[|old(children)|]) && IsNewLeaf(children[|old(children)| + 1])
      ensures children[|old(children)|] != children[|old(children)| + 1]
    {
      ghost var oldChildren := children;
      DrainsSplit(keys);
      var middle := |keys| / 2;
      var middleValue := keys[middle];

      var d := Drain(keys, 0, middle);
      keys := d.kept;
      var leftNode := LeafWith(d.taken);

      d := Drain(keys, 1, |keys|);
      keys := d.kept;
      var rightNode := LeafWith(d.taken);

      keys := keys + [middleValue];
      children := children + [leftNode];
      children := children + [rightNode];

      ChildKeysFramed(oldChildren);
      ChildKeysSnoc(oldChildren, leftNode);
      ChildKeysSnoc(oldChildren + [leftNode], rightNode);
      assert children == oldChildren + [leftNode] + [rightNode];
    }
  }
}
