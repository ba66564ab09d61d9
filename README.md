# B-tree node, modelled in Dafny

This project models the node of a small Rust B-tree crate (`src/node.rs`). A
`Node` holds three fields: a key limit `max_keys` (4 by default), a vector of
`u32` keys and a vector of boxed children. The operations are:

- `Node::default()` and `Node::new()` build an empty node with limit 4.
- `min_keys()` returns `max_keys / 2`.
- `insert(value)` pushes the value at the end of the node's own key vector.
  When the length then reaches `max_keys` (the test is `>=`), it calls `split`.
- `split()` drains the keys before the middle index `len / 2` into a fresh
  left leaf and the keys after it into a fresh right leaf. It then pushes the
  middle key again and appends both leaves to the children.

The code is simpler than a textbook B-tree, and the model follows the code:

- `insert` never sorts and never descends into a child.
- A split never merges into existing children: it only appends two more.
- The drains leave the middle key in place and line 47 pushes a second copy.
  So after a split the node holds the middle key **twice**: its keys are `[m, m]`.
- The new children always get limit 4, whatever the parent's limit is.

So, unlike a textbook B-tree, the node splits at `>= max_keys` rather than
above it, keeps the middle key twice instead of promoting one copy, and never
routes a key to a child. `src/node.rs` has no removal, counting or
rebalancing either.

Files:

- `vec.dfy`, module `Vec`: the `u32` type and `Vec::drain` over a range,
  written as a pure function `Drain` with a contract that determines its
  result.
- `node.dfy`, module `BTreeNode`, in two parts.
  - A specification on values. `Snapshot` is a node seen one level deep: its
    keys and the key vector of each child. `SplitSnapshot` and `InsertStep`
    give the effect of one `split` and one `insert`. `Run` folds `InsertStep`
    over a sequence of inserts. Lemmas state the bounds, the key accounting
    and the shape reached.
  - `class Node`, with the source's three fields. `Insert` and `Split` update
    `keys` and `children` in place, as `push` and `drain` do. Each is proved
    to perform exactly the specified step on the node's `Snap()`. Each also
    states what happens to the child objects: old children are kept in
    order, and new children are fresh leaves with limit 4.
- `node_tests.dfy`, module `NodeTests`: the four unit tests of `src/node.rs`
  written as client methods. They assert what the tests assert.

## Model

| member | source | states |
|---|---|---|
| `Vec.Drain` | src/node.rs:42-45 | `drain(lo..hi)` yields `hi - lo` elements. Putting them back at `lo` in what remains restores the original vector. |
| `Vec.DrainUnique` | src/node.rs:42-45 | Any split of a vector into a taken run of length `hi - lo` at `lo` and a remainder is the one `Drain` returns, so the contract of `Drain` determines it. |
| `BTreeNode.SplitKeys` | src/node.rs:38-45 | Split divides the keys into left, middle and right. `left + [middle] + right` is the old vector, `left` has `len / 2` keys, and the halves differ in size by at most one. |
| `BTreeNode.SplitKeysUnique` | src/node.rs:38-39 | Any decomposition `left + [m] + right` with `len / 2` keys on the left is the one split uses, so `m` is the key at index `len / 2`. |
| `BTreeNode.DrainsSplit` | src/node.rs:38-47 | The two drains realise the split. `drain(..middle)` yields the left part, and `drain(1..)` on the remainder yields the right part. What then remains, with the middle key pushed again, is that key twice. |
| `BTreeNode.SplitSnapshot` | src/node.rs:37-50 | After a split the node's keys are `[m, m]` with `m = keys[len / 2]`. Two children are appended after the old ones, which are kept in order. Left child, `[m]` and right child give the old keys back, and the left child holds `len / 2` keys. |
| `BTreeNode.InsertStep` | src/node.rs:30-35 | Insert adds two children exactly when the length after the push is `>= max_keys`, so it splits at most once. Otherwise the keys become `old keys + [value]` and the children are unchanged. On a split the node keeps two equal keys, and the children plus one middle copy hold `old keys + [value]`. |
| `BTreeNode.InsertStepLengths` | src/node.rs:30-35 | One insert makes the key count `len + 1`, or 2 on a split, which also adds two children. |
| `BTreeNode.InsertLeavesBelowMax` | src/node.rs:30-35 | With `max_keys >= 3`, every insert leaves the node with fewer than `max_keys` keys, even if it held more before (as a struct literal can). |
| `BTreeNode.SmallMaxKeysOverfull` | src/node.rs:30-49 | With `max_keys <= 2`, any insert into a non-empty node splits. The node is then left with 2 keys, which is `>= max_keys`. |
| `BTreeNode.InsertStepKeyTotal` | src/node.rs:30-49 | An insert adds one key to the node and its children, and a split adds one more (the duplicated middle key). |
| `BTreeNode.RunKeyTotal` | src/node.rs:30-49 | After a sequence of inserts, the node and its children hold the old total, plus one key per insert, plus one per split. Children are added in pairs. |
| `BTreeNode.InsertStepStored` | src/node.rs:30-49 | As multisets, the keys stored after an insert are the old ones plus the value. On a split they also include one extra copy of the middle key, which is one of the old keys or the value. |
| `BTreeNode.InsertStepStoredBounds` | src/node.rs:30-49 | An insert loses no stored key. Every key stored afterwards was stored before or is the value. |
| `BTreeNode.RunKeepsKeys` | src/node.rs:30-49 | After a sequence of inserts, every key held before and every inserted value is still held, counted with multiplicity. |
| `BTreeNode.RunInventsNoKeys` | src/node.rs:30-49 | After a sequence of inserts, any key held was held before or was inserted. |
| `BTreeNode.DefaultRunShape` | src/node.rs:8-16 | Start from a default node (limit 4, empty) and insert `n` keys. Keys plus children number `n`, and the children come in pairs. There are no children exactly when `n < 4`, and from the fourth insert on the node holds two or three keys. |
| `BTreeNode.SplittingFourKeysExample` | src/node.rs:84-97 | A limit-4 node holding 1, 2, 3, 4 receives 5. It ends with keys `[3, 3]` and children `[1, 2]` and `[4, 5]`. |
| `BTreeNode.Node.Default` | src/node.rs:8-16 | `Node::default()` has limit 4, no keys and no children. |
| `BTreeNode.Node.New` | src/node.rs:19-25 | `Node::new()` has limit 4 (from the default), no keys and no children. |
| `BTreeNode.Node.Literal` | src/node.rs:2-6 | The struct literal stores exactly the three given fields. |
| `BTreeNode.Node.MinKeys` | src/node.rs:26-28 | `min_keys` is `max_keys` halved and rounded down: `2 * r <= max_keys <= 2 * r + 1`. |
| `BTreeNode.Node.Insert` | src/node.rs:30-35 | The node's one-level state becomes `InsertStep` of the old state, and `max_keys` is unchanged. Old child objects are kept in order, and any new children are fresh, pairwise distinct leaves with limit 4. |
| `BTreeNode.Node.LeafWith` | src/node.rs:41-45 | `Node::new()` followed by `keys.extend(taken)` gives a fresh leaf with limit 4 holding exactly `taken`. |
| `BTreeNode.Node.Split` | src/node.rs:37-50 | The node's one-level state becomes `SplitSnapshot` of the old state, and `max_keys` is unchanged. Exactly two fresh, distinct leaves with limit 4 are appended after the old children, which are kept in order. |

## Left out

- `src/lib.rs` (`BTree`) is not part of this model. It is a stub: `count`
  always returns 0, `leaf_nodes` always returns an empty vector, `insert` never
  calls `Node::insert`, and its struct literal does not compile.
- `src/main.rs` only prints, and names a generic `BTree<Node>` that does not
  exist. `tests/integration_test.rs` calls `BTree::default` and `bulk_insert`,
  which do not exist. Neither is modelled.
- Removal, rebalancing, counting, membership, child routing and sorted
  insertion are not modelled, because `src/node.rs` does not have them.
  `KeyTotal` and `Stored` are specification functions, not source operations.
- `#[derive(Clone)]` and the empty test `test_number_of_child_nodes` are not
  modelled. `Box<Node>` is an object reference.
- `max_keys` is a `usize` in the source and a `nat` here. No operation does
  arithmetic on it that could overflow, and no vector grows near `usize::MAX`.
- Rust ownership is stated as `Valid()`: a node is never one of its own
  children. Deeper aliasing is not modelled.
- `Snap()` shows the children's keys but not the grandchildren. `insert`
  never reads or writes below the node's own fields.
- The panics of `split` on an empty key vector are not modelled: the first is
  the index `self.keys[middle]` at line 39, before any `drain`; a `drain` out of
  range would be the next. `Split` requires at least one key, which always
  holds when `split` is reached from `insert`, after the push. Allocation
  failure is not modelled either.
