/** The unit tests of `src/node.rs`, as clients of the node's contracts: each
    method builds a node the way its test does and asserts what the test
    asserts, and the split test also what its comments say it means to check. */
module NodeTests {
  import opened Vec
  import opened BTreeNode

  /** `test_maximum_keys_per_node`. */
  method MaximumKeysPerNode()
  {
    var node := new Node.Literal(4, [], []);
    assert node.maxKeys == 4;
  }

  /** `test_minimum_keys_per_node`. */
  method MinimumKeysPerNode()
  {
    var node := new Node.Literal(4, [], []);
    assert node.MinKeys() == 2;
  }

  /** `test_insert`: one insert into a default node adds one key. */
  method InsertOne()
  {
    var node := new Node.Default();
    assert |node.keys| == 0;
    node.Insert(1);
    assert |node.keys| == 1;
  }

  /** `test_splitting_nodes`: a node with limit 4 holding 1, 2, 3, 4 receives
      5 and ends with two children; the parent holds the middle key 3 (twice)
      and the new key 5 is in the right child. */
  method SplittingNodes()
  {
    var node := new Node.Literal(4, [1, 2, 3, 4], []);
    node.Insert(5);
    SplittingFourKeysExample();
    assert |node.children| == 2;
    assert node.keys == [3, 3];
    assert node.Snap().childKeys == [[1, 2], [4, 5]];
    ChildKeysAt(node.children, 0);
    ChildKeysAt(node.children, 1);
    assert node.children[0].keys == [1, 2] && node.children[1].keys == [4, 5];
    assert node.children[0] != node.children[1];
  }
}
