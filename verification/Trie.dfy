/** The trie of the proxy auto-configuration script: linked nodes, refining a map from paths to values. */
module Tries {
  import opened Bytes

  /** `node.value`: nothing, or the flag last stored there. */
  type Value = Option<bool>

  /** What `match` returns: a node's value, or `null` when the walk ran off the trie inside a label. */
  datatype Answer = Null | Of(value: Value)

  /**
   * A trie as its paths: every string that leads from the root to a node, with that node's value.
   */
  type Paths = map<string, Value>

  // The trie as a value.

  const ROOT: Paths := map["" := None]

  /** The trie with a node at `p`, a new one if there was none. */
  function WithPath(t: Paths, p: string): Paths {
    if p in t then t else t[p := None]
  }

  /** The trie with nodes along the first `n` characters of `key`. */
  function Grown(t: Paths, key: string, n: nat): Paths
    requires n <= |key|
  {
    if n == 0 then t else WithPath(Grown(t, key, n - 1), key[..n])
  }

  /** The trie after `add(key, value)`. */
  function Added(t: Paths, key: string, value: bool): Paths {
    Grown(t, key, |key|)[key := Some(value)]
  }

  /** The longest beginning of `key` that is a path, by its length. */
  function Longest(paths: set<string>, key: string, from: nat): (n: nat)
    requires from <= |key| && key[..from] in paths
    ensures from <= n <= |key| && key[..n] in paths
    ensures n < |key| ==> key[..n + 1] !in paths
    decreases |key| - from
  {
    if from < |key| && key[..from + 1] in paths then Longest(paths, key, from + 1) else from
  }

  /** `match(key)`: the value where the walk ends, provided it ends with the key or before a dot. */
  function Matched(t: Paths, key: string): Answer
    requires "" in t
  {
    assert key[..0] == "";
    Ends(t, key, Longest(t.Keys, key, 0))
  }

  /** The answer of a walk along `key` that cannot go on after `n` steps. */
  function Ends(t: Paths, key: string, n: nat): Answer
    requires n <= |key| && key[..n] in t
  {
    if n == |key| || key[n] == '.' then Of(t[key[..n]]) else Null
  }

  // The trie as linked nodes.

  class TrieNode {
    var value: Value
    var children: map<char, TrieNode>

    constructor ()
      ensures value == None && children == map[]
    {
      value, children := None, map[];
    }
  }

  /**
   * `nodes` leads every path to its own node, and the children of each node, `kids`, are exactly the paths one
   * character longer.
   */
  ghost predicate WellFormed(root: TrieNode, nodes: map<string, TrieNode>, kids: map<string, map<char, TrieNode>>) {
    && kids.Keys == nodes.Keys
    && "" in nodes && nodes[""] == root
    && (forall p {:trigger Alone(nodes, p)} | p in nodes :: Alone(nodes, p))
    && (forall p {:trigger Kin(nodes, kids, p)} | p in nodes :: Kin(nodes, kids, p))
  }

  /** No other path leads to the node at `p`. */
  ghost predicate Alone(nodes: map<string, TrieNode>, p: string)
    requires p in nodes
  {
    forall q | q in nodes && nodes[q] == nodes[p] :: q == p
  }

  ghost predicate Kin(nodes: map<string, TrieNode>, kids: map<string, map<char, TrieNode>>, p: string)
    requires p in kids
  {
    && (p == "" || p[..|p| - 1] in nodes)
    && (forall c | c in kids[p] :: p + [c] in nodes && nodes[p + [c]] == kids[p][c])
    && (forall c | p + [c] in nodes :: c in kids[p])
  }

  /** A new node below `p` keeps the trie well formed. */
  lemma GrownWellFormed(root: TrieNode, nodes: map<string, TrieNode>, kids: map<string, map<char, TrieNode>>,
                        p: string, c: char, child: TrieNode)
    requires WellFormed(root, nodes, kids) && p in nodes && c !in kids[p]
    requires forall q | q in nodes :: nodes[q] != child
    ensures p + [c] !in nodes
    ensures WellFormed(root, nodes[p + [c] := child], kids[p := kids[p][c := child]][p + [c] := map[]])
  {
    var nodes1, kids1 := nodes[p + [c] := child], kids[p := kids[p][c := child]][p + [c] := map[]];
    assert Kin(nodes, kids, p);
    forall q | q in nodes1 ensures Alone(nodes1, q) {
      assert q in nodes ==> Alone(nodes, q);
    }
    forall q | q in nodes1 ensures Kin(nodes1, kids1, q) {
      KinGrown(root, nodes, kids, p, c, child, q);
    }
  }

  lemma KinGrown(root: TrieNode, nodes: map<string, TrieNode>, kids: map<string, map<char, TrieNode>>,
                 p: string, c: char, child: TrieNode, q: string)
    requires WellFormed(root, nodes, kids) && p in nodes && c !in kids[p] && p + [c] !in nodes
    requires q in nodes || q == p + [c]
    ensures Kin(nodes[p + [c] := child], kids[p := kids[p][c := child]][p + [c] := map[]], q)
  {
    if q in nodes {
      assert Kin(nodes, kids, q);
      forall d ensures q + [d] == p + [c] ==> q == p && d == c {
        LastOf(q, d, p, c);
      }
    } else {
      assert q[..|q| - 1] == p;
      forall d ensures q + [d] !in nodes {
        assert (q + [d])[..|q + [d]| - 1] == q;
        assert q + [d] in nodes ==> Kin(nodes, kids, q + [d]);
      }
    }
  }

  lemma LastOf(q: string, d: char, p: string, c: char)
    ensures q + [d] == p + [c] ==> q == p && d == c
  {
    if q + [d] == p + [c] {
      assert |q| == |p|;
      assert q == (q + [d])[..|q|] == (p + [c])[..|p|] == p;
      assert d == (q + [d])[|q|];
    }
  }

  class Trie {
    const root: TrieNode
    /** The node each path leads to, its children and its value. */
    ghost var nodes: map<string, TrieNode>
    ghost var kids: map<string, map<char, TrieNode>>
    ghost var view: Paths
    ghost var own: set<TrieNode>

    ghost predicate Valid()
      reads this, own
    {
      && WellFormed(root, nodes, kids)
      && view.Keys == nodes.Keys
      && (forall p {:trigger Holds(p)} | p in nodes :: Holds(p))
    }

    /** The node at `p` is as recorded. */
    ghost predicate Holds(p: string)
      requires p in nodes && p in kids && p in view
      reads this, own
    {
      nodes[p] in own && nodes[p].children == kids[p] && nodes[p].value == view[p]
    }

    constructor ()
      ensures Valid() && view == ROOT && fresh(own)
    {
      root := new TrieNode();
      new;
      nodes, kids, view, own := map["" := root], map["" := map[]], ROOT, {root};
    }

    /** One step of the walk along `key`. */
    lemma Walk(key: string, i: nat)
      requires Valid() && i < |key| && key[..i] in nodes
      ensures var node := nodes[key[..i]];
        if key[i] in node.children then
          && key[..i + 1] in nodes && nodes[key[..i + 1]] == node.children[key[i]]
          && Longest(nodes.Keys, key, i) == Longest(nodes.Keys, key, i + 1)
        else Longest(nodes.Keys, key, i) == i && key[..i + 1] !in nodes
    {
      assert key[..i + 1] == key[..i] + [key[i]];
      assert Kin(nodes, kids, key[..i]) && Holds(key[..i]);
    }

    method Match(key: string) returns (answer: Answer)
      requires Valid()
      ensures answer == Matched(view, key)
    {
      var i, node := 0, root;
      ghost var paths := nodes.Keys;
      assert key[..0] == "";
      while i < |key|
        invariant i <= |key| && key[..i] in paths && nodes[key[..i]] == node
        invariant Longest(paths, key, 0) == Longest(paths, key, i)
      {
        var term := key[i];
        Walk(key, i);
        assert Holds(key[..i]);
        if term !in node.children {
          return if term == '.' then Of(node.value) else Null;
        }
        node := node.children[term];
        i := i + 1;
      }
      assert key[..i] == key && Holds(key);
      return Of(node.value);
    }

    lemma NoNodeIs(other: TrieNode)
      requires Valid() && other !in own
      ensures forall q | q in nodes :: nodes[q] != other
    {
      forall q | q in nodes ensures nodes[q] != other {
        assert Holds(q);
      }
    }

    /** The records of a trie with a new node below the one at `p`. */
    ghost method Record(p: string, c: char, child: TrieNode)
      requires p in nodes && p + [c] !in nodes && kids.Keys == nodes.Keys == view.Keys
      requires WellFormed(root, nodes[p + [c] := child], kids[p := nodes[p].children][p + [c] := map[]])
      requires child.children == map[] && child.value == None
      requires nodes[p] in own && nodes[p].value == view[p]
      requires forall q {:trigger Holds(q)} | q in nodes && q != p :: Holds(q)
      modifies this
      ensures nodes == old(nodes)[p + [c] := child] && own == old(own) + {child}
      ensures Valid() && view == old(view)[p + [c] := None]
    {
      ghost var before := nodes;
      kids := kids[p := nodes[p].children][p + [c] := map[]];
      view := view[p + [c] := None];
      nodes, own := nodes[p + [c] := child], own + {child};
      forall q | q in nodes
        ensures Holds(q)
      {
        if q in before && q != p {
          assert old(Holds(q));
        }
      }
    }

    /** A new node below the one at `p`. */
    method NewChild(ghost p: string, node: TrieNode, c: char) returns (child: TrieNode)
      requires Valid() && p in nodes && nodes[p] == node && c !in node.children
      modifies this, node`children
      ensures fresh(child) && nodes == old(nodes)[p + [c] := child] && own == old(own) + {child}
      ensures Valid() && view == old(view)[p + [c] := None]
    {
      child := new TrieNode();
      assert Alone(nodes, p) && Holds(p);
      NoNodeIs(child);
      GrownWellFormed(root, nodes, kids, p, c, child);
      label L:
      node.children := node.children[c := child];
      forall q | q in nodes && q != p
        ensures Holds(q)
      {
        assert old@L(Holds(q));
      }
      Record(p, c, child);
    }

    /** The child of `node` for character `i` of `key`, made if there is none. */
    method Descend(key: string, i: nat, node: TrieNode) returns (child: TrieNode)
      requires Valid() && i < |key| && key[..i] in nodes && nodes[key[..i]] == node
      modifies this, node`children
      ensures Valid() && key[..i + 1] in nodes && nodes[key[..i + 1]] == child
      ensures view == WithPath(old(view), key[..i + 1])
      ensures fresh(own - old(own))
    {
      assert key[..i + 1] == key[..i] + [key[i]];
      Walk(key, i);
      if key[i] in node.children {
        child := node.children[key[i]];
      } else {
        child := NewChild(key[..i], node, key[i]);
      }
    }

    /** The node at `key`, made with all those on the way to it. */
    method Reach(key: string) returns (node: TrieNode)
      requires Valid()
      modifies this, own
      ensures Valid() && view == Grown(old(view), key, |key|)
      ensures key in nodes && nodes[key] == node
      ensures fresh(own - old(own))
    {
      node := root;
      assert key[..0] == "" && key[..|key|] == key;
      for i := 0 to |key|
        invariant Valid() && key[..i] in nodes && nodes[key[..i]] == node
        invariant view == Grown(old(view), key, i)
        invariant fresh(own - old(own))
      {
        assert Holds(key[..i]);
        node := Descend(key, i, node);
      }
    }

    method Add(key: string, value: bool)
      requires Valid()
      modifies this, own
      ensures Valid() && view == Added(old(view), key, value)
      ensures fresh(own - old(own))
    {
      var node := Reach(key);
      assert Holds(key);
      SetValue(key, node, value);
    }

    method SetValue(ghost p: string, node: TrieNode, value: bool)
      requires Valid() && p in nodes && nodes[p] == node
      modifies this`view, node`value
      ensures Valid() && view == old(view)[p := Some(value)]
    {
      assert Alone(nodes, p) && Holds(p);
      node.value := Some(value);
      view := view[p := Some(value)];
      forall q | q in nodes
        ensures Holds(q)
      {
        assert old(Holds(q));
      }
    }
  }

  // What a sequence of adds leaves behind.

  datatype Entry = Entry(key: string, value: bool)

  function Loaded(adds: seq<Entry>): (t: Paths)
    ensures "" in t
  {
    if adds == [] then ROOT else
      var last := adds[|adds| - 1];
      var t := Loaded(adds[..|adds| - 1]);
      GrownKeeps(t, last.key, |last.key|);
      Added(t, last.key, last.value)
  }

  lemma {:induction false} GrownKeeps(t: Paths, key: string, n: nat)
    requires n <= |key|
    ensures t.Keys <= Grown(t, key, n).Keys
    ensures forall p | p in t :: Grown(t, key, n)[p] == t[p]
  {
    if n > 0 {
      GrownKeeps(t, key, n - 1);
    }
  }

  /** The value last written to each key. */
  function LastWrites(adds: seq<Entry>): map<string, bool> {
    if adds == [] then map[] else
      var last := adds[|adds| - 1];
      LastWrites(adds[..|adds| - 1])[last.key := last.value]
  }

  lemma LoadedAppend(adds: seq<Entry>, e: Entry)
    ensures Loaded(adds + [e]) == Added(Loaded(adds), e.key, e.value)
  {
    assert (adds + [e])[..|adds|] == adds;
  }

  lemma LastWritesAppend(adds: seq<Entry>, e: Entry)
    ensures LastWrites(adds + [e]) == LastWrites(adds)[e.key := e.value]
  {
    assert (adds + [e])[..|adds|] == adds;
  }

  predicate IsPath(w: map<string, bool>, p: string) {
    p == "" || exists k | k in w :: p <= k
  }

  /** The trie that the writes alone describe: all prefixes of their keys, valued at the keys themselves. */
  ghost predicate Describes(w: map<string, bool>, t: Paths) {
    && (forall p :: p in t <==> IsPath(w, p))
    && (forall p | p in t :: t[p] == if p in w then Some(w[p]) else None)
  }

  lemma {:induction false} GrownPaths(t: Paths, key: string, n: nat, p: string)
    requires n <= |key| && "" in t
    ensures p in Grown(t, key, n) <==> p in t || p <= key[..n]
    ensures p in Grown(t, key, n) && p !in t ==> Grown(t, key, n)[p] == None
  {
    if n > 0 {
      GrownPaths(t, key, n - 1, p);
      assert p <= key[..n] <==> p == key[..n] || p <= key[..n - 1];
    } else {
      assert p <= key[..0] <==> p == "";
    }
  }

  /**
   * Trie refinement: after any adds the trie's paths are exactly the prefixes of the added keys, and its values
   * are the values last written. So adds that write the same in the end, in whatever order, leave the same trie.
   */
  lemma {:induction false} TrieRefinement(adds: seq<Entry>)
    ensures Describes(LastWrites(adds), Loaded(adds))
  {
    if adds != [] {
      var before, last := adds[..|adds| - 1], adds[|adds| - 1];
      TrieRefinement(before);
      var w, t, w', t' := LastWrites(before), Loaded(before), LastWrites(adds), Loaded(adds);
      assert last.key[..|last.key|] == last.key;
      GrownKeeps(t, last.key, |last.key|);
      forall p
        ensures p in t' <==> IsPath(w', p)
        ensures p in t' ==> t'[p] == if p in w' then Some(w'[p]) else None
      {
        GrownPaths(t, last.key, |last.key|, p);
        if IsPath(w', p) && p != "" {
          var k :| k in w' && p <= k;
        }
        if IsPath(w, p) && p != "" {
          var k :| k in w && p <= k;
          assert k in w';
        }
        if p <= last.key {
          assert last.key in w';
        }
        if p in w {
          assert IsPath(w, p);
        }
      }
    }
  }

  lemma PathsAreClosed(w: map<string, bool>, key: string, m: nat, n: nat)
    requires m <= n <= |key| && IsPath(w, key[..n])
    ensures IsPath(w, key[..m])
  {
    if m > 0 {
      var k :| k in w && key[..n] <= k;
      assert key[..m] <= k;
    }
  }

  /**
   * What `match` answers after any adds, by the adds alone: with `n` characters of the key the most that some added
   * key begins with, the value last written to just those, if any, when the key ends there or goes on with a dot.
   */
  lemma AnswerExactly(adds: seq<Entry>, key: string, n: nat)
    requires n <= |key| && IsPath(LastWrites(adds), key[..n])
    requires n < |key| ==> !IsPath(LastWrites(adds), key[..n + 1])
    ensures var w := LastWrites(adds);
      Matched(Loaded(adds), key) ==
        if n < |key| && key[n] != '.' then Null
        else if key[..n] in w then Of(Some(w[key[..n]])) else Of(None)
  {
    var w, t := LastWrites(adds), Loaded(adds);
    TrieRefinement(adds);
    assert key[..0] == "";
    var m := Longest(t.Keys, key, 0);
    assert IsPath(w, key[..m]);
    if m < n {
      PathsAreClosed(w, key, m + 1, n);
    }
    if n < m {
      PathsAreClosed(w, key, n + 1, m);
    }
  }

  lemma OrderIndependence(a: seq<Entry>, b: seq<Entry>, key: string)
    requires LastWrites(a) == LastWrites(b)
    ensures Loaded(a) == Loaded(b) && Matched(Loaded(a), key) == Matched(Loaded(b), key)
  {
    TrieRefinement(a);
    TrieRefinement(b);
  }

  predicate DistinctKeys(adds: seq<Entry>) {
    forall i, j | 0 <= i < j < |adds| :: adds[i].key != adds[j].key
  }

  lemma {:induction false} LastWritesDistinct(adds: seq<Entry>)
    requires DistinctKeys(adds)
    ensures forall e: Entry :: e in adds <==> e.key in LastWrites(adds) && LastWrites(adds)[e.key] == e.value
  {
    if adds != [] {
      var before, last := adds[..|adds| - 1], adds[|adds| - 1];
      LastWritesDistinct(before);
      assert adds == before + [last];
      forall e: Entry
        ensures e in adds <==> e.key in LastWrites(adds) && LastWrites(adds)[e.key] == e.value
      {
        if e in before {
          var i :| 0 <= i < |before| && before[i] == e;
          assert adds[i].key != last.key;
        }
      }
    }
  }

  /** The order in which distinct keys are added makes no difference to any answer. */
  lemma DistinctKeysAnyOrder(a: seq<Entry>, b: seq<Entry>, key: string)
    requires DistinctKeys(a) && DistinctKeys(b) && (forall e: Entry :: e in a <==> e in b)
    ensures Loaded(a) == Loaded(b) && Matched(Loaded(a), key) == Matched(Loaded(b), key)
  {
    LastWritesDistinct(a);
    LastWritesDistinct(b);
    var wa, wb := LastWrites(a), LastWrites(b);
    forall k ensures k in wa <==> k in wb
             ensures k in wa && k in wb ==> wa[k] == wb[k]
    {
      if k in wa {
        assert Entry(k, wa[k]) in b;
      }
      if k in wb {
        assert Entry(k, wb[k]) in a;
      }
    }
    assert wa == wb;
    OrderIndependence(a, b, key);
  }
}
