/** Union-find with path halving and no rank, over nodes `0..n` and a set of edges:
    two nodes end under the same tree top exactly when a chain of edges joins them. */
module UnionFind {

  // ---- what "same component" means ----

  ghost predicate Linked(n: nat, edges: set<(nat, nat)>, a: nat, b: nat) {
    a < n && b < n && ((a, b) in edges || (b, a) in edges)
  }

  /** A chain of `k` links leads from `a` to `b`. */
  ghost predicate Within(n: nat, edges: set<(nat, nat)>, k: nat, a: nat, b: nat) {
    if k == 0 then a == b < n
    else exists m: nat :: Within(n, edges, k - 1, a, m) && Linked(n, edges, m, b)
  }

  ghost predicate Connected(n: nat, edges: set<(nat, nat)>, a: nat, b: nat) {
    exists k: nat :: Within(n, edges, k, a, b)
  }

  lemma {:induction false} WithinCompose(
      n: nat, edges: set<(nat, nat)>, k: nat, l: nat, a: nat, b: nat, c: nat)
    requires Within(n, edges, k, a, b) && Within(n, edges, l, b, c)
    ensures Within(n, edges, k + l, a, c)
    decreases l
  {
    if l > 0 {
      var m: nat :| Within(n, edges, l - 1, b, m) && Linked(n, edges, m, c);
      WithinCompose(n, edges, k, l - 1, a, b, m);
    }
  }

  lemma LinkedSymmetric(n: nat, edges: set<(nat, nat)>, a: nat, b: nat)
    requires Linked(n, edges, a, b)
    ensures Within(n, edges, 1, b, a)
  {
    assert Within(n, edges, 0, b, b) && Linked(n, edges, b, a);
  }

  lemma {:induction false} WithinReverses(
      n: nat, edges: set<(nat, nat)>, k: nat, a: nat, b: nat)
    requires Within(n, edges, k, a, b)
    ensures Within(n, edges, k, b, a)
    decreases k
  {
    if k > 0 {
      var m: nat :| Within(n, edges, k - 1, a, m) && Linked(n, edges, m, b);
      WithinReverses(n, edges, k - 1, a, m);
      LinkedSymmetric(n, edges, m, b);
      WithinCompose(n, edges, 1, k - 1, b, m, a);
    }
  }

  lemma ConnectedSymmetric(n: nat, edges: set<(nat, nat)>, a: nat, b: nat)
    requires Connected(n, edges, a, b)
    ensures Connected(n, edges, b, a)
  {
    var k: nat :| Within(n, edges, k, a, b);
    WithinReverses(n, edges, k, a, b);
  }

  lemma ConnectedTransitive(n: nat, edges: set<(nat, nat)>, a: nat, b: nat, c: nat)
    requires Connected(n, edges, a, b) && Connected(n, edges, b, c)
    ensures Connected(n, edges, a, c)
  {
    var k: nat :| Within(n, edges, k, a, b);
    var l: nat :| Within(n, edges, l, b, c);
    WithinCompose(n, edges, k, l, a, b, c);
  }

  /** The least node connected to `x`, searched from `m` on. */
  ghost function Representative(n: nat, edges: set<(nat, nat)>, x: nat, m: nat): nat
    requires m <= x < n
    decreases x - m
  {
    if m == x || Connected(n, edges, m, x) then m else Representative(n, edges, x, m + 1)
  }

  lemma {:induction false} RepresentativeIsLeast(
      n: nat, edges: set<(nat, nat)>, x: nat, m: nat, c: nat)
    requires m <= c <= x < n && m <= x && Connected(n, edges, c, x)
    ensures Representative(n, edges, x, m) <= c
    decreases x - m
  {
    if m != x && !Connected(n, edges, m, x) {
      RepresentativeIsLeast(n, edges, x, m + 1, c);
    }
  }

  lemma {:induction false} RepresentativeConnected(
      n: nat, edges: set<(nat, nat)>, x: nat, m: nat)
    requires m <= x < n
    ensures Representative(n, edges, x, m) <= x
    ensures Connected(n, edges, Representative(n, edges, x, m), x)
    decreases x - m
  {
    if m == x {
      assert Within(n, edges, 0, x, x);
    } else if !Connected(n, edges, m, x) {
      RepresentativeConnected(n, edges, x, m + 1);
    }
  }

  lemma RepresentativeDescends(n: nat, edges: set<(nat, nat)>, a: nat, b: nat)
    requires a < n && b < n && Connected(n, edges, a, b)
    ensures Representative(n, edges, b, 0) <= Representative(n, edges, a, 0)
  {
    var ra := Representative(n, edges, a, 0);
    RepresentativeConnected(n, edges, a, 0);
    RepresentativeConnected(n, edges, b, 0);
    if ra <= b {
      ConnectedTransitive(n, edges, ra, a, b);
      RepresentativeIsLeast(n, edges, b, 0, ra);
    }
  }

  /** Labels of the true classes: what the union-find has to reproduce. */
  lemma ClassLabels(n: nat, edges: set<(nat, nat)>) returns (classes: seq<nat>)
    ensures |classes| == n
    ensures forall a, b :: 0 <= a < |classes| && 0 <= b < |classes| ==>
              (classes[a] == classes[b] <==> Connected(n, edges, a, b))
  {
    classes := seq(n, x requires 0 <= x < n => Representative(n, edges, x, 0));
    forall a, b | 0 <= a < |classes| && 0 <= b < |classes|
      ensures classes[a] == classes[b] <==> Connected(n, edges, a, b)
    {
      RepresentativeConnected(n, edges, a, 0);
      RepresentativeConnected(n, edges, b, 0);
      if classes[a] == classes[b] {
        ConnectedSymmetric(n, edges, classes[a], a);
        ConnectedTransitive(n, edges, a, classes[a], b);
      }
      if Connected(n, edges, a, b) {
        ConnectedSymmetric(n, edges, a, b);
        RepresentativeDescends(n, edges, a, b);
        RepresentativeDescends(n, edges, b, a);
      }
    }
  }

  // ---- the union-find forest ----

  /** `parent` is an acyclic forest: `root[i]` is the tree top of `i` and every
      non-root step lowers `depth`. Neither is stored by the algorithm. */
  ghost predicate Forest(parent: seq<nat>, root: seq<nat>, depth: seq<nat>) {
    && |root| == |parent| && |depth| == |parent|
    && (forall i {:trigger root[i]} :: 0 <= i < |parent| ==> root[i] < |parent| && root[root[i]] == root[i])
    && (forall i {:trigger parent[i]} :: 0 <= i < |parent| ==>
          && parent[i] < |parent|
          && (parent[i] == i <==> root[i] == i)
          && root[parent[i]] == root[i]
          && (parent[i] != i ==> depth[parent[i]] < depth[i]))
  }

  method Find(parent: array<nat>, start: nat, ghost root: seq<nat>, ghost depth: seq<nat>) returns (top: nat)
    requires start < parent.Length == |root| && Forest(parent[..], root, depth)
    modifies parent
    ensures Forest(parent[..], root, depth)
    ensures top == root[start]
  {
    var i: nat := start;
    while parent[i] != i
      invariant i < parent.Length == |depth| == |root| && Forest(parent[..], root, depth)
      invariant root[i] == root[start]
      decreases depth[i]
    {
      assert parent[..][i] == parent[i] && parent[..][parent[i]] == parent[parent[i]];
      parent[i] := parent[parent[i]];
      assert parent[..][i] == parent[i];
      i := parent[i];
    }
    assert parent[..][i] == i;
    top := i;
  }

  /** `parent[find(j)] = find(i)`: the two trees become one under the top of `i`. */
  method Unite(parent: array<nat>, i: nat, j: nat, ghost root: seq<nat>, ghost depth: seq<nat>)
    returns (ghost newDepth: seq<nat>)
    requires i < parent.Length == |root| && j < parent.Length && Forest(parent[..], root, depth)
    modifies parent
    ensures Forest(parent[..], Joined(root, root[i], root[j]), newDepth)
  {
    var ri := Find(parent, i, root, depth);
    var rj := Find(parent, j, root, depth);
    ghost var before := parent[..];
    assert before[ri] == ri && before[rj] == rj;
    parent[rj] := ri;
    assert parent[..] == before[rj := ri];
    newDepth := Deepened(root, depth, ri, rj);
    LinkKeepsForest(before, root, depth, ri, rj);
  }

  lemma LinkKeepsForest(parent: seq<nat>, root: seq<nat>, depth: seq<nat>, ri: nat, rj: nat)
    requires Forest(parent, root, depth) && ri < |parent| && rj < |parent| && root[ri] == ri && root[rj] == rj
    ensures Forest(parent[rj := ri], Joined(root, ri, rj), Deepened(root, depth, ri, rj))
  {
  }

  /** The forest has joined the edges visited before the pair `(i, j)`, and never two classes. */
  ghost predicate Represents(
      edges: set<(nat, nat)>, classes: seq<nat>, parent: seq<nat>, root: seq<nat>, depth: seq<nat>, i: nat, j: nat)
  {
    && |root| == |parent| == |classes| && Forest(parent, root, depth)
    && (forall x :: 0 <= x < |root| ==> classes[root[x]] == classes[x])
    && (forall a: nat, b: nat :: a < b < |root| && (a < i || (a == i && b < j)) && (a, b) in edges ==>
        root[a] == root[b])
  }

  method Visit(
      same: bool, parent: array<nat>, i: nat, j: nat,
      ghost edges: set<(nat, nat)>, ghost classes: seq<nat>, ghost root: seq<nat>, ghost depth: seq<nat>)
    returns (ghost newRoot: seq<nat>, ghost newDepth: seq<nat>)
    requires i < j < parent.Length && Represents(edges, classes, parent[..], root, depth, i, j)
    requires same <==> (i, j) in edges
    requires same ==> classes[i] == classes[j]
    modifies parent
    ensures Represents(edges, classes, parent[..], newRoot, newDepth, i, j + 1)
  {
    newRoot, newDepth := root, depth;
    if same {
      newDepth := Unite(parent, i, j, root, depth);
      newRoot := Joined(root, root[i], root[j]);
    }
  }

  ghost function Joined(root: seq<nat>, ri: nat, rj: nat): seq<nat> {
    seq(|root|, x requires 0 <= x < |root| => if root[x] == rj then ri else root[x])
  }

  ghost function Deepened(root: seq<nat>, depth: seq<nat>, ri: nat, rj: nat): seq<nat>
    requires |depth| == |root| && ri < |root|
  {
    if ri == rj then depth
    else seq(|root|, x requires 0 <= x < |root| => if root[x] == rj then depth[x] + depth[ri] + 1 else depth[x])
  }

  /** A labelling that agrees across every edge is constant along every path. */
  lemma {:induction false} PathKeepsRoot(
      n: nat, edges: set<(nat, nat)>, root: seq<nat>, k: nat, a: nat, b: nat)
    requires |root| == n && Within(n, edges, k, a, b) && a < |root| && b < |root|
    requires forall x: nat, y: nat :: x < |root| && y < |root| && (x, y) in edges ==> root[x] == root[y]
    ensures root[a] == root[b]
    decreases k
  {
    if k > 0 {
      var m: nat :| Within(n, edges, k - 1, a, m) && Linked(n, edges, m, b);
      PathKeepsRoot(n, edges, root, k - 1, a, m);
      }
  }

  lemma LabelsAreClasses(n: nat, edges: set<(nat, nat)>, classes: seq<nat>, root: seq<nat>)
    requires |root| == n == |classes|
    requires forall a, b :: 0 <= a < |classes| && 0 <= b < |classes| ==>
               (classes[a] == classes[b] <==> Connected(n, edges, a, b))
    requires forall x :: 0 <= x < |root| ==> root[x] < |root| && classes[root[x]] == classes[x]
    requires forall x: nat, y: nat :: x < |root| && y < |root| && (x, y) in edges ==> root[x] == root[y]
    ensures forall a, b :: 0 <= a < |root| && 0 <= b < |root| ==>
              (root[a] == root[b] <==> Connected(n, edges, a, b))
  {
    forall a, b | 0 <= a < |root| && 0 <= b < |root| && Connected(n, edges, a, b)
      ensures root[a] == root[b]
    {
      var k: nat :| Within(n, edges, k, a, b);
      PathKeepsRoot(n, edges, root, k, a, b);
    }
  }

  lemma EdgeConnects(n: nat, edges: set<(nat, nat)>, a: nat, b: nat)
    requires Linked(n, edges, a, b)
    ensures Connected(n, edges, a, b)
  {
    LinkedSymmetric(n, edges, b, a);
  }

  lemma {:induction false} MoreEdgesReach(
      n: nat, edges: set<(nat, nat)>, more: set<(nat, nat)>, k: nat, a: nat, b: nat)
    requires edges <= more && Within(n, edges, k, a, b)
    ensures Within(n, more, k, a, b)
    decreases k
  {
    if k > 0 {
      var m: nat :| Within(n, edges, k - 1, a, m) && Linked(n, edges, m, b);
      MoreEdgesReach(n, edges, more, k - 1, a, m);
      assert Linked(n, more, m, b);
    }
  }

  lemma MoreEdgesConnect(n: nat, edges: set<(nat, nat)>, more: set<(nat, nat)>, a: nat, b: nat)
    requires edges <= more && Connected(n, edges, a, b)
    ensures Connected(n, more, a, b)
  {
    var k: nat :| Within(n, edges, k, a, b);
    MoreEdgesReach(n, edges, more, k, a, b);
  }
}
