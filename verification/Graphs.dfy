/** Dependency graphs: walks, cycles and finishing orders. */
module Graphs {
  import opened Wrappers

  /** Each node with the ordered list of nodes it depends on. */
  type Graph = map<string, seq<string>>

  /** Every dependency is itself a node. */
  ghost predicate Closed(g: Graph) {
    forall n, d :: n in g && d in g[n] ==> d in g
  }

  /** Each node of `p` depends on the one after it. */
  ghost predicate IsWalk(g: Graph, p: seq<string>) {
    && |p| >= 1
    && (forall i :: 0 <= i < |p| ==> p[i] in g)
    && forall i :: 0 <= i < |p| - 1 ==> p[i + 1] in g[p[i]]
  }

  ghost predicate IsWalkBetween(g: Graph, p: seq<string>, a: string, b: string) {
    IsWalk(g, p) && |p| >= 2 && p[0] == a && p[|p| - 1] == b
  }

  /** `a` depends on `b`, directly or through other nodes. */
  ghost predicate Reaches(g: Graph, a: string, b: string) {
    exists p :: IsWalkBetween(g, p, a, b)
  }

  ghost predicate Acyclic(g: Graph) {
    forall n :: n in g ==> !Reaches(g, n, n)
  }

  /** Every node of `order` comes after all of its dependencies, and none comes twice. */
  ghost predicate FinishOrder(g: Graph, order: seq<string>) {
    && NoDuplicates(order)
    && (forall i :: 0 <= i < |order| ==> order[i] in g)
    && forall i, d :: 0 <= i < |order| && d in g[order[i]] ==> d in order[..i]
  }

  lemma DirectReaches(g: Graph, a: string, b: string)
    requires a in g && b in g && b in g[a]
    ensures Reaches(g, a, b)
  {
    assert IsWalkBetween(g, [a, b], a, b);
  }

  lemma StepThenReaches(g: Graph, a: string, b: string, c: string)
    requires a in g && b in g[a] && Reaches(g, b, c)
    ensures Reaches(g, a, c)
  {
    var p :| IsWalkBetween(g, p, b, c);
    assert IsWalkBetween(g, [a] + p, a, c);
  }

  /** A dependency is reached either in one step, or through a direct dependency. */
  lemma FirstStep(g: Graph, a: string, c: string) returns (b: string)
    requires Reaches(g, a, c)
    ensures a in g && b in g && b in g[a] && (b == c || Reaches(g, b, c))
  {
    var p :| IsWalkBetween(g, p, a, c);
    b := p[1];
    if |p| > 2 {
      assert IsWalkBetween(g, p[1..], b, c);
    }
  }

  /** A walk that starts at position `k` of a finishing order only goes to earlier positions. */
  lemma {:induction false} WalkGoesBack(g: Graph, order: seq<string>, p: seq<string>, k: nat, i: nat)
    requires FinishOrder(g, order) && IsWalk(g, p)
    requires k < |order| && p[0] == order[k] && 1 <= i < |p|
    ensures p[i] in order[..k]
  {
    if i > 1 {
      WalkGoesBack(g, order, p, k, i - 1);
      var j :| 0 <= j < k && order[j] == p[i - 1];
      assert p[i] in order[..j];
    } else {
      assert p[1] in g[p[0]];
    }
  }

  /** A node that has a place in a finishing order cannot reach itself. */
  lemma FinishedIsAcyclic(g: Graph, order: seq<string>, n: string)
    requires FinishOrder(g, order) && n in order
    ensures !Reaches(g, n, n)
  {
    if Reaches(g, n, n) {
      var p :| IsWalkBetween(g, p, n, n);
      var k :| 0 <= k < |order| && order[k] == n;
      WalkGoesBack(g, order, p, k, |p| - 1);
      assert false;
    }
  }

  /** `m` sends every node of `g` to a node of `h`, and dependencies to dependencies. */
  ghost predicate Embeds(g: Graph, h: Graph, m: map<string, string>) {
    && (forall n :: n in g ==> n in m && m[n] in h)
    && forall n, d :: n in g && d in g[n] && d in g ==> m[d] in h[m[n]]
  }

  lemma EmbeddingKeepsReach(g: Graph, h: Graph, m: map<string, string>, a: string, b: string)
    requires Embeds(g, h, m) && Reaches(g, a, b)
    ensures a in m && b in m && Reaches(h, m[a], m[b])
  {
    var p :| IsWalkBetween(g, p, a, b);
    var q := seq(|p|, k requires 0 <= k < |p| => m[p[k]]);
    forall k | 0 <= k < |q| - 1
      ensures q[k + 1] in h[q[k]]
    {
      assert p[k + 1] in g[p[k]];
    }
    assert IsWalkBetween(h, q, m[a], m[b]);
  }

  lemma ExtendFinishOrder(g: Graph, order: seq<string>, node: string)
    requires FinishOrder(g, order) && node in g && node !in order
    requires forall d :: d in g[node] ==> d in order
    ensures FinishOrder(g, order + [node])
  {
    var next := order + [node];
    forall i, d | 0 <= i < |next| && d in g[next[i]]
      ensures d in next[..i]
    {
      assert next[..i] == order[..i];
    }
  }

  /** Part of a graph: the nodes of `part` have the same dependencies in `g`. */
  ghost predicate PartOf(part: Graph, g: Graph) {
    forall n :: n in part ==> n in g && g[n] == part[n]
  }

  lemma {:induction false} WalkStaysInPart(part: Graph, g: Graph, p: seq<string>, i: nat)
    requires PartOf(part, g) && Closed(part) && IsWalk(g, p) && p[0] in part && i < |p|
    ensures p[i] in part
  {
    if i > 0 {
      WalkStaysInPart(part, g, p, i - 1);
      assert p[i] in part[p[i - 1]];
    }
  }

  /** A closed part of a graph reaches the same nodes inside the whole graph. */
  lemma PartReach(part: Graph, g: Graph, a: string, b: string)
    requires PartOf(part, g) && Closed(part) && a in part && Reaches(g, a, b)
    ensures Reaches(part, a, b)
  {
    var p :| IsWalkBetween(g, p, a, b);
    forall i | 0 <= i < |p| ensures p[i] in part { WalkStaysInPart(part, g, p, i); }
    assert IsWalkBetween(part, p, a, b);
  }

  /** Putting two closed acyclic graphs side by side keeps both properties. */
  lemma UnionIsAcyclic(g: Graph, h: Graph, u: Graph)
    requires Closed(g) && Acyclic(g) && Closed(h) && Acyclic(h)
    requires PartOf(g, u) && PartOf(h, u) && u.Keys == g.Keys + h.Keys
    ensures Closed(u) && Acyclic(u)
  {
    forall n | n in u
      ensures !Reaches(u, n, n)
    {
      if Reaches(u, n, n) {
        if n in g { PartReach(g, u, n, n); } else { PartReach(h, u, n, n); }
      }
    }
  }
}
