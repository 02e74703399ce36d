/**
 * The `dependsOn` relation between source sets, as a sequence of edges in the
 * order the build script adds them, and the ancestor closure a compiler sees:
 * a source set compiles together with everything it transitively depends on.
 */
module DependsOnGraph {
  import opened SourceSetNames

  /** `child.dependsOn(parent)`: the child sees the parent's declarations. */
  datatype Edge = Edge(child: SourceSet, parent: SourceSet)

  /** The direct parents of `s`. */
  function Parents(g: seq<Edge>, s: SourceSet): (r: set<SourceSet>)
    ensures forall p :: p in r <==> Edge(s, p) in g
  {
    set e | e in g && e.child == s :: e.parent
  }

  /** One round of closure: `frontier` plus the direct parents of its members. */
  function Step(g: seq<Edge>, frontier: set<SourceSet>): (r: set<SourceSet>)
    ensures frontier <= r
    ensures forall e :: e in g && e.child in frontier ==> e.parent in r
  {
    frontier + set e | e in g && e.child in frontier :: e.parent
  }

  /** Everything reachable from `start` along at most `n` edges. */
  function Closure(g: seq<Edge>, start: set<SourceSet>, n: nat): set<SourceSet>
    decreases n
  {
    if n == 0 then start else Closure(g, Step(g, start), n - 1)
  }

  /**
   * `s` and all its transitive parents. No path without repeated edges is longer
   * than `|g|`, so `|g|` rounds reach every ancestor.
   */
  function Ancestors(g: seq<Edge>, s: SourceSet): set<SourceSet> {
    Closure(g, {s}, |g|)
  }

  /** `p` is a walk along `g` from `p[0]` to its last element. */
  predicate IsPath(g: seq<Edge>, p: seq<SourceSet>)
    decreases |p|
  {
    |p| <= 1 || (Edge(p[0], p[1]) in g && IsPath(g, p[1..]))
  }

  /** No edge leaves the set `t`. */
  predicate Closed(g: seq<Edge>, t: set<SourceSet>) {
    forall e :: e in g && e.child in t ==> e.parent in t
  }

  /** Every edge goes from a higher rank to a strictly lower one. */
  predicate Ranked(g: seq<Edge>, rank: SourceSet -> nat) {
    forall e :: e in g ==> rank(e.parent) < rank(e.child)
  }

  /** The closure never loses what it started from. */
  lemma {:induction false} ClosureGrows(g: seq<Edge>, start: set<SourceSet>, n: nat)
    ensures start <= Closure(g, start, n)
    decreases n
  {
    if n > 0 {
      ClosureGrows(g, Step(g, start), n - 1);
    }
  }

  /** A property that holds of `start` and that every edge carries upward holds of the whole closure. */
  lemma {:induction false} ClosureKeeps(g: seq<Edge>, start: set<SourceSet>, keep: SourceSet -> bool, n: nat)
    requires forall x :: x in start ==> keep(x)
    requires forall e :: e in g && keep(e.child) ==> keep(e.parent)
    ensures forall x :: x in Closure(g, start, n) ==> keep(x)
    decreases n
  {
    if n > 0 {
      ClosureKeeps(g, Step(g, start), keep, n - 1);
    }
  }

  /** A closed set that holds the start holds its whole closure. */
  lemma ClosureWithin(g: seq<Edge>, start: set<SourceSet>, t: set<SourceSet>, n: nat)
    requires start <= t && Closed(g, t)
    ensures Closure(g, start, n) <= t
  {
    ClosureKeeps(g, start, x => x in t, n);
  }

  /** Every node of a walk from the start that is no longer than `n` lies in the closure. */
  lemma {:induction false} PathInClosure(g: seq<Edge>, p: seq<SourceSet>, start: set<SourceSet>, n: nat)
    requires IsPath(g, p) && |p| > 0 && p[0] in start && |p| - 1 <= n
    ensures forall k :: 0 <= k < |p| ==> p[k] in Closure(g, start, n)
    decreases n
  {
    ClosureGrows(g, start, n);
    if |p| > 1 {
      PathInClosure(g, p[1..], Step(g, start), n - 1);
      forall k | 1 <= k < |p| ensures p[k] in Closure(g, start, n) {
        assert p[k] == p[1..][k - 1];
      }
    }
  }

  /** In a ranked graph no source set is its own ancestor, along walks of any length. */
  lemma RankedAcyclic(g: seq<Edge>, rank: SourceSet -> nat, s: SourceSet, n: nat)
    requires Ranked(g, rank)
    ensures s !in Closure(g, Parents(g, s), n)
  {
    ClosureKeeps(g, Parents(g, s), x => rank(x) < rank(s), n);
  }
}
