/** Directed graphs over step ids and the least set closed under their edges. */
module Closure {
  import opened FlowTypes

  type Graph = map<StepId, set<StepId>>

  function Next(g: Graph, id: StepId): set<StepId> {
    if id in g then g[id] else {}
  }

  ghost predicate Closed(g: Graph, s: set<StepId>) {
    forall a, b {:trigger b in Next(g, a)} :: b in Next(g, a) && a in s ==> b in s
  }

  /** `s` is the smallest set that holds `seed` and is closed under the edges of `g`. */
  ghost predicate LeastClosed(g: Graph, seed: set<StepId>, s: set<StepId>) {
    && seed <= s
    && Closed(g, s)
    && (forall t: set<StepId> :: seed <= t && Closed(g, t) ==> s <= t)
  }

  lemma LeastClosedUnique(g: Graph, seed: set<StepId>, s: set<StepId>, t: set<StepId>)
    requires LeastClosed(g, seed, s) && LeastClosed(g, seed, t)
    ensures s == t
  {
  }

  /** `space` holds every id with an edge out of it or into it. */
  ghost predicate Within(g: Graph, space: set<StepId>) {
    forall a :: a in g ==> a in space && g[a] <= space
  }

  ghost function Heads(g: Graph): set<StepId> {
    set a, b | a in g && b in g[a] :: b
  }

  /** Such a set exists around any extra ids. */
  lemma SpaceAround(g: Graph, extra: set<StepId>) returns (space: set<StepId>)
    ensures Within(g, space) && extra <= space
  {
    space := g.Keys + Heads(g) + extra;
    forall a | a in g ensures g[a] <= space {
      forall b | b in g[a] ensures b in space { assert b in Heads(g); }
    }
  }

  // ----- ranks and cycles ---------------------------------------------------------------

  /** Every edge goes strictly down in `rank`. */
  ghost predicate Ranked(g: Graph, rank: map<StepId, nat>) {
    forall a, b {:trigger b in Next(g, a)} :: b in Next(g, a) ==> a in rank && b in rank && rank[b] < rank[a]
  }

  /** Consecutive ids are joined by edges. */
  ghost predicate Walk(g: Graph, path: seq<StepId>) {
    forall i, j :: 0 <= i && j == i + 1 && j < |path| ==> path[j] in Next(g, path[i])
  }

  /** A closed walk with at least one edge. */
  ghost predicate IsCycle(g: Graph, path: seq<StepId>) {
    && |path| >= 2
    && path[0] == path[|path| - 1]
    && Walk(g, path)
  }

  /** Ranks fall along a walk. */
  lemma {:induction false} RankFalls(g: Graph, rank: map<StepId, nat>, path: seq<StepId>)
    requires Ranked(g, rank) && |path| >= 2 && Walk(g, path)
    ensures path[0] in rank && path[|path| - 1] in rank
    ensures rank[path[|path| - 1]] < rank[path[0]]
  {
    var n := |path|;
    assert path[n - 1] in Next(g, path[n - 2]);
    if n > 2 {
      var rest := path[..n - 1];
      forall i, j | 0 <= i && j == i + 1 && j < |rest| ensures rest[j] in Next(g, rest[i]) {
        assert path[j] in Next(g, path[i]);
      }
      RankFalls(g, rank, rest);
    }
  }

  lemma RankedHasNoCycle(g: Graph, rank: map<StepId, nat>)
    requires Ranked(g, rank)
    ensures forall path :: !IsCycle(g, path)
  {
    forall path | IsCycle(g, path) ensures false {
      RankFalls(g, rank, path);
    }
  }

  // ----- worklists ----------------------------------------------------------------------

  function Elems(xs: seq<StepId>): set<StepId> {
    set x | x in xs
  }

  lemma ElemsPop(xs: seq<StepId>)
    requires xs != []
    ensures Elems(xs) == Elems(xs[..|xs| - 1]) + {xs[|xs| - 1]}
  {
    var n := |xs| - 1;
    assert xs == xs[..n] + [xs[n]];
  }

  lemma ElemsAppend(xs: seq<StepId>, ys: seq<StepId>, s: set<StepId>)
    requires forall y :: y in ys <==> y in s
    ensures Elems(xs + ys) == Elems(xs) + s
  {
  }

  /** Nothing in `xs` lies outside any closed set around `seed`. */
  ghost predicate Inside(g: Graph, seed: set<StepId>, xs: set<StepId>) {
    forall t: set<StepId> :: seed <= t && Closed(g, t) ==> xs <= t
  }

  /** The invariant of a worklist: `result` is finished, `todo` is what it still leads to. */
  ghost predicate Pending(g: Graph, seed: set<StepId>, result: set<StepId>, todo: set<StepId>) {
    && seed <= result + todo
    && (forall a, b {:trigger b in Next(g, a)} :: b in Next(g, a) && a in result ==> b in result + todo)
    && Inside(g, seed, result + todo)
  }

  lemma PendingStart(g: Graph, start: StepId)
    ensures Elems([start]) == {start}
    ensures Pending(g, {start}, {}, Elems([start]))
  {
  }

  /** Taking one id off the worklist keeps the invariant, whether it is new or a duplicate. */
  lemma PendingStep(g: Graph, seed: set<StepId>, result: set<StepId>, todo: set<StepId>, node: StepId,
                    todo': set<StepId>)
    requires Pending(g, seed, result, todo)
    requires node in todo && todo <= todo' + {node}
    ensures node in result && todo' <= todo ==> Pending(g, seed, result, todo')
    ensures Next(g, node) <= todo' <= todo + Next(g, node) ==> Pending(g, seed, result + {node}, todo')
  {
    if Next(g, node) <= todo' <= todo + Next(g, node) {
      forall t: set<StepId> | seed <= t && Closed(g, t) ensures result + {node} + todo' <= t {
        assert result + todo <= t;
      }
      forall a, b | a in result + {node} && b in Next(g, a) ensures b in result + {node} + todo' {
        if a in result { assert b in result + todo; }
      }
    }
    if node in result && todo' <= todo {
      assert result + todo' == result + todo;
    }
  }

  /** An empty worklist leaves the least closed set. */
  lemma PendingDone(g: Graph, seed: set<StepId>, result: set<StepId>)
    requires Pending(g, seed, result, Elems([]))
    ensures LeastClosed(g, seed, result)
  {
    assert result + Elems([]) == result;
  }
}
