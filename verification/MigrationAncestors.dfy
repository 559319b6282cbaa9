/** Collecting every migration below a revision, by a worklist that may meet the same revision many times. */
module MigrationAncestors {
  import opened Options

  type Revision = string

  /** A first migration, an ordinary one, or a merge. */
  datatype Down = Base | One(revision: Revision) | Merge(revisions: seq<Revision>)

  type Graph = map<Revision, Down>

  /** An empty down-revision counts as none. */
  function Downs(down: Down): seq<Revision> {
    match down
    case Base => []
    case One(r) => if r == "" then [] else [r]
    case Merge(rs) => rs
  }

  /** b is directly below a: its one down-revision, or one of those it merges. */
  predicate Link(graph: Graph, a: Revision, b: Revision) {
    a in graph && match graph[a]
                  case Base => false
                  case One(r) => b == r && r != ""
                  case Merge(rs) => b in rs
  }

  predicate Path(graph: Graph, p: seq<Revision>) {
    |p| > 0 && forall i :: 0 <= i < |p| - 1 ==> Link(graph, p[i], p[i + 1])
  }

  ghost predicate Reaches(graph: Graph, a: Revision, b: Revision) {
    exists p :: Path(graph, p) && p[0] == a && p[|p| - 1] == b
  }

  lemma ReachesItself(graph: Graph, a: Revision)
    ensures Reaches(graph, a, a)
  {
    assert Path(graph, [a]);
  }

  lemma ReachesOn(graph: Graph, a: Revision, b: Revision, c: Revision)
    requires Reaches(graph, a, b) && Link(graph, b, c)
    ensures Reaches(graph, a, c)
  {
    var p :| Path(graph, p) && p[0] == a && p[|p| - 1] == b;
    var longer := p + [c];
    assert Path(graph, longer) && longer[|longer| - 1] == c;
  }

  ghost predicate Closed(graph: Graph, visited: set<Revision>, pending: seq<Revision>) {
    forall a, b :: a in visited && Link(graph, a, b) ==> b in visited || b in pending
  }

  /** A closed set that holds the start of a path holds its end. */
  lemma {:induction false} PathStaysIn(graph: Graph, visited: set<Revision>, p: seq<Revision>)
    requires Path(graph, p) && p[0] in visited && Closed(graph, visited, [])
    ensures p[|p| - 1] in visited
  {
    if |p| > 1 {
      assert Link(graph, p[0], p[1]);
      var rest := p[1..];
      forall i | 0 <= i < |rest| - 1
        ensures Link(graph, rest[i], rest[i + 1])
      {
        assert Link(graph, p[i + 1], p[i + 2]);
      }
      PathStaysIn(graph, visited, rest);
    }
  }

  /** Exactly the revisions reachable through down-revision links, the start included; an error exactly when one of them is unknown. */
  method Ancestors(graph: Graph, revision: Revision) returns (result: Option<set<Revision>>)
    ensures result.Some? ==> forall r :: r in result.value <==> Reaches(graph, revision, r)
    ensures result.Some? <==> forall r :: Reaches(graph, revision, r) ==> r in graph
  {
    hide Path, Reaches;
    var visited: set<Revision> := {};
    var pending := [revision];
    ReachesItself(graph, revision);
    while pending != []
      invariant visited <= graph.Keys && (revision in visited || revision in pending)
      invariant forall r :: r in visited || r in pending ==> Reaches(graph, revision, r)
      invariant Closed(graph, visited, pending)
      decreases |graph.Keys - visited|, |pending|
    {
      var current := pending[|pending| - 1];
      ghost var before := pending;
      pending := pending[..|pending| - 1];
      assert before == pending + [current];
      if current in visited {
        continue;
      }
      if current !in graph {
        return None;
      }
      ghost var smaller := graph.Keys - (visited + {current});
      assert smaller < graph.Keys - visited by { assert current in graph.Keys - visited && current !in smaller; }
      Smaller(smaller, graph.Keys - visited);
      visited := visited + {current};
      forall r | r in Downs(graph[current])
        ensures Reaches(graph, revision, r)
      {
        ReachesOn(graph, revision, current, r);
      }
      pending := pending + Downs(graph[current]);
    }
    forall r | Reaches(graph, revision, r)
      ensures r in visited
    {
      Contained(graph, visited, revision, r);
    }
    result := Some(visited);
  }

  lemma Contained(graph: Graph, visited: set<Revision>, a: Revision, b: Revision)
    requires Reaches(graph, a, b) && a in visited && Closed(graph, visited, [])
    ensures b in visited
  {
    var p :| Path(graph, p) && p[0] == a && p[|p| - 1] == b;
    PathStaysIn(graph, visited, p);
  }

  lemma Smaller(a: set<Revision>, b: set<Revision>)
    requires a < b
    ensures |a| < |b|
  {
    var rest := b - a;
    assert b == a + rest && rest != {};
  }
}
