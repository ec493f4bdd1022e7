/** The dependency and conflict links between the services of one manager.

    Every service keeps, for each dependency name it lists, the set of services that satisfy
    it (`parents`), the set of services that may depend on it (`children`), and the set of
    services it conflicts with (`incompat`). */
module Linkage {

  /** The identity of a service object. */
  type Id = int

  datatype Links = Links(
    parents: map<Id, map<string, set<Id>>>,
    children: map<Id, set<Id>>,
    incompat: map<Id, set<Id>>)

  /** s is one of the providers linked for some dependency name of t. */
  ghost predicate DependsOn(parents: map<Id, map<string, set<Id>>>, t: Id, s: Id) {
    t in parents && exists k :: k in parents[t] && s in parents[t][k]
  }

  /** The shape every index has: one node set, `children` the inverse of `parents`, and
      `incompat` symmetric and irreflexive. */
  ghost predicate WellLinked(g: Links) {
    && g.parents.Keys == g.children.Keys == g.incompat.Keys
    && (forall t, k, s {:trigger s in g.parents[t][k]} ::
          t in g.parents && k in g.parents[t] && s in g.parents[t][k] ==> s in g.children && t in g.children[s])
    && (forall s, t {:trigger t in g.children[s]} ::
          s in g.children && t in g.children[s] ==> DependsOn(g.parents, t, s))
    && (forall s, t {:trigger t in g.incompat[s]} ::
          s in g.incompat && t in g.incompat[s] ==> s != t && t in g.incompat && s in g.incompat[t])
  }

  type Graph = g: Links | WellLinked(g) ghost witness Links(map[], map[], map[])

  /** Every dependency name of t has a provider in `live`. */
  ghost predicate Backed(parents: map<Id, map<string, set<Id>>>, live: set<Id>, t: Id) {
    t in parents && forall k :: k in parents[t] ==> HasProvider(parents, live, t, k)
  }

  ghost predicate HasProvider(parents: map<Id, map<string, set<Id>>>, live: set<Id>, t: Id, k: string)
    requires t in parents && k in parents[t]
  {
    exists d :: d in parents[t][k] && d in live
  }

  lemma BackedGrows(parents: map<Id, map<string, set<Id>>>, live: set<Id>, live': set<Id>, t: Id)
    requires Backed(parents, live, t) && live <= live'
    ensures Backed(parents, live', t)
  {
    forall k | k in parents[t] ensures HasProvider(parents, live', t, k) {
      assert HasProvider(parents, live, t, k);
    }
  }

  /** Whether t has its providers does not hang on s unless t is a child of s. */
  lemma StrangerStaysBacked(g: Graph, live: set<Id>, s: Id, t: Id)
    requires s in g.children && t !in g.children[s] && Backed(g.parents, live + {s}, t)
    ensures Backed(g.parents, live - {s}, t)
    ensures Backed(g.parents, live, t)
  {
    forall k | k in g.parents[t] ensures HasProvider(g.parents, live - {s}, t, k) {
      assert HasProvider(g.parents, live + {s}, t, k);
    }
    BackedGrows(g.parents, live - {s}, live, t);
  }

  lemma Outsider(a: set<Id>, b: set<Id>)
    ensures a <= b || exists d :: d in a && d !in b
  {
    if forall d :: d in a ==> d in b {
      assert a <= b;
    }
  }

  lemma Inhabited(s: set<Id>)
    ensures s == {} || exists x :: x in s
  {
    Outsider(s, {});
  }

  /** The order of map iteration is left open: the next element is any of those left. */
  method Next(todo: set<Id>) returns (i: Id)
    requires todo != {}
    ensures i in todo
  {
    Inhabited(todo);
    i :| i in todo;
  }

  method NextName(todo: set<string>) returns (k: string)
    requires todo != {}
    ensures k in todo
  {
    k :| k in todo;
  }

  /** done and todo are the two parts of s. */
  ghost predicate Splits(s: set<Id>, done: set<Id>, todo: set<Id>)
  {
    s == done + todo && done !! todo
  }

  lemma MoveOver(s: set<Id>, done: set<Id>, todo: set<Id>, t: Id)
    requires Splits(s, done, todo) && t in todo
    ensures t in s && t !in done && Splits(s, done + {t}, todo - {t})
  {
  }

  lemma AllDone(s: set<Id>, done: set<Id>)
    requires Splits(s, done, {})
    ensures done == s
  {
  }
}
