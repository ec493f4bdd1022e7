/** Dependency graphs without cycles, and the one running set each of them allows. */
module Acyclicity {
  import opened Linkage

  /** The services not in `done` all of whose providers are. */
  ghost function Layer(parents: map<Id, map<string, set<Id>>>, done: set<Id>): set<Id> {
    set t | t in parents && t !in done && ProvidersIn(parents, t, done)
  }

  ghost predicate ProvidersIn(parents: map<Id, map<string, set<Id>>>, t: Id, done: set<Id>)
    requires t in parents
  {
    forall k :: k in parents[t] ==> parents[t][k] <= done
  }

  /** Takes off layer after layer for as long as there is one. */
  ghost function Peel(parents: map<Id, map<string, set<Id>>>, done: set<Id>): set<Id>
    decreases parents.Keys - done
  {
    var layer := Layer(parents, done);
    if layer == {} then done
    else
      assert parents.Keys - (done + layer) < parents.Keys - done by {
        LayerIsNew(parents, done);
      }
      Peel(parents, done + layer)
  }

  lemma LayerIsNew(parents: map<Id, map<string, set<Id>>>, done: set<Id>)
    requires Layer(parents, done) != {}
    ensures parents.Keys - (done + Layer(parents, done)) < parents.Keys - done
  {
    var layer := Layer(parents, done);
    assert layer <= parents.Keys - done;
    assert parents.Keys - (done + layer) == (parents.Keys - done) - layer;
    assert (parents.Keys - done) * layer == layer;
  }

  /** Peeling reaches every service. */
  ghost predicate Acyclic(parents: map<Id, map<string, set<Id>>>) {
    parents.Keys <= Peel(parents, {})
  }

  /** A set in which every member depends on some member: a cycle, or several. */
  ghost predicate Circular(parents: map<Id, map<string, set<Id>>>, c: set<Id>) {
    forall t :: t in c ==> DependsWithin(parents, t, c)
  }

  ghost predicate DependsWithin(parents: map<Id, map<string, set<Id>>>, t: Id, c: set<Id>) {
    t in parents && exists d :: d in c && DependsOn(parents, t, d)
  }

  lemma {:induction false} PeelMissesCycles(parents: map<Id, map<string, set<Id>>>, done: set<Id>, c: set<Id>)
    requires Circular(parents, c) && c !! done
    ensures c !! Peel(parents, done)
    decreases parents.Keys - done
  {
    var layer := Layer(parents, done);
    if layer != {} {
      LayerIsNew(parents, done);
      forall t | t in c ensures t !in layer {
        assert DependsWithin(parents, t, c);
        var d :| d in c && DependsOn(parents, t, d);
        assert d !in done;
      }
      PeelMissesCycles(parents, done + layer, c);
    }
  }

  lemma {:induction false} PeelStops(parents: map<Id, map<string, set<Id>>>, done: set<Id>)
    ensures Layer(parents, Peel(parents, done)) == {}
    decreases parents.Keys - done
  {
    var layer := Layer(parents, done);
    if layer != {} {
      LayerIsNew(parents, done);
      PeelStops(parents, done + layer);
    }
  }

  lemma MembersAreManaged(parents: map<Id, map<string, set<Id>>>, c: set<Id>)
    requires Circular(parents, c)
    ensures c <= parents.Keys
  {
    forall t | t in c ensures t in parents {
      assert DependsWithin(parents, t, c);
    }
  }

  /** Peeling decides acyclicity: it reaches every service exactly when no non-empty set of
      services depends on itself. */
  lemma AcyclicMeansNoCycle(g: Graph)
    ensures Acyclic(g.parents) <==> forall c :: Circular(g.parents, c) ==> c == {}
  {
    var rest := g.parents.Keys - Peel(g.parents, {});
    PeelStops(g.parents, {});
    forall t | t in rest ensures DependsWithin(g.parents, t, rest) {
      assert t !in Layer(g.parents, Peel(g.parents, {}));
      var k :| k in g.parents[t] && !(g.parents[t][k] <= Peel(g.parents, {}));
      Outsider(g.parents[t][k], Peel(g.parents, {}));
      var d :| d in g.parents[t][k] && d !in Peel(g.parents, {});
      assert DependsOn(g.parents, t, d);
    }
    assert Circular(g.parents, rest);
    forall c | Circular(g.parents, c) && Acyclic(g.parents) ensures c == {} {
      MembersAreManaged(g.parents, c);
      PeelMissesCycles(g.parents, {}, c);
    }
  }

  // ---------------------------------------------------------------- the running set

  /** r runs exactly the members of e whose every dependency name has a provider in r. */
  ghost predicate IsFixpoint(parents: map<Id, map<string, set<Id>>>, e: set<Id>, r: set<Id>) {
    forall t {:trigger FixedAt(parents, e, r, t)} :: FixedAt(parents, e, r, t)
  }

  ghost predicate FixedAt(parents: map<Id, map<string, set<Id>>>, e: set<Id>, r: set<Id>, t: Id) {
    t in r <==> t in e && Backed(parents, r, t)
  }

  lemma {:induction false} FixpointsAgree(
    parents: map<Id, map<string, set<Id>>>, e: set<Id>, r1: set<Id>, r2: set<Id>, done: set<Id>)
    requires IsFixpoint(parents, e, r1) && IsFixpoint(parents, e, r2)
    requires r1 * done == r2 * done
    ensures r1 * Peel(parents, done) == r2 * Peel(parents, done)
    decreases parents.Keys - done
  {
    var layer := Layer(parents, done);
    if layer != {} {
      LayerIsNew(parents, done);
      forall t | t in layer ensures t in r1 <==> t in r2 {
        assert FixedAt(parents, e, r1, t) && FixedAt(parents, e, r2, t);
        SameProviders(parents, r1, r2, done, t);
        SameProviders(parents, r2, r1, done, t);
      }
      forall t | t in done ensures t in r1 <==> t in r2 {
        assert t in r1 * done <==> t in r2 * done;
      }
      FixpointsAgree(parents, e, r1, r2, done + layer);
    }
  }

  lemma SameProviders(parents: map<Id, map<string, set<Id>>>, r1: set<Id>, r2: set<Id>, done: set<Id>, t: Id)
    requires t in parents && ProvidersIn(parents, t, done) && r1 * done == r2 * done
    ensures Backed(parents, r1, t) ==> Backed(parents, r2, t)
  {
    if Backed(parents, r1, t) {
      forall k | k in parents[t] ensures HasProvider(parents, r2, t, k) {
        assert HasProvider(parents, r1, t, k);
        var d :| d in parents[t][k] && d in r1;
        assert d in r1 * done;
      }
    }
  }

  /** In an acyclic graph the running set is determined by the graph and by which services may
      start: no history and no order of visits can show in it. */
  lemma OneRunningSet(parents: map<Id, map<string, set<Id>>>, e: set<Id>, r1: set<Id>, r2: set<Id>)
    requires Acyclic(parents) && IsFixpoint(parents, e, r1) && IsFixpoint(parents, e, r2)
    ensures r1 == r2
  {
    FixpointsAgree(parents, e, r1, r2, {});
    forall t ensures t in r1 <==> t in r2 {
      assert FixedAt(parents, e, r1, t) && FixedAt(parents, e, r2, t);
      assert t in r1 * Peel(parents, {}) <==> t in r2 * Peel(parents, {});
    }
  }

  // ---------------------------------------------------------------- on every graph

  /** The members of e that r gives a provider for each of their dependency names. */
  ghost function Supported(parents: map<Id, map<string, set<Id>>>, e: set<Id>, r: set<Id>): set<Id> {
    set t | t in e && Backed(parents, r, t)
  }

  lemma SupportGrows(parents: map<Id, map<string, set<Id>>>, e: set<Id>, r: set<Id>, r': set<Id>)
    requires r <= r'
    ensures Supported(parents, e, r) <= Supported(parents, e, r')
  {
    forall t | t in Supported(parents, e, r) ensures Backed(parents, r', t) {
      BackedGrows(parents, r, r', t);
    }
  }

  lemma FixpointIsSupported(parents: map<Id, map<string, set<Id>>>, e: set<Id>, r: set<Id>)
    ensures IsFixpoint(parents, e, r) <==> Supported(parents, e, r) == r
  {
    if IsFixpoint(parents, e, r) {
      forall t ensures t in Supported(parents, e, r) <==> t in r {
        assert FixedAt(parents, e, r, t);
      }
    }
    if Supported(parents, e, r) == r {
      forall t ensures FixedAt(parents, e, r, t) {
        assert t in Supported(parents, e, r) <==> t in r;
      }
    }
  }

  /** The services that can be started one after the other, beginning with those that need nobody. */
  ghost function Founded(parents: map<Id, map<string, set<Id>>>, e: set<Id>, r: set<Id>): set<Id>
    decreases e - r
  {
    var more := Supported(parents, e, r) - r;
    if more == {} then r
    else
      assert e - (r + more) < e - r by {
        assert e - (r + more) == (e - r) - more && (e - r) * more == more;
      }
      Founded(parents, e, r + more)
  }

  /** The services that can hold on to one another: what is left when those without support have
      been taken away again and again. */
  ghost function Sustained(parents: map<Id, map<string, set<Id>>>, e: set<Id>, r: set<Id>): set<Id>
    decreases r
  {
    var kept := r * Supported(parents, e, r);
    if kept == r then r else Sustained(parents, e, kept)
  }

  lemma {:induction false} FoundedIsLeast(parents: map<Id, map<string, set<Id>>>, e: set<Id>, r: set<Id>, f: set<Id>)
    requires IsFixpoint(parents, e, f) && r <= f
    ensures Founded(parents, e, r) <= f
    decreases e - r
  {
    FixpointIsSupported(parents, e, f);
    SupportGrows(parents, e, r, f);
    var more := Supported(parents, e, r) - r;
    if more != {} {
      assert e - (r + more) == (e - r) - more && (e - r) * more == more;
      FoundedIsLeast(parents, e, r + more, f);
    }
  }

  lemma {:induction false} FoundedIsFixpoint(parents: map<Id, map<string, set<Id>>>, e: set<Id>, r: set<Id>)
    requires r <= Supported(parents, e, r)
    ensures IsFixpoint(parents, e, Founded(parents, e, r))
    decreases e - r
  {
    var more := Supported(parents, e, r) - r;
    if more == {} {
      assert Supported(parents, e, r) == r;
      FixpointIsSupported(parents, e, r);
    } else {
      assert e - (r + more) == (e - r) - more && (e - r) * more == more;
      SupportGrows(parents, e, r, r + more);
      FoundedIsFixpoint(parents, e, r + more);
    }
  }

  lemma {:induction false} SustainedIsGreatest(
    parents: map<Id, map<string, set<Id>>>, e: set<Id>, r: set<Id>, f: set<Id>)
    requires IsFixpoint(parents, e, f) && f <= r && Supported(parents, e, r) <= r
    ensures f <= Sustained(parents, e, r) && IsFixpoint(parents, e, Sustained(parents, e, r))
    decreases r
  {
    FixpointIsSupported(parents, e, f);
    SupportGrows(parents, e, f, r);
    var kept := r * Supported(parents, e, r);
    if kept == r {
      assert Supported(parents, e, r) == r;
      FixpointIsSupported(parents, e, r);
    } else {
      SupportGrows(parents, e, kept, r);
      SustainedIsGreatest(parents, e, kept, f);
    }
  }

  /** The running sets that are consistent with the startable services e lie between these two. */
  ghost function Least(parents: map<Id, map<string, set<Id>>>, e: set<Id>): set<Id> {
    Founded(parents, e, {})
  }

  ghost function Greatest(parents: map<Id, map<string, set<Id>>>, e: set<Id>): set<Id> {
    Sustained(parents, e, e)
  }

  lemma BetweenLeastAndGreatest(parents: map<Id, map<string, set<Id>>>, e: set<Id>, r: set<Id>)
    requires IsFixpoint(parents, e, r)
    ensures Least(parents, e) <= r <= Greatest(parents, e)
    ensures IsFixpoint(parents, e, Least(parents, e)) && IsFixpoint(parents, e, Greatest(parents, e))
  {
    FoundedIsFixpoint(parents, e, {});
    FoundedIsLeast(parents, e, {}, r);
    forall t | t in r ensures t in e {
      assert FixedAt(parents, e, r, t);
    }
    SustainedIsGreatest(parents, e, e, r);
  }

  /** For given startable services the running set is determined, whatever the graph, exactly if no
      services can hold on to one another that could not have been started one after the other. */
  lemma DeterminedExactlyWhen(parents: map<Id, map<string, set<Id>>>, e: set<Id>)
    ensures (forall r1, r2 :: IsFixpoint(parents, e, r1) && IsFixpoint(parents, e, r2) ==> r1 == r2)
            <==> Least(parents, e) == Greatest(parents, e)
  {
    FoundedIsFixpoint(parents, e, {});
    BetweenLeastAndGreatest(parents, e, Least(parents, e));
    forall r1, r2 |
      IsFixpoint(parents, e, r1) && IsFixpoint(parents, e, r2) && Least(parents, e) == Greatest(parents, e)
      ensures r1 == r2
    {
      BetweenLeastAndGreatest(parents, e, r1);
      BetweenLeastAndGreatest(parents, e, r2);
    }
  }
}
