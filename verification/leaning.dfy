/** A service may lean, for a while, on a provider that is being stopped: a run of operations in which
    one does. Of two services that depend on the one disabled, one is stopped before the other. */
module Leaning {
  import opened Linkage
  import opened Names
  import opened Indexing
  import opened Traces
  import opened Supervision
  import opened Stopping
  import opened Operations
  import opened Membership
  import opened Acyclicity
  import opened History
  import opened Runs

  /** With acyclic links, t is up while s is being stopped, does not depend on it, and has no live
      provider: it waits for its own stop. */
  ghost predicate Leans(tr: seq<Event>, t: Id, s: Id, stack: seq<Id>, live: set<Id>) {
    && Acyclic(Parents(tr)) && t in Up(tr) && t != s && t !in stack
    && !DependsOn(Parents(tr), t, s) && Awaits(Parents(tr), stack, t) && !Backed(Parents(tr), live, t)
  }

  const BASE := Attr("a", [], [], [])
  const FIRST := Attr("b", [], ["a"], [])
  const SECOND := Attr("c", [], ["a"], [])
  const FORK: map<Id, Attr> := map[][1 := BASE][2 := FIRST][3 := SECOND]
  const PRONG: map<string, set<Id>> := map["a" := {1}]

  lemma OnlyBaseAnswers()
    ensures Answers(FIRST, BASE, "a") && Answers(SECOND, BASE, "a")
    ensures !AnyMatch(FIRST.depends, SECOND) && !AnyMatch(SECOND.depends, FIRST)
  {
    MatchMeaning("a", "a");
    MatchMeaning("a", "b");
    MatchMeaning("a", "c");
    assert FIRST.depends[0] == "a" && SECOND.depends[0] == "a";
  }

  lemma ForkParents()
    ensures AllParents(FORK, 1) == map[] && AllParents(FORK, 2) == PRONG && AllParents(FORK, 3) == PRONG
  {
    OnlyBaseAnswers();
    assert AllSuppliers(FORK, 2, "a") == {1} && AllSuppliers(FORK, 3, "a") == {1};
  }

  lemma ForkChildren()
    ensures AllChildren(FORK, 1) == {2, 3} && AllChildren(FORK, 2) == {} && AllChildren(FORK, 3) == {}
  {
    OnlyBaseAnswers();
  }

  lemma ForkConflicts()
    ensures AllIncompat(FORK, 1) == {} && AllIncompat(FORK, 2) == {} && AllIncompat(FORK, 3) == {}
  {
    assert forall t :: t in FORK ==> FORK[t].conflicts == [];
  }

  /** The links of the three. */
  ghost predicate Fork(g: Links) {
    && g.parents.Keys == {1, 2, 3} && g.parents[1] == map[] && g.parents[2] == PRONG && g.parents[3] == PRONG
    && g.children.Keys == {1, 2, 3} && g.children[1] == {2, 3} && g.children[2] == {} && g.children[3] == {}
    && g.incompat.Keys == {1, 2, 3} && g.incompat[1] == {} && g.incompat[2] == {} && g.incompat[3] == {}
  }

  lemma ForkLinks()
    ensures Fork(Index(FORK))
  {
    ForkParents();
    ForkChildren();
    ForkConflicts();
    assert FORK.Keys == {1, 2, 3};
  }

  lemma WhoIsBacked(g: Links, live: set<Id>)
    requires Fork(g)
    ensures Backed(g.parents, live, 1)
    ensures Backed(g.parents, live, 2) <==> 1 in live
    ensures Backed(g.parents, live, 3) <==> 1 in live
  {
    assert PRONG["a"] == {1};
    assert HasProvider(g.parents, live, 2, "a") <==> 1 in live;
    assert HasProvider(g.parents, live, 3, "a") <==> 1 in live;
  }

  lemma WhoDependsOnWhom(g: Links)
    requires Fork(g)
    ensures DependsOn(g.parents, 3, 1) && !DependsOn(g.parents, 3, 2)
    ensures Awaits(g.parents, [1], 3)
  {
    assert 1 in g.parents[3]["a"];
    assert [1][0] == 1;
  }

  lemma NobodyWithin(g: Graph, c: set<Id>, t: Id)
    requires Fork(g) && 1 !in c
    ensures !DependsWithin(g.parents, t, c)
  {
    assert t == 2 || t == 3 ==> forall k :: k in g.parents[t] ==> g.parents[t][k] == {1};
  }

  lemma ForkIsAcyclic(g: Graph)
    requires Fork(g)
    ensures Acyclic(g.parents)
  {
    forall c | Circular(g.parents, c) ensures c == {} {
      assert !DependsWithin(g.parents, 1, c);
      assert 1 !in c;
      forall t ensures !DependsWithin(g.parents, t, c) {
        NobodyWithin(g, c, t);
      }
      Inhabited(c);
    }
    AcyclicMeansNoCycle(g);
  }

  /** The flags of the three. */
  ghost predicate Three(v: SoundView, f1: Flags, f2: Flags, f3: Flags) {
    && Fork(v.g) && v.attrs == FORK
    && v.st.Keys == {1, 2, 3} && v.st[1] == f1 && v.st[2] == f2 && v.st[3] == f3
  }

  lemma BaseRaised(v: SoundView) returns (u1: SoundView)
    requires Settled(v) && Three(v, DOWN, DOWN, DOWN)
    ensures Does(v, EnableOp(1), u1) && Settled(u1) && Three(u1, UP, DOWN, DOWN)
  {
    assert LiveSet(v.st) == {};
    WhoIsBacked(v.g, {});
    u1 := Raised(v, 1);
  }

  lemma OthersRaised(u1: SoundView) returns (u2: SoundView, u: SoundView)
    requires Settled(u1) && Three(u1, UP, DOWN, DOWN)
    ensures Does(u1, EnableOp(2), u2) && Does(u2, EnableOp(3), u) && Settled(u) && Three(u, UP, UP, UP)
  {
    assert LiveSet(u1.st) == {1};
    WhoIsBacked(u1.g, {1});
    u2 := Raised(u1, 2);
    assert LiveSet(u2.st) == {1, 2};
    WhoIsBacked(u1.g, {1, 2});
    u := Raised(u2, 3);
  }

  /** The first child of a service being stopped goes down while the second still leans on it. */
  lemma FirstFelled(w: SoundView, v1: SoundView) returns (v2: SoundView)
    requires Three(v1, Flags(false, true, true, false, false), UP, UP)
    requires Stoppable(w, 1, []) && StopLoop(w, v1, 1, {2, 3}) && w.g.children[1] == {2, 3}
    ensures Three(v2, Flags(false, true, true, false, false), WAITING, UP) && StopLoop(w, v2, 1, {3})
    ensures v2.trace == v1.trace + [Stop(2, [1], {3})]
  {
    assert LiveSet(v1.st) == {2, 3};
    WhoIsBacked(v1.g, {2, 3});
    v2 := ChildFelled(w, v1, 1, 2, {2, 3});
    assert {2, 3} - {2} == {3};
  }

  lemma SecondFelled(w: SoundView, v2: SoundView) returns (v3: SoundView)
    requires Three(v2, Flags(false, true, true, false, false), WAITING, UP)
    requires Stoppable(w, 1, []) && StopLoop(w, v2, 1, {3}) && w.g.children[1] == {2, 3}
    ensures Three(v3, Flags(false, true, true, false, false), WAITING, WAITING) && StopLoop(w, v3, 1, {})
    ensures v3.trace == v2.trace + [Stop(3, [1], {})]
  {
    assert LiveSet(v2.st) == {3};
    WhoIsBacked(v2.g, {3});
    v3 := ChildFelled(w, v2, 1, 3, {3});
    assert LiveSet(v2.st) - {3} == {} && {3} - {3} == {};
  }

  lemma NobodyLive(v: SoundView)
    requires Three(v, Flags(false, true, true, false, false), WAITING, WAITING)
    ensures LiveSet(v.st) == {}
  {
  }

  lemma AllFelled(u: SoundView) returns (w: SoundView)
    requires Settled(u) && Three(u, UP, UP, UP)
    ensures Does(u, DisableOp(1), w)
    ensures w.trace == u.trace + [Pardon(1)] + [Stop(2, [1], {3})] + [Stop(3, [1], {})] + [Stop(1, [], {})]
  {
    var w0, v1 := Leaned(u, 1);
    var v2 := FirstFelled(w0, v1);
    var v3 := SecondFelled(w0, v2);
    NobodyLive(v3);
    w := Felled(u, w0, v3, 1);
  }

  lemma RaisingRun(v: SoundView) returns (u: SoundView)
    requires Settled(v) && Three(v, DOWN, DOWN, DOWN)
    ensures Leads(v, [EnableOp(1)] + [EnableOp(2)] + [EnableOp(3)], u) && Settled(u) && Three(u, UP, UP, UP)
  {
    var u1 := BaseRaised(v);
    var u2;
    u2, u := OthersRaised(u1);
    OneOp(v, EnableOp(1), u1);
    OneMoreOp(v, [EnableOp(1)], u1, EnableOp(2), u2);
    OneMoreOp(v, [EnableOp(1)] + [EnableOp(2)], u2, EnableOp(3), u);
  }

  lemma UpToTheStop(u: SoundView, w: SoundView, e: Event, e2: Event, e3: Event)
    requires w.trace == u.trace + [Pardon(1)] + [e] + [e2] + [e3]
    ensures SafeTrace(u.trace + [Pardon(1)] + [e])
    ensures Up(u.trace + [Pardon(1)]) == Running(u.st) && Parents(u.trace + [Pardon(1)]) == u.g.parents
  {
    Called(u);
    Called(w);
    var tr := u.trace + [Pardon(1)];
    SafePrefix(w.trace, |tr| + 1);
    assert w.trace[..|tr| + 1] == tr + [e];
    OneMoreEvent(u.trace, Pardon(1), 1);
  }

  lemma ThirdLeans(u: SoundView, w: SoundView)
    requires Three(u, UP, UP, UP)
    requires w.trace == u.trace + [Pardon(1)] + [Stop(2, [1], {3})] + [Stop(3, [1], {})] + [Stop(1, [], {})]
    ensures SafeTrace(u.trace + [Pardon(1)] + [Stop(2, [1], {3})])
    ensures Leans(u.trace + [Pardon(1)], 3, 2, [1], {3})
  {
    UpToTheStop(u, w, Stop(2, [1], {3}), Stop(3, [1], {}), Stop(1, [], {}));
    WhoDependsOnWhom(u.g);
    WhoIsBacked(u.g, {3});
    ForkIsAcyclic(u.g);
  }

  /** Two services need a third. They are added to an empty manager and enabled, and the third is
      disabled. When the first of the two is stopped, the second is up, does not depend on the first,
      and has no live provider: the one it leans on is being stopped, and its own stop comes next. */
  lemma OneLeansOnTheStopped() returns (v: SoundView, u: SoundView, w: SoundView, tr: seq<Event>)
    ensures Leads(EmptyView(0), [AddOp(1, BASE)] + [AddOp(2, FIRST)] + [AddOp(3, SECOND)], v)
    ensures Leads(v, [EnableOp(1)] + [EnableOp(2)] + [EnableOp(3)], u) && Does(u, DisableOp(1), w)
    ensures w.trace == tr + [Stop(2, [1], {3})] + [Stop(3, [1], {})] + [Stop(1, [], {})]
    ensures SafeTrace(tr + [Stop(2, [1], {3})]) && Leans(tr, 3, 2, [1], {3})
  {
    v := ThreeAdded(BASE, FIRST, SECOND);
    ForkLinks();
    u := RaisingRun(v);
    w := AllFelled(u);
    tr := u.trace + [Pardon(1)];
    ThirdLeans(u, w);
  }
}
