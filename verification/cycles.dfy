/** On a cyclic graph what runs can depend on the past: two runs of operations on three services, with
    the same services enabled in the end, nobody at fault, and different services running. */
module Cycles {
  import opened Linkage
  import opened Names
  import opened Indexing
  import opened Traces
  import opened Supervision
  import opened Operations
  import opened Membership
  import opened Acyclicity
  import opened Outcomes
  import opened Runs

  // The first service needs an x, of which there are two; the second is one of them, and needs the
  // first; the third is the other.
  const NEEDS_X := Attr("y", [], ["x"], [])
  const FIRST_X := Attr("x:2", [], ["y"], [])
  const OTHER_X := Attr("x:3", [], [], [])
  const THREE: map<Id, Attr> := map[1 := NEEDS_X, 2 := FIRST_X, 3 := OTHER_X]

  lemma WhoAnswers()
    ensures Answers(NEEDS_X, FIRST_X, "x") && Answers(NEEDS_X, OTHER_X, "x") && Answers(FIRST_X, NEEDS_X, "y")
    ensures !Answers(FIRST_X, OTHER_X, "y")
  {
    MatchMeaning("x", "x:2");
    MatchMeaning("x", "x:3");
    MatchMeaning("y", "y");
    MatchMeaning("y", "x:3");
    assert "x" + ":" <= "x:2" && "x" + ":" <= "x:3";
    assert NEEDS_X.depends[0] == "x" && FIRST_X.depends[0] == "y";
  }

  lemma ThreeSuppliers()
    ensures AllSuppliers(THREE, 1, "x") == {2, 3} && AllSuppliers(THREE, 2, "y") == {1}
  {
    WhoAnswers();
  }

  lemma ThreeParents()
    ensures AllParents(THREE, 1) == map["x" := {2, 3}] && AllParents(THREE, 2) == map["y" := {1}]
    ensures AllParents(THREE, 3) == map[]
  {
    ThreeSuppliers();
  }

  const RING: map<Id, map<string, set<Id>>> := map[1 := map["x" := {2, 3}], 2 := map["y" := {1}], 3 := map[]]

  /** The links of the three. */
  ghost predicate Ring(g: Links) {
    && g.parents == RING
    && g.children.Keys == {1, 2, 3} && g.children[1] == {2} && g.children[2] == {1} && g.children[3] == {1}
    && g.incompat.Keys == {1, 2, 3} && g.incompat[1] == {} && g.incompat[2] == {} && g.incompat[3] == {}
  }

  lemma ThreeConflicts()
    ensures AllIncompat(THREE, 1) == {} && AllIncompat(THREE, 2) == {} && AllIncompat(THREE, 3) == {}
  {
    assert forall t :: t in THREE ==> THREE[t].conflicts == [];
  }

  lemma ThreeChildren()
    ensures AllChildren(THREE, 1) == {2} && AllChildren(THREE, 2) == {1} && AllChildren(THREE, 3) == {1}
  {
    WhoAnswers();
  }

  lemma ThreeAreARing()
    ensures Index(THREE).parents == RING
  {
    ThreeParents();
  }

  lemma ThreeLinks()
    ensures Ring(Index(THREE))
  {
    ThreeAreARing();
    ThreeChildren();
    ThreeConflicts();
    assert THREE.Keys == {1, 2, 3};
  }

  lemma RingIsCircular()
    ensures Circular(RING, {1, 2})
  {
    assert 2 in RING[1]["x"] && 1 in RING[2]["y"];
    assert DependsOn(RING, 1, 2) && DependsOn(RING, 2, 1);
    assert DependsWithin(RING, 1, {1, 2}) && DependsWithin(RING, 2, {1, 2});
  }

  lemma RingIsACycle()
    ensures !Acyclic(RING)
  {
    RingIsCircular();
    PeelMissesCycles(RING, {}, {1, 2});
    assert 1 in {1, 2} && 1 in RING;
  }

  lemma WhoIsBacked(live: set<Id>)
    ensures Backed(RING, live, 1) <==> 2 in live || 3 in live
    ensures Backed(RING, live, 2) <==> 1 in live
    ensures Backed(RING, live, 3)
  {
    assert RING[1]["x"] == {2, 3} && RING[2]["y"] == {1};
    assert HasProvider(RING, live, 1, "x") <==> 2 in live || 3 in live;
    assert HasProvider(RING, live, 2, "y") <==> 1 in live;
  }

  // ---------------------------------------------------------------- the steps

  /** The flags of the three, between operations. */
  ghost predicate Three(v: SoundView, f1: Flags, f2: Flags, f3: Flags) {
    && Settled(v) && Ring(v.g) && v.attrs == THREE
    && v.st.Keys == {1, 2, 3} && v.st[1] == f1 && v.st[2] == f2 && v.st[3] == f3
  }

  lemma BothInVain(v: SoundView) returns (a1: SoundView, a2: SoundView)
    requires Three(v, DOWN, DOWN, DOWN)
    ensures Does(v, EnableOp(1), a1) && Does(a1, EnableOp(2), a2) && Three(a2, WAITING, WAITING, DOWN)
  {
    WhoIsBacked({});
    assert LiveSet(v.st) == {};
    a1 := RaisedInVain(v, 1);
    assert LiveSet(a1.st) == {};
    a2 := RaisedInVain(a1, 2);
  }

  lemma OtherRaised(v: SoundView) returns (w: SoundView)
    requires Three(v, DOWN, DOWN, DOWN)
    ensures Does(v, EnableOp(3), w) && Three(w, DOWN, DOWN, UP)
    ensures w.trace == v.trace + [Recount(3), Start(3, 0, {}, true)]
  {
    assert LiveSet(v.st) == {};
    WhoIsBacked({});
    w := Raised(v, 3);
  }

  lemma NeedyRaised(v: SoundView) returns (w: SoundView)
    requires Three(v, DOWN, DOWN, UP)
    ensures Does(v, EnableOp(1), w) && Three(w, UP, DOWN, UP)
    ensures w.trace == v.trace + [Recount(1), Start(1, 0, {3}, true)]
  {
    assert LiveSet(v.st) == {3};
    WhoIsBacked({3});
    w := Raised(v, 1);
  }

  lemma FirstRaised(v: SoundView) returns (w: SoundView)
    requires Three(v, UP, DOWN, UP)
    ensures Does(v, EnableOp(2), w) && Three(w, UP, UP, UP)
    ensures w.trace == v.trace + [Recount(2), Start(2, 0, {1, 3}, true)]
  {
    assert LiveSet(v.st) == {1, 3};
    WhoIsBacked({1, 3});
    w := Raised(v, 2);
  }

  /** The third is disabled: the others hold on to each other. */
  lemma OtherLowered(v: SoundView) returns (w: SoundView)
    requires Three(v, UP, UP, UP)
    ensures Does(v, DisableOp(3), w) && Three(w, UP, UP, DOWN)
    ensures w.trace == v.trace + [Pardon(3)] + [Stop(3, [], {1, 2})]
  {
    assert LiveSet(v.st) - {3} == {1, 2};
    WhoIsBacked({1, 2});
    w := Runs.Lowered(v, 3);
  }

  // ---------------------------------------------------------------- the two runs

  lemma ShortRun(v: SoundView) returns (a: SoundView)
    requires Three(v, DOWN, DOWN, DOWN)
    ensures Leads(v, [EnableOp(1)] + [EnableOp(2)], a) && Three(a, WAITING, WAITING, DOWN)
  {
    var a1;
    a1, a := BothInVain(v);
    OneOp(v, EnableOp(1), a1);
    OneMoreOp(v, [EnableOp(1)], a1, EnableOp(2), a);
  }

  /** What is on record of the longer run. */
  ghost predicate UpAndDown(v: SoundView, b: SoundView) {
    b.trace == v.trace + [Recount(3), Start(3, 0, {}, true)] + [Recount(1), Start(1, 0, {3}, true)]
                 + [Recount(2), Start(2, 0, {1, 3}, true)] + [Pardon(3)] + [Stop(3, [], {1, 2})]
  }

  lemma LongRun(v: SoundView) returns (b: SoundView)
    requires Three(v, DOWN, DOWN, DOWN)
    ensures Leads(v, [EnableOp(3)] + [EnableOp(1)] + [EnableOp(2)] + [DisableOp(3)], b) && Three(b, UP, UP, DOWN)
    ensures UpAndDown(v, b)
  {
    var b1 := OtherRaised(v);
    var b2 := NeedyRaised(b1);
    var b3 := FirstRaised(b2);
    b := OtherLowered(b3);
    OneOp(v, EnableOp(3), b1);
    OneMoreOp(v, [EnableOp(3)], b1, EnableOp(1), b2);
    OneMoreOp(v, [EnableOp(3)] + [EnableOp(1)], b2, EnableOp(2), b3);
    OneMoreOp(v, [EnableOp(3)] + [EnableOp(1)] + [EnableOp(2)], b3, DisableOp(3), b);
  }

  lemma InTheEnd(v: SoundView, f: Flags)
    requires Three(v, f, f, DOWN) && (f == UP || f == WAITING)
    ensures FaultFree(v.st) && Enabled(v.st) == {1, 2} && Running(v.st) == if f == UP then {1, 2} else {}
  {
  }

  /** The same services declared and enabled, in a cycle, and nobody at fault. */
  ghost predicate Alike(a: SoundView, b: SoundView) {
    && Settled(a) && Settled(b) && a.attrs == b.attrs && a.g.parents == b.g.parents && !Acyclic(a.g.parents)
    && FaultFree(a.st) && FaultFree(b.st) && Enabled(a.st) == Enabled(b.st) == {1, 2}
  }

  /** On a cyclic graph history does show. Three services are added to an empty manager. Then, in the
      one run, the first two are enabled; in the other the third is, then the first two, and then the
      third is disabled. In the end the same services are enabled, nobody is at fault, and none runs
      after the one, both after the other. */
  lemma CyclesRemember() returns (v: SoundView, a: SoundView, b: SoundView)
    ensures Leads(EmptyView(0), [AddOp(1, NEEDS_X)] + [AddOp(2, FIRST_X)] + [AddOp(3, OTHER_X)], v)
    ensures Leads(v, [EnableOp(1)] + [EnableOp(2)], a)
    ensures Leads(v, [EnableOp(3)] + [EnableOp(1)] + [EnableOp(2)] + [DisableOp(3)], b)
    ensures Alike(a, b) && a.attrs == THREE && UpAndDown(v, b)
    ensures Running(a.st) == {} && Running(b.st) == {1, 2}
  {
    v := ThreeAdded(NEEDS_X, FIRST_X, OTHER_X);
    ThreeLinks();
    a := ShortRun(v);
    b := LongRun(v);
    InTheEnd(a, WAITING);
    InTheEnd(b, UP);
    RingIsACycle();
  }
}
