/** Runs of operations, step by step: single operations carried out on given states, in the order in
    which the code takes its steps. */
module Runs {
  import opened Linkage
  import opened Names
  import opened Indexing
  import opened RateLimits
  import opened Traces
  import opened Supervision
  import opened Starting
  import opened Stopping
  import opened Operations
  import opened Membership

  datatype Op = AddOp(s: Id, a: Attr) | EnableOp(s: Id) | DisableOp(s: Id)

  const DOWN := Flags(false, false, false, false, false)
  const WAITING := Flags(true, false, false, false, false)
  const UP := Flags(true, true, false, false, false)

  /** What the operation promises of the states before and after it. */
  ghost predicate Promises(v: SoundView, op: Op, w: SoundView) {
    && Settled(v) && Settled(w) && Onward(v, w)
    && match op
       case AddOp(s, a) => s !in v.st && OthersKept(v, w, s) && w.attrs == v.attrs[s := a] && w.st == v.st[s := DOWN]
       case EnableOp(s) => Newer(v, w) && EnableResult(v, w, s, true)
       case DisableOp(s) => Newer(v, w) && DisableResult(v, w, s)
  }

  /** The operation leads from v to w. (Quantified, so that the verifier looks inside only where a proof
      names what is promised.) */
  ghost predicate Does(v: SoundView, op: Op, w: SoundView) {
    forall p: Op {:trigger Promises(v, p, w)} :: p == op ==> Promises(v, p, w)
  }

  /** The operations, one after the other, lead from v to w. */
  ghost predicate Leads(v: SoundView, ops: seq<Op>, w: SoundView) {
    if ops == [] then w == v
    else exists m: SoundView {:trigger Leads(v, ops[..|ops| - 1], m)} ::
           Leads(v, ops[..|ops| - 1], m) && Does(m, ops[|ops| - 1], w)
  }

  lemma OneMoreOp(v: SoundView, ops: seq<Op>, m: SoundView, op: Op, w: SoundView)
    requires Leads(v, ops, m) && Does(m, op, w)
    ensures Leads(v, ops + [op], w)
  {
    assert (ops + [op])[..|ops|] == ops;
  }

  lemma OneOp(v: SoundView, op: Op, w: SoundView)
    requires Does(v, op, w)
    ensures Leads(v, [op], w)
  {
    assert [op][..0] == [];
    assert Leads(v, [], v);
  }

  // ---------------------------------------------------------------- adding

  /** A service joins with the limits it is made with. */
  lemma Added(v: SoundView, s: Id, a: Attr) returns (w: SoundView)
    requires s !in v.st && Settled(v)
    ensures Does(v, AddOp(s, a), w) && Settled(w)
    ensures w.g == Index(w.attrs) && w.attrs == v.attrs[s := a] && w.st == v.st[s := DOWN]
  {
    var p := Policy(false, 10, 60_000_000_000, 0, seq(10, _ => 0));
    FreshRing(p);
    SkipIsOnward(v, v.serial + 1);
    var v1 := Skip(v, v.serial + 1);
    OnlyOneIndex(Index(v.attrs[s := a]), v.attrs[s := a]);
    w := Joining(v1, s, a, Index(v.attrs[s := a]), DOWN, Tag(AddedService, 0, v.serial + 2), p, []);
    OnwardIsTransitive(v, v1, w);
  }

  lemma OneAdded(v: SoundView, ops: seq<Op>, m: SoundView, s: Id, a: Attr) returns (w: SoundView)
    requires Leads(v, ops, m) && s !in m.st && Settled(m)
    ensures Leads(v, ops + [AddOp(s, a)], w)
    ensures Settled(w) && w.attrs == m.attrs[s := a] && w.g == Index(w.attrs) && w.st == m.st[s := DOWN]
  {
    w := Added(m, s, a);
    OneMoreOp(v, ops, m, AddOp(s, a), w);
  }

  lemma FirstAdded(s: Id, a: Attr) returns (w: SoundView)
    ensures Leads(EmptyView(0), [AddOp(s, a)], w)
    ensures Settled(w) && w.g == Index(w.attrs) && w.attrs == map[][s := a] && w.st == map[][s := DOWN]
  {
    w := Added(EmptyView(0), s, a);
    OneOp(EmptyView(0), AddOp(s, a), w);
  }

  /** Three services join an empty manager. */
  lemma ThreeAdded(a1: Attr, a2: Attr, a3: Attr) returns (v: SoundView)
    ensures Leads(EmptyView(0), [AddOp(1, a1)] + [AddOp(2, a2)] + [AddOp(3, a3)], v)
    ensures Settled(v) && v.g == Index(v.attrs) && v.attrs == map[][1 := a1][2 := a2][3 := a3]
    ensures v.st == map[][1 := DOWN][2 := DOWN][3 := DOWN]
  {
    var v1 := FirstAdded(1, a1);
    var v2 := OneAdded(EmptyView(0), [AddOp(1, a1)], v1, 2, a2);
    v := OneAdded(EmptyView(0), [AddOp(1, a1)] + [AddOp(2, a2)], v2, 3, a3);
  }

  // ---------------------------------------------------------------- enabling

  /** None of the children still to be visited can be started. */
  lemma NobodyElse(v: SoundView, w: SoundView, s: Id, todo: set<Id>)
    requires StartLoop(v, w, s, todo) && forall c :: c in todo ==> c in w.st && !Able(w, c)
    ensures Starts(v, w, s)
    decreases todo
  {
    Inhabited(todo);
    if todo == {} {
      LoopEnds(v, w, s);
    } else {
      var c :| c in todo;
      NewerIsReflexive(w);
      StartDenied(w, w, c);
      assert todo - {c} + {c} == todo;
      StartChild(v, w, w, s, c, todo - {c});
      NobodyElse(v, w, s, todo - {c});
    }
  }

  /** s can be enabled and started, and nobody waits for it. */
  ghost predicate Poised(v: SoundView, s: Id) {
    && Settled(v) && s in v.st && v.st[s] == DOWN && v.g.incompat[s] == {}
    && Backed(v.g.parents, LiveSet(v.st), s)
    && forall c :: c in v.g.children[s] ==> c in v.st && c != s && (!v.st[c].enabled || v.st[c].running)
  }

  lemma SwitchedOnIsAble(v: SoundView, w: SoundView, s: Id)
    requires Poised(v, s) && SwitchedOn(v, w, s)
    ensures Enabling(v, w, s) && Able(w, s) && InTime(w, s, 0) && LiveSet(w.st) == LiveSet(v.st) && w.st[s] == WAITING
  {
    EnableBegins(v, w, s);
    assert LiveSet(w.st) == LiveSet(v.st);
  }

  lemma StartedAlone(v: SoundView, w: SoundView, w': SoundView, s: Id)
    requires Poised(v, s) && SwitchedOn(v, w, s) && Enabling(v, w, s) && OneAttempt(w, w', s, 0, true)
    ensures Starts(w, w', s) && w'.st == v.st[s := w'.st[s]]
  {
    NewerIsReflexive(w);
    StartSucceeds(w, w, w', s, 0);
    NobodyElse(w, w', s, w.g.children[s]);
  }

  /** s is enabled and comes up. */
  lemma Raised(v: SoundView, s: Id) returns (w': SoundView)
    requires Poised(v, s)
    ensures Does(v, EnableOp(s), w') && Settled(w') && w'.g == v.g && w'.attrs == v.attrs && w'.st == v.st[s := UP]
    ensures w'.trace == v.trace + [Recount(s), Start(s, 0, LiveSet(v.st), true)]
  {
    var w := SwitchOn(v, s, 0);
    SwitchedOnIsAble(v, w, s);
    w' := MakeAttempt(w, s, 0, true, StartedReason, 0);
    StartedAlone(v, w, w', s);
    EnableEnds(v, w, w', s);
  }

  /** s is enabled and lacks a provider: it stays down, and says so. */
  lemma RaisedInVain(v: SoundView, s: Id) returns (w': SoundView)
    requires Settled(v) && s in v.st && v.st[s] == DOWN && v.g.incompat[s] == {}
    requires !Backed(v.g.parents, LiveSet(v.st), s)
    ensures Does(v, EnableOp(s), w') && Settled(w') && w'.g == v.g && w'.attrs == v.attrs && w'.st == v.st[s := WAITING]
    ensures w'.trace == v.trace + [Recount(s)]
  {
    var w := SwitchOn(v, s, 0);
    EnableBegins(v, w, s);
    assert LiveSet(w.st) == LiveSet(v.st);
    w' := Announce(w, s, UnmetDependency, 0);
    NewerIsReflexive(w);
    NewerTouch(w, w, w', s);
    StartDenied(w, w', s);
    EnableEnds(v, w, w', s);
  }

  // ---------------------------------------------------------------- disabling

  /** All the children still to be visited can run without s. */
  lemma AllSpared(v: SoundView, v1: SoundView, s: Id, todo: set<Id>)
    requires StopLoop(v, v1, s, todo) && forall c :: c in todo ==> CanRun(v1.g, v1.st, c)
    ensures StopLoop(v, v1, s, {})
    decreases todo
  {
    Inhabited(todo);
    if todo != {} {
      var c :| c in todo;
      NewerIsReflexive(v1);
      ChildSpared(v, v1, v1, s, c, todo);
      AllSpared(v, v1, s, todo - {c});
    }
  }

  /** s is running, and about to be disabled. */
  lemma Leaned(v: SoundView, s: Id) returns (w: SoundView, v1: SoundView)
    requires Settled(v) && s in v.st && v.st[s] == UP
    ensures Disabling(v, w, s) && Stoppable(w, s, []) && Going(w.st, s) && StopLoop(w, v1, s, w.g.children[s])
    ensures v1.st == v.st[s := Flags(false, true, true, false, false)] && v1.g == w.g == v.g && v1.attrs == v.attrs
    ensures v1.trace == w.trace == v.trace + [Pardon(s)]
  {
    w := SwitchOff(v, s, 0);
    DisableBegins(v, w, s);
    StopBegins(w, s);
    v1 := Mark(w, s, w.st[s].enabled, true);
  }

  /** The children have been dealt with, and s itself goes down. */
  lemma Felled(v: SoundView, w: SoundView, v1: SoundView, s: Id) returns (w': SoundView)
    requires Disabling(v, w, s) && Stoppable(w, s, []) && StopLoop(w, v1, s, {}) && v1.attrs == v.attrs
    ensures Does(v, DisableOp(s), w') && Settled(w') && w'.g == v.g && w'.attrs == v.attrs
    ensures w'.st == v1.st[s := v1.st[s].(running := false, stopping := false)]
    ensures w'.trace == v1.trace + [Stop(s, [], LiveSet(v1.st))]
  {
    SafeToStop(w, v1, s, []);
    w' := TakeDown(v1, s, [], DisabledReason, 0);
    StopEnds(w, v1, w', s, []);
    DisableEnds(v, w, w', s);
  }

  lemma ChildrenCanDoWithout(v: SoundView, v1: SoundView, s: Id)
    requires s in v.st && v.st[s] == UP && v1.g == v.g && v1.st == v.st[s := Flags(false, true, true, false, false)]
    requires forall c :: c in v.g.children[s] ==> c in v.st && c != s && v.st[c] == UP && v.g.incompat[c] == {}
    requires forall c :: c in v.g.children[s] ==> Backed(v.g.parents, LiveSet(v.st) - {s}, c)
    ensures LiveSet(v1.st) == LiveSet(v.st) - {s}
    ensures forall c :: c in v1.g.children[s] ==> CanRun(v1.g, v1.st, c)
  {
    assert LiveSet(v1.st) == LiveSet(v.st) - {s};
    forall c | c in v1.g.children[s] ensures CanRun(v1.g, v1.st, c) {
      assert Backed(v.g.parents, LiveSet(v.st) - {s}, c);
    }
  }

  /** s is disabled, and its children can do without it. */
  lemma Lowered(v: SoundView, s: Id) returns (w': SoundView)
    requires Settled(v) && s in v.st && v.st[s] == UP
    requires forall c :: c in v.g.children[s] ==> c in v.st && c != s && v.st[c] == UP && v.g.incompat[c] == {}
    requires forall c :: c in v.g.children[s] ==> Backed(v.g.parents, LiveSet(v.st) - {s}, c)
    ensures Does(v, DisableOp(s), w') && Settled(w') && w'.g == v.g && w'.attrs == v.attrs && w'.st == v.st[s := DOWN]
    ensures w'.trace == v.trace + [Pardon(s)] + [Stop(s, [], LiveSet(v.st) - {s})]
  {
    var w, v1 := Leaned(v, s);
    ChildrenCanDoWithout(v, v1, s);
    AllSpared(w, v1, s, w.g.children[s]);
    w' := Felled(v, w, v1, s);
    Overwritten(v.st, s, v1.st[s], DOWN);
  }

  lemma ToldToWait(w: SoundView, v1: SoundView, s: Id, c: Id, todo: set<Id>) returns (u: SoundView)
    requires Stoppable(w, s, []) && StopLoop(w, v1, s, todo) && c in todo && todo <= w.g.children[s]
    requires c in v1.st && v1.st[c] == UP && !CanRun(v1.g, v1.st, c)
    ensures StopLoop(w, u, s, todo) && Stoppable(u, c, [s])
    ensures u.g == v1.g && u.attrs == v1.attrs && u.st == v1.st && u.trace == v1.trace
  {
    u := Announce(v1, c, UnmetDependency, 0);
    NewerIsReflexive(v1);
    NewerTouch(v1, v1, u, c);
    ChildSpared(w, v1, u, s, c, todo);
    ChildStoppable(w, u, s, [], c, todo);
    assert [] + [s] == [s];
  }

  lemma LeafFelled(u: SoundView, s: Id, c: Id) returns (v3: SoundView)
    requires Stoppable(u, c, [s]) && c in u.st && u.st[c] == UP && u.g.children[c] == {}
    ensures Stops(u, v3, c, [s]) && v3.g == u.g && v3.attrs == u.attrs && v3.st == u.st[c := WAITING]
    ensures v3.trace == u.trace + [Stop(c, [s], LiveSet(u.st) - {c})]
  {
    StopBegins(u, c);
    var v2 := Mark(u, c, u.st[c].enabled, true);
    assert LiveSet(v2.st) == LiveSet(u.st) - {c};
    SafeToStop(u, v2, c, [s]);
    v3 := TakeDown(v2, c, [s], UnmetDependency, 0);
    StopEnds(u, v2, v3, c, [s]);
    Overwritten(u.st, c, v2.st[c], WAITING);
  }

  /** A child that cannot do without s, and has no children, is stopped on account of s. */
  lemma ChildFelled(w: SoundView, v1: SoundView, s: Id, c: Id, todo: set<Id>) returns (v3: SoundView)
    requires Stoppable(w, s, []) && StopLoop(w, v1, s, todo) && c in todo && todo <= w.g.children[s]
    requires c in v1.st && v1.st[c] == UP && !CanRun(v1.g, v1.st, c) && v1.g.children[c] == {}
    ensures StopLoop(w, v3, s, todo - {c}) && v3.g == v1.g && v3.attrs == v1.attrs && v3.st == v1.st[c := WAITING]
    ensures v3.trace == v1.trace + [Stop(c, [s], LiveSet(v1.st) - {c})]
  {
    var u := ToldToWait(w, v1, s, c, todo);
    v3 := LeafFelled(u, s, c);
    ChildStopped(w, u, v3, s, [s], c, todo);
  }
}
