/** What a stop recursion does to the state of the supervisor. */
module Stopping {
  import opened Linkage
  import opened Traces
  import opened Supervision

  /** A stop recursion leaves alone every service it does not stop, and those already being stopped. */
  ghost predicate ShrunkAt(st: map<Id, Flags>, st': map<Id, Flags>, t: Id) {
    && t in st && t in st'
    && st'[t] == st[t].(running := st'[t].running)
    && (st'[t].running ==> st[t].running)
    && (st[t].stopping ==> st'[t] == st[t])
  }

  ghost predicate Shrunk(st: map<Id, Flags>, st': map<Id, Flags>) {
    st'.Keys == st.Keys && forall t {:trigger ShrunkAt(st, st', t)} :: t in st ==> ShrunkAt(st, st', t)
  }

  /** The stop of s has something to do. */
  ghost predicate Going(st: map<Id, Flags>, s: Id) {
    s in st && st[s].running && !st[s].stopping
  }

  ghost function GoingSet(st: map<Id, Flags>): set<Id> {
    set t | t in st && Going(st, t)
  }

  /** The services running without the right to: none is added, s and its children are gone. */
  ghost predicate FewerBad(v: SoundView, v': SoundView, s: Id)
    requires s in v.g.children
  {
    forall t {:trigger Bad(v'.g, v'.st, t)} :: Bad(v'.g, v'.st, t) ==>
      Bad(v.g, v.st, t) && t != s && (Going(v.st, s) ==> t !in v.g.children[s])
  }

  ghost predicate NoMoreWait(v: SoundView, v': SoundView) {
    forall t {:trigger Waits(v'.g, v'.st, t)} :: Waits(v'.g, v'.st, t) ==> Waits(v.g, v.st, t)
  }

  ghost predicate HeldBy(v: SoundView, c: set<Id>, t: Id) {
    Live(v.st, t) && Backed(v.g.parents, c, t) && NoConflict(v.g, v.st, t)
  }

  /** The services in c are live, and have all the providers they need among themselves. */
  ghost predicate HoldOn(v: SoundView, c: set<Id>) {
    forall t {:trigger HeldBy(v, c, t)} :: t in c ==> HeldBy(v, c, t)
  }

  /** No services that hold on to one another are stopped on account of s. */
  ghost predicate Spares(v: SoundView, v': SoundView, s: Id) {
    forall c {:trigger HoldOn(v, c)} :: HoldOn(v, c) && s !in c ==> HoldOn(v', c)
  }

  lemma SparesOthers(v: SoundView, v': SoundView, s: Id)
    requires OnlyAt(v, v', s) && s in v.st && (v'.st[s].enabled ==> v.st[s].enabled)
    ensures Spares(v, v', s)
  {
    forall c | HoldOn(v, c) && s !in c ensures HoldOn(v', c) {
      forall t | t in c ensures HeldBy(v', c, t) {
        assert HeldBy(v, c, t);
      }
    }
  }

  lemma SparesOn(v: SoundView, v1: SoundView, v2: SoundView, s: Id)
    requires Spares(v, v1, s) && Spares(v1, v2, s)
    ensures Spares(v, v2, s)
  {
    forall c | HoldOn(v, c) && s !in c ensures HoldOn(v2, c) {
      assert HoldOn(v1, c);
    }
  }

  /** Services that hold on to one another have the right to run. */
  lemma HolderCanRun(v: SoundView, c: set<Id>, t: Id)
    requires HoldOn(v, c) && t in c
    ensures CanRun(v.g, v.st, t)
  {
    assert HeldBy(v, c, t);
    forall d | d in c ensures d in LiveSet(v.st) {
      assert HeldBy(v, c, d);
    }
    BackedGrows(v.g.parents, c, LiveSet(v.st), t);
  }

  lemma UnableIsNoHolder(v: SoundView, v1: SoundView, v2: SoundView, s: Id, t: Id)
    requires Spares(v, v1, s) && Spares(v1, v2, t) && !CanRun(v1.g, v1.st, t)
    ensures Spares(v, v2, s)
  {
    forall c | HoldOn(v, c) && s !in c ensures HoldOn(v2, c) {
      assert HoldOn(v1, c);
      if t in c {
        HolderCanRun(v1, c, t);
      }
    }
  }

  /** The latest event is the stop of s, with these stops in progress around it. */
  ghost predicate LastStop(v: SoundView, s: Id, stack: seq<Id>) {
    v.trace != [] &&
      var last := v.trace[|v.trace| - 1];
      last.Stop? && last.s == s && last.stack == stack
  }

  /** The effect of `stopRecurse` on s. */
  ghost predicate Stops(v: SoundView, v': SoundView, s: Id, stack: seq<Id>) {
    && (Going(v.st, s) ==> |v.trace| < |v'.trace| && LastStop(v', s, stack))
    && s in v.g.children && Newer(v, v') && v'.policies == v.policies && Spares(v, v', s)
    && Shrunk(v.st, v'.st) && !Going(v'.st, s)
    && FewerBad(v, v', s)
    && NoMoreWait(v, v')
    && Adds(v.trace, v'.trace, {Kind.Stopping}, s)
  }

  ghost predicate OnStack(st: map<Id, Flags>, stack: seq<Id>, t: Id) {
    t in st ==> (st[t].stopping <==> t in stack)
  }

  ghost predicate Fit(st: map<Id, Flags>, s: Id, t: Id) {
    t in st && Going(st, t) && t != s ==> !st[t].failed
  }

  /** When `stopRecurse` is called on s: the stops in progress are those on the stack, each
      called by the one before it; no other running service is marked failed; s, once stopped,
      has an excuse for staying down; and whoever runs without the right to is on the way to be
      stopped, by this stop or by one of those around it. */
  ghost predicate Stoppable(v: SoundView, s: Id, stack: seq<Id>) {
    && s in v.st
    && (forall t {:trigger OnStack(v.st, stack, t)} :: t in v.st ==> OnStack(v.st, stack, t))
    && Chain(v.g.parents, stack + [s])
    && (forall t {:trigger Fit(v.st, s, t)} :: t in v.st ==> Fit(v.st, s, t))
    && (v.st[s].failed || !CanRun(v.g, v.st, s))
    && s in v.g.children
    && (forall t {:trigger Bad(v.g, v.st, t)} :: Bad(v.g, v.st, t) ==>
          t == s || t in v.g.children[s] || Awaits(v.g.parents, stack, t))
  }

  lemma LiveShrinks(st: map<Id, Flags>, st': map<Id, Flags>)
    requires Shrunk(st, st')
    ensures LiveSet(st') <= LiveSet(st)
  {
    forall d | d in LiveSet(st') ensures d in LiveSet(st) {
      if d in st { assert ShrunkAt(st, st', d); }
    }
  }

  /** With fewer live providers and the same enabled services, nobody gains the right to run. */
  lemma RightsShrink(g: Graph, st: map<Id, Flags>, st': map<Id, Flags>, t: Id)
    requires Shrunk(st, st') && CanRun(g, st', t)
    ensures CanRun(g, st, t)
  {
    LiveShrinks(st, st');
    BackedGrows(g.parents, LiveSet(st'), LiveSet(st), t);
    assert ShrunkAt(st, st', t);
    forall c | c in g.incompat[t] && c in st ensures !st[c].enabled {
      assert ShrunkAt(st, st', c);
    }
  }

  // ---------------------------------------------------------------- the loop over the children

  ghost predicate LoopAt(v: SoundView, v': SoundView, s: Id, t: Id) {
    t in v.st && t in v'.st && (t != s ==> ShrunkAt(v.st, v'.st, t) && OnwardAt(v, v', t))
  }

  /** The stop of s under way, with the children in `todo` still to be visited. */
  ghost predicate StopLoop(v: SoundView, v': SoundView, s: Id, todo: set<Id>) {
    && v.g == v'.g && v.attrs == v'.attrs && v.policies == v'.policies && v.serial <= v'.serial
    && Adds(v.trace, v'.trace, {Kind.Stopping}, s) && Spares(v, v', s)
    && Going(v.st, s) && v'.st[s] == v.st[s].(stopping := true)
    && (forall t {:trigger LoopAt(v, v', s, t)} :: t in v.st ==> LoopAt(v, v', s, t))
    && (forall t {:trigger Bad(v'.g, v'.st, t)} :: Bad(v'.g, v'.st, t) ==>
          t in todo || (Bad(v.g, v.st, t) && s in v.g.children && t !in v.g.children[s]))
    && NoMoreWait(v, v')
  }

  lemma RaisingTheFlag(g: Graph, st: map<Id, Flags>, s: Id)
    requires Going(st, s) && st.Keys == g.children.Keys
    ensures var st' := st[s := st[s].(stopping := true)];
            && (forall t {:trigger Bad(g, st', t)} :: Bad(g, st', t) ==> t in g.children[s] || Bad(g, st, t))
            && (forall t {:trigger Waits(g, st', t)} :: Waits(g, st', t) ==> Waits(g, st, t))
  {
    var st' := st[s := st[s].(stopping := true)];
    assert LiveSet(st') == LiveSet(st) - {s};
    forall t | Bad(g, st', t) ensures t in g.children[s] || Bad(g, st, t) {
      if t !in g.children[s] && CanRun(g, st, t) {
        BackedGrows(g.parents, LiveSet(st), LiveSet(st) + {s}, t);
        StrangerStaysBacked(g, LiveSet(st), s, t);
      }
    }
    forall t | Waits(g, st', t) ensures Waits(g, st, t) {
      BackedGrows(g.parents, LiveSet(st'), LiveSet(st), t);
    }
  }

  lemma StopBegins(v: SoundView, s: Id)
    requires Going(v.st, s)
    ensures StopLoop(v, Mark(v, s, v.st[s].enabled, true), s, v.g.children[s])
  {
    var v' := Mark(v, s, v.st[s].enabled, true);
    RaisingTheFlag(v.g, v.st, s);
    SparesOthers(v, v', s);
    forall t | t in v.st ensures LoopAt(v, v', s, t) {}
  }

  lemma SameHolders(v: SoundView, v': SoundView)
    requires v'.g == v.g && v'.st == v.st
    ensures forall c {:trigger HoldOn(v, c)} :: HoldOn(v, c) ==> HoldOn(v', c)
  {
    forall c | HoldOn(v, c) ensures HoldOn(v', c) {
      forall t | t in c ensures HeldBy(v', c, t) {
        assert HeldBy(v, c, t);
      }
    }
  }

  /** A child that can still run is passed over. */
  lemma ChildSpared(v: SoundView, v1: SoundView, v2: SoundView, s: Id, c: Id, todo: set<Id>)
    requires StopLoop(v, v1, s, todo) && Quiet(v1, v2)
    ensures StopLoop(v, v2, s, todo)
    ensures CanRun(v2.g, v2.st, c) ==> StopLoop(v, v2, s, todo - {c})
  {
    Serials(v);
    SameHolders(v1, v2);
    forall t | t in v.st ensures LoopAt(v, v2, s, t) {
      assert LoopAt(v, v1, s, t) && OnwardAt(v1, v2, t) && NotAbove(v.tags, v.serial, t);
    }
    forall t | Bad(v2.g, v2.st, t) ensures t in todo || (Bad(v.g, v.st, t) && t !in v.g.children[s]) {
      assert Bad(v1.g, v1.st, t);
    }
    forall t | Waits(v2.g, v2.st, t) ensures Waits(v.g, v.st, t) {
      assert Waits(v1.g, v1.st, t);
    }
  }

  /** A child that can no longer run may be stopped in turn. */
  lemma ChildStoppable(v: SoundView, v1: SoundView, s: Id, stack: seq<Id>, c: Id, todo: set<Id>)
    requires Stoppable(v, s, stack) && StopLoop(v, v1, s, todo) && todo <= v.g.children[s]
    requires c in v.g.children[s] && !CanRun(v1.g, v1.st, c)
    ensures Stoppable(v1, c, stack + [s])
    ensures GoingSet(v1.st) < GoingSet(v.st)
  {
    assert v.st[s].running && !v.st[s].stopping && OnStack(v.st, stack, s);
    forall t | t in v1.st ensures OnStack(v1.st, stack + [s], t) && Fit(v1.st, c, t) &&
        (Going(v1.st, t) ==> Going(v.st, t)) {
      assert LoopAt(v, v1, s, t) && OnStack(v.st, stack, t) && Fit(v.st, s, t);
    }
    assert s in GoingSet(v.st) && s !in GoingSet(v1.st);
    LongerChain(v.g, stack, s, c);
    assert c in v1.g.children[s];
    forall t | Bad(v1.g, v1.st, t) ensures Awaits(v1.g.parents, stack + [s], t) {
      TurnToCome(v.g, stack, s, t);
    }
  }

  /** A child of s awaits its turn once s is on the stack, and so does whoever did before. */
  lemma TurnToCome(g: Graph, stack: seq<Id>, s: Id, t: Id)
    requires s in g.children && (t in g.children[s] || Awaits(g.parents, stack, t))
    ensures Awaits(g.parents, stack + [s], t)
  {
    var longer := stack + [s];
    if t in g.children[s] {
      assert longer[|stack|] == s;
    } else {
      var i :| 0 <= i < |stack| && DependsOn(g.parents, t, stack[i]);
      assert longer[i] == stack[i];
    }
  }

  lemma LongerChain(g: Graph, stack: seq<Id>, s: Id, c: Id)
    requires Chain(g.parents, stack + [s]) && s in g.children && c in g.children[s]
    ensures Chain(g.parents, stack + [s] + [c])
  {
    var longer := stack + [s] + [c];
    forall i | 0 < i < |longer| ensures DependsOn(g.parents, longer[i], longer[i - 1]) {
      if i < |stack| + 1 {
        assert (stack + [s])[i] == longer[i];
      }
    }
  }

  lemma ChildStopped(
    v: SoundView, v1: SoundView, v2: SoundView, s: Id, stack: seq<Id>, c: Id, todo: set<Id>)
    requires StopLoop(v, v1, s, todo) && c in v.g.children && !CanRun(v1.g, v1.st, c) && Stops(v1, v2, c, stack)
    ensures StopLoop(v, v2, s, todo - {c})
  {
    assert ShrunkAt(v1.st, v2.st, s);
    UnableIsNoHolder(v, v1, v2, s, c);
    Serials(v);
    AddsOn(v.trace, v1.trace, v2.trace, {Kind.Stopping}, {Kind.Stopping}, s, c);
    forall t | t in v.st ensures LoopAt(v, v2, s, t) {
      assert LoopAt(v, v1, s, t) && ShrunkAt(v1.st, v2.st, t) && OnwardAt(v1, v2, t) && NotAbove(v.tags, v.serial, t);
    }
    forall t | Bad(v2.g, v2.st, t) ensures t in todo - {c} || (Bad(v.g, v.st, t) && t !in v.g.children[s]) {
      assert Bad(v1.g, v1.st, t);
    }
    forall t | Waits(v2.g, v2.st, t) ensures Waits(v.g, v.st, t) {
      assert Waits(v1.g, v1.st, t);
    }
  }

  // ---------------------------------------------------------------- the call of the provider

  /** When the provider is told to stop s, no service outside the stack loses its last provider. */
  lemma LastProviders(v: SoundView, v1: SoundView, s: Id, stack: seq<Id>, t: Id)
    requires Stoppable(v, s, stack) && StopLoop(v, v1, s, {})
    requires v1.st.Keys == v.st.Keys && t in Running(v1.st) && t != s && t !in stack
    requires Backed(v1.g.parents, Running(v1.st), t)
    ensures Backed(v1.g.parents, Running(v1.st) - {s}, t)
  {
    var up := Running(v1.st);
    assert LoopAt(v, v1, s, t) && OnStack(v.st, stack, t);
    if t in v1.g.children[s] {
      assert !Bad(v1.g, v1.st, t);
      BackedGrows(v1.g.parents, LiveSet(v1.st), up - {s}, t);
    } else {
      BackedGrows(v1.g.parents, up, up + {s}, t);
      StrangerStaysBacked(v1.g, up, s, t);
    }
  }

  /** And whoever depends on s, or does not await its own stop, keeps live ones. */
  lemma LiveProviders(v: SoundView, v1: SoundView, s: Id, stack: seq<Id>, t: Id)
    requires Stoppable(v, s, stack) && StopLoop(v, v1, s, {})
    requires t in Running(v1.st) && t != s && t !in stack
    requires DependsOn(v1.g.parents, t, s) || !Awaits(v1.g.parents, stack, t)
    ensures Backed(v1.g.parents, LiveSet(v1.st), t)
  {
    assert LoopAt(v, v1, s, t) && OnStack(v.st, stack, t);
    assert !Bad(v1.g, v1.st, t);
  }

  lemma StackIsNotLive(v: SoundView, v1: SoundView, s: Id, stack: seq<Id>, i: nat)
    requires Stoppable(v, s, stack) && StopLoop(v, v1, s, {}) && i < |stack|
    ensures stack[i] !in LiveSet(v1.st)
  {
    var t := stack[i];
    if t in v.st {
      assert OnStack(v.st, stack, t) && LoopAt(v, v1, s, t);
    }
  }

  lemma SafeToStop(v: SoundView, v1: SoundView, s: Id, stack: seq<Id>)
    requires Stoppable(v, s, stack) && StopLoop(v, v1, s, {})
    ensures SafeStop(v1.g.parents, Running(v1.st), s, stack, LiveSet(v1.st))
  {
    var up, live := Running(v1.st), LiveSet(v1.st);
    forall t | t in up && t != s && t !in stack && Backed(v1.g.parents, up, t)
      ensures Backed(v1.g.parents, up - {s}, t)
    {
      LastProviders(v, v1, s, stack, t);
    }
    forall t | t in up && t != s && t !in stack && (DependsOn(v1.g.parents, t, s) || !Awaits(v1.g.parents, stack, t))
      ensures Backed(v1.g.parents, live, t)
    {
      LiveProviders(v, v1, s, stack, t);
    }
    forall i | 0 <= i < |stack| ensures stack[i] !in live {
      StackIsNotLive(v, v1, s, stack, i);
    }
  }

  /** The provider has been told to stop, and s is down, with a new status under a new serial. */
  ghost predicate TakenDown(v: SoundView, w: SoundView, s: Id, stack: seq<Id>) {
    && s in v.st && OnlyAt(v, w, s) && v.serial < w.tags[s].serial && w.policies == v.policies
    && w.st == v.st[s := v.st[s].(running := false, stopping := false)]
    && w.trace == v.trace + [Stop(s, stack, LiveSet(v.st))]
  }

  lemma TakeDown(v: SoundView, s: Id, stack: seq<Id>, why: Reason, now: int) returns (w: SoundView)
    requires s in v.st && SafeStop(v.g.parents, Running(v.st), s, stack, LiveSet(v.st))
    ensures TakenDown(v, w, s, stack) && w.serial == v.serial + 1 && w.tags[s] == Tag(why, now, w.serial)
  {
    var a := Announce(v, s, why, now);
    w := Halt(a, s, stack);
    OnlyTwice(v, a, w, s);
  }

  /** Once s is down nobody's standing changes but its own. */
  lemma GoingDown(g: Graph, st0: map<Id, Flags>, st: map<Id, Flags>, s: Id)
    requires s in st && st[s].running && st[s].stopping
    ensures var st' := st[s := st[s].(running := false, stopping := false)];
            && LiveSet(st') == LiveSet(st)
            && (forall t {:trigger Bad(g, st', t)} :: Bad(g, st', t) ==> t != s && Bad(g, st, t))
            && (forall t {:trigger Waits(g, st', t)} :: t != s && Waits(g, st', t) ==> Waits(g, st, t))
  {
    var st' := st[s := st[s].(running := false, stopping := false)];
    assert LiveSet(st') == LiveSet(st);
  }

  lemma StopEnds(v: SoundView, v1: SoundView, v': SoundView, s: Id, stack: seq<Id>)
    requires Stoppable(v, s, stack) && StopLoop(v, v1, s, {}) && TakenDown(v1, v', s, stack)
    ensures Stops(v, v', s, stack)
  {
    GoingDown(v.g, v.st, v1.st, s);
    NewerDown(v, v1, v', s, stack);
    SparesOthers(v1, v', s);
    SparesOn(v, v1, v', s);
    AddsOne(v1.trace, Stop(s, stack, LiveSet(v1.st)), {Kind.Stopping}, s);
    AddsOn(v.trace, v1.trace, v'.trace, {Kind.Stopping}, {Kind.Stopping}, s, s);
    forall t | Bad(v'.g, v'.st, t) ensures Bad(v.g, v.st, t) && t != s && t !in v.g.children[s] {
      assert Bad(v1.g, v1.st, t);
    }
    forall t | Waits(v'.g, v'.st, t) ensures Waits(v.g, v.st, t) {
      if t == s {
        RightsShrink(v.g, v.st, v'.st, s);
      } else {
        assert Waits(v1.g, v1.st, t);
      }
    }
  }

  lemma NewerDown(v: SoundView, v1: SoundView, v': SoundView, s: Id, stack: seq<Id>)
    requires StopLoop(v, v1, s, {}) && TakenDown(v1, v', s, stack)
    ensures Newer(v, v') && Shrunk(v.st, v'.st)
  {
    Serials(v);
    forall t ensures OnwardAt(v, v', t) && (t in v.st ==> ShrunkAt(v.st, v'.st, t)) {
      assert t in v.st ==> LoopAt(v, v1, s, t);
      assert NotAbove(v.tags, v.serial, t);
    }
  }

  lemma StopIdle(v: SoundView, s: Id, stack: seq<Id>)
    requires s in v.st && !Going(v.st, s)
    ensures Stops(v, v, s, stack)
  {
    NewerIsReflexive(v);
    forall t | t in v.st ensures ShrunkAt(v.st, v.st, t) {}
  }
}
