/** The operations of the supervisor, each a small change followed by a recursion, and why each
    takes a settled state to a settled state. */
module Operations {
  import opened Linkage
  import opened RateLimits
  import opened Traces
  import opened Supervision
  import opened Starting
  import opened Stopping

  // ---------------------------------------------------------------- around a start recursion

  /** Nobody but s is waiting to be started. */
  ghost predicate OnlyWaits(v: SoundView, s: Id) {
    forall t {:trigger Waits(v.g, v.st, t)} :: Waits(v.g, v.st, t) ==> t == s
  }

  /** One start recursion on s away from being settled. */
  ghost predicate Arriving(v: SoundView, s: Id) {
    Closed(v.g, v.st) && ConflictFree(v.g, v.st) && OnlyWaits(v, s)
  }

  lemma StartSettles(v: SoundView, v': SoundView, s: Id)
    requires Arriving(v, s) && Starts(v, v', s)
    ensures Settled(v')
  {
    forall t | t in v'.st ensures Unopposed(v'.g, v'.st, t) {
      assert GrownAt(v.st, v'.st, t) && Unopposed(v.g, v.st, t);
      forall c | v.st[t].enabled && c in v.g.incompat[t] && c in v.st ensures !v'.st[c].enabled {
        assert GrownAt(v.st, v'.st, c);
      }
    }
    assert !exists t :: Waits(v'.g, v'.st, t);
  }

  lemma EnableArrives(g: Graph, st: map<Id, Flags>, s: Id, f: Flags)
    requires g.incompat.Keys == st.Keys && s in st && !st[s].enabled && NoConflict(g, st, s)
    requires Closed(g, st) && ConflictFree(g, st) && NoneWaits(g, st)
    requires f.enabled && f.running == st[s].running && f.stopping == st[s].stopping
    ensures var st' := st[s := f];
            && Closed(g, st') && ConflictFree(g, st')
            && forall t {:trigger Waits(g, st', t)} :: Waits(g, st', t) ==> t == s
  {
    var st' := st[s := f];
    assert Steady(g, st, s);
    assert LiveSet(st') == LiveSet(st);
    forall t | t in st ensures Steady(g, st', t) && Unopposed(g, st', t) && (Waits(g, st', t) ==> t == s) {
      assert Steady(g, st, t) && Unopposed(g, st, t) && !Waits(g, st, t);
      assert s in g.incompat[t] ==> t in g.incompat[s];
      assert s !in g.incompat[s];
    }
  }

  lemma ClearArrives(g: Graph, st: map<Id, Flags>, s: Id)
    requires s in st && Closed(g, st) && ConflictFree(g, st) && NoneWaits(g, st)
    ensures var st' := st[s := st[s].(failed := false, refused := false)];
            && Closed(g, st') && ConflictFree(g, st')
            && forall t {:trigger Waits(g, st', t)} :: Waits(g, st', t) ==> t == s
  {
    var st' := st[s := st[s].(failed := false, refused := false)];
    assert Steady(g, st, s);
    assert LiveSet(st') == LiveSet(st);
    forall t | t in st ensures Steady(g, st', t) && Unopposed(g, st', t) && (Waits(g, st', t) ==> t == s) {
      assert Steady(g, st, t) && Unopposed(g, st, t) && !Waits(g, st, t);
    }
  }

  /** Since v the provider of s has been asked to start and has failed to. */
  ghost predicate StartFailed(v: SoundView, v': SoundView, s: Id) {
    exists k {:trigger v'.trace[k]} :: |v.trace| <= k < |v'.trace| && FailsToStart(v'.trace[k], s)
  }

  /** What an operation that starts s afresh owes it: the limiter does not hold it down; it runs,
      unless it has no right to or its provider has failed to start; and it is marked failed only
      for that, or because it was before. */
  ghost predicate TriedAfresh(v: SoundView, v': SoundView, s: Id, faulted: bool) {
    && s in v'.st && !v'.st[s].refused
    && (v'.st[s].running || !CanRun(v'.g, v'.st, s) || StartFailed(v, v', s))
    && (v'.st[s].failed ==> faulted || StartFailed(v, v', s))
  }

  lemma StartTriesAfresh(v: SoundView, v1: SoundView, v2: SoundView, s: Id, faulted: bool)
    requires v.trace <= v1.trace && Starts(v1, v2, s)
    requires StartTimes(v1, s) == [] && !v1.st[s].refused && (v1.st[s].failed ==> faulted)
    ensures TriedAfresh(v, v2, s, faulted)
  {
    if Able(v1, s) {
      assert !v2.st[s].refused;
      assert !v2.st[s].running ==> FailsToStart(v2.trace[|v1.trace|], s);
    }
  }

  // ---------------------------------------------------------------- around a stop recursion

  /** One stop recursion on s away from being settled. */
  ghost predicate Leaving(v: SoundView, s: Id) {
    && Stoppable(v, s, [])
    && ConflictFree(v.g, v.st) && NoneWaits(v.g, v.st)
    && forall t {:trigger Bad(v.g, v.st, t)} :: Bad(v.g, v.st, t) ==> t == s || (Going(v.st, s) && t in v.g.children[s])
  }

  lemma StopSettles(v: SoundView, v': SoundView, s: Id)
    requires Leaving(v, s) && Stops(v, v', s, [])
    ensures Settled(v')
  {
    forall t | t in v'.st ensures Unopposed(v'.g, v'.st, t) && Steady(v'.g, v'.st, t) && !Waits(v'.g, v'.st, t) {
      assert ShrunkAt(v.st, v'.st, t) && Unopposed(v.g, v.st, t) && OnStack(v.st, [], t) && Fit(v.st, s, t);
      assert !Bad(v'.g, v'.st, t);
      assert !Waits(v.g, v.st, t);
      forall c | v.st[t].enabled && c in v.g.incompat[t] && c in v.st ensures !v'.st[c].enabled {
        assert ShrunkAt(v.st, v'.st, c);
      }
    }
  }

  /** Withdrawing s, by disabling it or by marking it failed, opposes only s and its children. */
  lemma WithdrawLeaves(g: Graph, st: map<Id, Flags>, s: Id, f: Flags)
    requires g.children.Keys == g.incompat.Keys == st.Keys && s in st
    requires Closed(g, st) && ConflictFree(g, st) && NoneWaits(g, st)
    requires f.running == st[s].running && f.stopping == st[s].stopping
    requires !f.enabled || (st[s].enabled && f.failed)
    ensures var st' := st[s := f];
            && ConflictFree(g, st') && NoneWaits(g, st')
            && (forall t {:trigger OnStack(st', [], t)} :: t in st' ==> OnStack(st', [], t))
            && (forall t {:trigger Fit(st', s, t)} :: t in st' ==> Fit(st', s, t))
            && (forall t {:trigger Bad(g, st', t)} ::
                  Bad(g, st', t) ==> t == s || (Going(st', s) && t in g.children[s]))
  {
    var st' := st[s := f];
    assert Steady(g, st, s) && Unopposed(g, st, s);
    assert LiveSet(st') == LiveSet(st) - {s};
    assert st[s].running || LiveSet(st) - {s} == LiveSet(st);
    forall t | t in st ensures Unopposed(g, st', t) && OnStack(st', [], t) && Fit(st', s, t) {
      assert Steady(g, st, t) && Unopposed(g, st, t);
    }
    forall t | t in st ensures !Waits(g, st', t) {
      assert Steady(g, st, t) && Unopposed(g, st, t) && !Waits(g, st, t);
      if Backed(g.parents, LiveSet(st'), t) {
        BackedGrows(g.parents, LiveSet(st'), LiveSet(st), t);
      }
      assert s in g.incompat[t] ==> t in g.incompat[s];
    }
    forall t | Bad(g, st', t) ensures t == s || (Going(st', s) && t in g.children[s]) {
      assert Steady(g, st, t);
      if t != s && t !in g.children[s] {
        BackedGrows(g.parents, LiveSet(st), LiveSet(st) + {s}, t);
        StrangerStaysBacked(g, LiveSet(st), s, t);
      }
    }
  }

  /** A stop recursion stops services and does nothing else to any of them. */
  ghost predicate OthersShrunk(v: SoundView, v': SoundView, s: Id) {
    v'.policies == v.policies &&
    forall t {:trigger ShrunkAt(v.st, v'.st, t)} :: t in v.st && t != s ==> ShrunkAt(v.st, v'.st, t)
  }

  // ---------------------------------------------------------------- Enable

  ghost function Enabled(st: map<Id, Flags>): set<Id> {
    set t | t in st && st[t].enabled
  }

  /** What Enable leaves behind: the service is enabled unless a linked conflict is, it is started
      afresh if it was not enabled before, and nothing that was running stops. */
  ghost predicate EnableResult(v: SoundView, v': SoundView, s: Id, ok: bool) {
    && s in v.st
    && (ok <==> s in Enabled(v.st) || NoConflict(v.g, v.st, s))
    && Enabled(v'.st) == Enabled(v.st) + (if ok then {s} else {})
    && Running(v.st) <= Running(v'.st)
    && Adds(v.trace, v'.trace, {Kind.Starting, Kind.Pardoning}, s)
    && if !ok || s in Enabled(v.st) then v'.st == v.st && v'.trace == v.trace && v'.policies == v.policies
       else TriedAfresh(v, v', s, v.st[s].failed)
  }

  lemma EnableAgain(v: SoundView, s: Id)
    requires s in v.st && v.st[s].enabled
    ensures Newer(v, v) && EnableResult(v, v, s, true)
  {
    NewerIsReflexive(v);
  }

  lemma EnableDenied(v: SoundView, w: SoundView, s: Id)
    requires s in v.st && !v.st[s].enabled && !NoConflict(v.g, v.st, s)
    requires OnlyAt(v, w, s) && v.serial < w.tags[s].serial
    requires w.st == v.st && w.policies == v.policies && w.trace == v.trace
    ensures Newer(v, w) && EnableResult(v, w, s, false) && (Settled(v) ==> Settled(w))
  {
    NewerIsReflexive(v);
    NewerTouch(v, v, w, s);
  }

  /** What Enable sets before it calls for the start. */
  ghost predicate SwitchedOn(v: SoundView, w: SoundView, s: Id) {
    && s in v.st && OnlyAt(v, w, s) && v.serial < w.tags[s].serial
    && w.st == v.st[s := v.st[s].(enabled := true, refused := false)] && w.trace == v.trace + [Recount(s)]
  }

  lemma SwitchOn(v: SoundView, s: Id, now: int) returns (w: SoundView)
    requires s in v.st
    ensures SwitchedOn(v, w, s) && w.serial == v.serial + 1 && w.tags[s] == Tag(EnabledReason, now, w.serial)
    ensures w.policies[s] == Recounted(v.policies[s])
  {
    var a := Announce(v, s, EnabledReason, now);
    var m := Mark(a, s, true, a.st[s].stopping);
    OnlyTwice(v, a, m, s);
    w := CountAgain(m, s);
    OnlyTwice(v, m, w, s);
    Overwritten(v.st, s, m.st[s], m.st[s].(refused := false));
  }

  lemma Recounting(v: SoundView, v': SoundView, s: Id)
    requires v'.trace == v.trace + [Recount(s)]
    ensures StartTimes(v', s) == [] && Adds(v.trace, v'.trace, {Kind.Pardoning}, s)
  {
    OneMoreEvent(v.trace, Recount(s), s);
    AddsOne(v.trace, Recount(s), {Kind.Pardoning}, s);
  }

  /** One start recursion away from the end of Enable. */
  ghost predicate Enabling(v: SoundView, v1: SoundView, s: Id) {
    && s in v.st && Newer(v, v1) && Arriving(v1, s)
    && v1.st == v.st[s := v.st[s].(enabled := true, refused := false)]
    && StartTimes(v1, s) == [] && Adds(v.trace, v1.trace, {Kind.Pardoning}, s)
  }

  lemma EnableBegins(v: SoundView, w: SoundView, s: Id)
    requires SwitchedOn(v, w, s) && !v.st[s].enabled && NoConflict(v.g, v.st, s) && Settled(v)
    ensures Enabling(v, w, s)
  {
    Recounting(v, w, s);
    assert Steady(v.g, v.st, s);
    NewerIsReflexive(v);
    NewerTouch(v, v, w, s);
    EnableArrives(v.g, v.st, s, v.st[s].(enabled := true, refused := false));
  }

  lemma EnableEnds(v: SoundView, v1: SoundView, v2: SoundView, s: Id)
    requires s in v.st && !v.st[s].enabled && NoConflict(v.g, v.st, s)
    requires Enabling(v, v1, s) && Starts(v1, v2, s)
    ensures Settled(v2) && Newer(v, v2) && EnableResult(v, v2, s, true)
  {
    StartSettles(v1, v2, s);
    OnwardIsTransitive(v, v1, v2);
    GrownSets(v1.st, v2.st);
    StartTriesAfresh(v, v1, v2, s, v.st[s].failed);
    AddsMore(v.trace, v1.trace, {Kind.Pardoning}, {Kind.Starting, Kind.Pardoning}, s);
    AddsOn(v.trace, v1.trace, v2.trace, {Kind.Starting, Kind.Pardoning}, {Kind.Starting}, s, s);
  }

  lemma GrownSets(st: map<Id, Flags>, st': map<Id, Flags>)
    requires Grown(st, st') && st.Keys == st'.Keys
    ensures Enabled(st') == Enabled(st) && Running(st) <= Running(st')
  {
    forall t | t in st ensures st'[t].enabled == st[t].enabled && (st[t].running ==> st'[t].running) {
      assert GrownAt(st, st', t);
    }
  }

  lemma ShrunkSets(st: map<Id, Flags>, st': map<Id, Flags>)
    requires Shrunk(st, st')
    ensures Enabled(st') == Enabled(st) && Running(st') <= Running(st)
  {
    forall t | t in st ensures st'[t].enabled == st[t].enabled && (st'[t].running ==> st[t].running) {
      assert ShrunkAt(st, st', t);
    }
  }

  // ---------------------------------------------------------------- Disable

  /** Something has happened, and in the end the provider of s was told to stop, with no other stop
      in progress. */
  ghost predicate EndsWithStop(v: SoundView, v': SoundView, s: Id) {
    |v.trace| < |v'.trace| && LastStop(v', s, [])
  }

  /** What Disable leaves behind: the service is neither enabled nor running, nor failed unless it
      was left alone; nothing else is started, marked or unmarked; no others that hold on to one
      another are stopped; and its own provider, if it was up, is stopped last. */
  ghost predicate DisableResult(v: SoundView, v': SoundView, s: Id) {
    && s in v.st && s in v'.st
    && Enabled(v'.st) == Enabled(v.st) - {s}
    && Running(v'.st) <= Running(v.st) - {s}
    && (v'.st[s].failed ==> v' == v) && (v.st[s].running ==> EndsWithStop(v, v', s))
    && OthersShrunk(v, v', s) && Spares(v, v', s)
    && Adds(v.trace, v'.trace, {Kind.Stopping, Kind.Pardoning}, s)
  }

  lemma DisableAgain(v: SoundView, s: Id)
    requires s in v.st && !v.st[s].enabled && Settled(v)
    ensures Newer(v, v) && DisableResult(v, v, s)
  {
    NewerIsReflexive(v);
    assert Steady(v.g, v.st, s);
    forall t | t in v.st ensures Steady(v.g, v.st, t) && ShrunkAt(v.st, v.st, t) {}
  }

  /** What Disable sets before it calls for the stop. */
  ghost predicate SwitchedOff(v: SoundView, w: SoundView, s: Id) {
    && s in v.st && OnlyAt(v, w, s) && v.serial < w.tags[s].serial && w.policies == v.policies
    && w.st == v.st[s := v.st[s].(enabled := false, failed := false)] && w.trace == v.trace + [Pardon(s)]
  }

  lemma SwitchOff(v: SoundView, s: Id, now: int) returns (w: SoundView)
    requires s in v.st
    ensures SwitchedOff(v, w, s) && w.serial == v.serial + 1 && w.tags[s] == Tag(DisabledReason, now, w.serial)
  {
    var a := Announce(v, s, DisabledReason, now);
    var m := Mark(a, s, false, a.st[s].stopping);
    OnlyTwice(v, a, m, s);
    w := Absolve(m, s);
    OnlyTwice(v, m, w, s);
    Overwritten(v.st, s, m.st[s], m.st[s].(failed := false));
  }

  /** One stop recursion away from the end of Disable. */
  ghost predicate Disabling(v: SoundView, v1: SoundView, s: Id) {
    && s in v.st && Settled(v) && Newer(v, v1) && Leaving(v1, s) && OnlyAt(v, v1, s) && v1.policies == v.policies
    && v1.st == v.st[s := v.st[s].(enabled := false, failed := false)]
    && Adds(v.trace, v1.trace, {Kind.Pardoning}, s)
  }

  lemma DisableBegins(v: SoundView, w: SoundView, s: Id)
    requires Settled(v) && SwitchedOff(v, w, s)
    ensures Disabling(v, w, s)
  {
    AddsOne(v.trace, Pardon(s), {Kind.Pardoning}, s);
    NewerIsReflexive(v);
    NewerTouch(v, v, w, s);
    WithdrawLeaves(v.g, v.st, s, v.st[s].(enabled := false, failed := false));
  }

  lemma DisableEnds(v: SoundView, v1: SoundView, v2: SoundView, s: Id)
    requires Disabling(v, v1, s) && Stops(v1, v2, s, [])
    ensures Settled(v2) && Newer(v, v2) && DisableResult(v, v2, s)
  {
    StopSettles(v1, v2, s);
    OnwardIsTransitive(v, v1, v2);
    ShrunkSets(v1.st, v2.st);
    assert Steady(v2.g, v2.st, s) && ShrunkAt(v1.st, v2.st, s) && Steady(v.g, v.st, s);
    ShrunkBut(v, v1, v2, s);
    SparesOthers(v, v1, s);
    SparesOn(v, v1, v2, s);
    AddsMore(v.trace, v1.trace, {Kind.Pardoning}, {Kind.Stopping, Kind.Pardoning}, s);
    AddsOn(v.trace, v1.trace, v2.trace, {Kind.Stopping, Kind.Pardoning}, {Kind.Stopping}, s, s);
  }

  lemma ShrunkBut(v: SoundView, v1: SoundView, v2: SoundView, s: Id)
    requires OnlyAt(v, v1, s) && v1.policies == v.policies && v2.policies == v1.policies && Shrunk(v1.st, v2.st)
    ensures OthersShrunk(v, v2, s)
  {
    forall t | t in v.st && t != s ensures ShrunkAt(v.st, v2.st, t) {
      assert ShrunkAt(v1.st, v2.st, t) && v1.st[t] == v.st[t];
    }
  }

  // ---------------------------------------------------------------- Shutdown

  /** The shutdown of one service withdraws it without a new serial. */
  lemma ShutBegins(v: SoundView, s: Id)
    requires s in v.st && Settled(v)
    ensures Leaving(Mark(v, s, false, v.st[s].stopping), s)
  {
    WithdrawLeaves(v.g, v.st, s, v.st[s].(enabled := false));
  }

  // ---------------------------------------------------------------- Restart

  /** The state in which Restart calls for the stop. */
  ghost function Withdrawn(v: SoundView, s: Id): (v': SoundView)
    requires s in v.st
    ensures OnlyAt(v, v', s) && v'.serial == v.serial + 1 && v'.tags[s] == v.tags[s].(serial := v'.serial)
    ensures v'.st == v.st[s := v.st[s].(enabled := false)] && v'.policies == v.policies && v'.trace == v.trace
  {
    var b := Bump(v, s);
    OnlyTwice(v, b, Mark(b, s, false, b.st[s].stopping), s);
    Mark(b, s, false, b.st[s].stopping)
  }

  /** A stop recursion and a start recursion away from the end of Restart. */
  ghost predicate Withdrawing(v: SoundView, v1: SoundView, s: Id) {
    && s in v.st && Settled(v) && Newer(v, v1) && Leaving(v1, s) && OnlyAt(v, v1, s) && v1.trace == v.trace
    && v.serial < v1.tags[s].serial && v1.st == v.st[s := v.st[s].(enabled := false)]
  }

  lemma RestartBegins(v: SoundView, w: SoundView, s: Id)
    requires s in v.st && Settled(v) && OnlyAt(v, w, s) && v.serial < w.tags[s].serial
    requires w.st == v.st[s := v.st[s].(enabled := false)] && w.trace == v.trace
    ensures Withdrawing(v, w, s)
  {
    NewerIsReflexive(v);
    NewerTouch(v, v, w, s);
    WithdrawLeaves(v.g, v.st, s, v.st[s].(enabled := false));
  }

  /** The mark of a fault and the count of attempts are taken away. */
  ghost function Afresh(v: SoundView, s: Id): (v': SoundView)
    requires s in v.st
    ensures OnlyAt(v, v', s) && v'.tags == v.tags && v'.serial == v.serial
    ensures v'.st == v.st[s := v.st[s].(failed := false, refused := false)]
    ensures v'.policies == v.policies[s := Recounted(v.policies[s])]
    ensures v'.trace == v.trace + [Recount(s), Pardon(s)]
  {
    var w := CountAgain(v, s);
    OnlyTwice(v, w, Absolve(w, s), s);
    Overwritten(v.st, s, w.st[s], w.st[s].(failed := false));
    assert v.trace + [Recount(s)] + [Pardon(s)] == v.trace + [Recount(s), Pardon(s)];
    Absolve(w, s)
  }

  lemma PardonsAll(v: SoundView, v': SoundView, s: Id)
    requires v'.trace == v.trace + [Recount(s), Pardon(s)]
    ensures StartTimes(v', s) == [] && Adds(v.trace, v'.trace, {Kind.Pardoning}, s)
  {
    var mid := v.trace + [Recount(s)];
    assert v'.trace == mid + [Pardon(s)];
    OneMoreEvent(v.trace, Recount(s), s);
    OneMoreEvent(mid, Pardon(s), s);
  }

  /** v2 is the state between the two recursions of Restart: all is settled, the service is down,
      and no others that hold on to one another have been stopped. */
  ghost predicate Midway(v: SoundView, v2: SoundView, s: Id) {
    && Settled(v2) && Newer(v, v2) && Running(v2.st) <= Running(v.st) - {s} && Spares(v, v2, s)
    && Adds(v.trace, v2.trace, {Kind.Stopping}, s)
  }

  /** From v2 on services are only started. */
  ghost predicate Upward(v2: SoundView, v': SoundView, s: Id) {
    Running(v2.st) <= Running(v'.st) && Adds(v2.trace, v'.trace, {Kind.Starting, Kind.Pardoning}, s)
  }

  ghost predicate ByWayOf(v: SoundView, v2: SoundView, v': SoundView, s: Id) {
    Midway(v, v2, s) && Upward(v2, v', s)
  }

  /** What Restart leaves behind: nothing gains or loses its enabling, and the service, if enabled,
      is first stopped and then started afresh. */
  ghost predicate RestartResult(v: SoundView, v': SoundView, s: Id) {
    && Enabled(v'.st) == Enabled(v.st)
    && Adds(v.trace, v'.trace, {Kind.Stopping, Kind.Starting, Kind.Pardoning}, s)
    && if s in Enabled(v.st) then TriedAfresh(v, v', s, false) && exists v2 :: ByWayOf(v, v2, v', s) else v' == v
  }

  /** The service was enabled, has been withdrawn, and the stop recursion is over. */
  ghost predicate HalfRestarted(v: SoundView, v1: SoundView, v2: SoundView, s: Id) {
    Withdrawing(v, v1, s) && v.st[s].enabled && Stops(v1, v2, s, [])
  }

  /** What Restart sets between the stop and the start: the service is enabled again, with nothing held
      against it. */
  ghost predicate EnabledAgain(v2: SoundView, v3: SoundView, s: Id) {
    && s in v2.st && OnlyAt(v2, v3, s) && v3.tags[s].serial == v2.tags[s].serial
    && v3.st == v2.st[s := v2.st[s].(enabled := true, failed := false, refused := false)]
    && v3.trace == v2.trace + [Recount(s), Pardon(s)]
  }

  lemma EnableAfresh(v: SoundView, s: Id, now: int) returns (w: SoundView)
    requires s in v.st
    ensures EnabledAgain(v, w, s) && w.serial == v.serial && w.tags[s] == Tag(Restarting, now, v.tags[s].serial)
    ensures w.policies[s] == Recounted(v.policies[s])
  {
    var n := Note(v, s, Restarting, now);
    var a := Afresh(n, s);
    OnlyTwice(v, n, a, s);
    w := Mark(a, s, true, a.st[s].stopping);
    OnlyTwice(v, a, w, s);
    Overwritten(v.st, s, a.st[s], a.st[s].(enabled := true));
  }

  /** One start recursion away from the end of Restart. */
  ghost predicate Restartable(v: SoundView, v3: SoundView, s: Id) {
    && Newer(v, v3) && Arriving(v3, s) && Enabled(v3.st) == Enabled(v.st)
    && s in v3.st && !v3.st[s].failed && !v3.st[s].refused && StartTimes(v3, s) == []
    && Adds(v.trace, v3.trace, {Kind.Stopping, Kind.Starting, Kind.Pardoning}, s)
  }

  /** Between the two recursions of Restart: the service is down, and nothing that conflicts
      with it has been enabled meanwhile. */
  lemma RestartUnopposed(v: SoundView, v1: SoundView, v2: SoundView, s: Id)
    requires HalfRestarted(v, v1, v2, s)
    ensures s in v2.st && !v2.st[s].enabled && NoConflict(v2.g, v2.st, s)
    ensures Enabled(v2.st) == Enabled(v.st) - {s}
  {
    ShrunkSets(v1.st, v2.st);
    assert Unopposed(v.g, v.st, s);
    forall c | c in v.g.incompat[s] && c in v2.st ensures !v2.st[c].enabled {
      assert c in Enabled(v2.st) ==> c in Enabled(v1.st);
    }
    assert s in Enabled(v2.st) ==> s in Enabled(v1.st);
  }

  lemma RestartMidway(v: SoundView, v1: SoundView, v2: SoundView, s: Id)
    requires HalfRestarted(v, v1, v2, s)
    ensures Midway(v, v2, s)
  {
    StopSettles(v1, v2, s);
    OnwardIsTransitive(v, v1, v2);
    ShrunkSets(v1.st, v2.st);
    assert Running(v1.st) == Running(v.st) && Steady(v2.g, v2.st, s);
    SparesOthers(v, v1, s);
    SparesOn(v, v1, v2, s);
  }

  lemma RestartIsNewer(v: SoundView, v1: SoundView, v2: SoundView, v3: SoundView, s: Id)
    requires HalfRestarted(v, v1, v2, s) && EnabledAgain(v2, v3, s)
    ensures Newer(v, v3)
  {
    OnwardIsTransitive(v, v1, v2);
    assert OnwardAt(v1, v2, s);
    NewerTouch(v, v2, v3, s);
  }

  lemma RestartTurns(v: SoundView, v1: SoundView, v2: SoundView, v3: SoundView, s: Id)
    requires HalfRestarted(v, v1, v2, s) && EnabledAgain(v2, v3, s)
    ensures Restartable(v, v3, s) && ByWayOf(v, v2, v3, s)
  {
    RestartMidway(v, v1, v2, s);
    RestartUnopposed(v, v1, v2, s);
    RestartIsNewer(v, v1, v2, v3, s);
    PardonsAll(v2, v3, s);
    RestartAdds(v, v2, v3, s);
    RestartArrives(v, v2, v3, s);
  }

  lemma RestartArrives(v: SoundView, v2: SoundView, v3: SoundView, s: Id)
    requires Settled(v2) && EnabledAgain(v2, v3, s) && !v2.st[s].enabled && NoConflict(v2.g, v2.st, s)
    requires s in Enabled(v.st) && Enabled(v2.st) == Enabled(v.st) - {s}
    ensures Arriving(v3, s) && Enabled(v3.st) == Enabled(v.st) && Running(v3.st) == Running(v2.st)
  {
    EnableArrives(v2.g, v2.st, s, v2.st[s].(enabled := true, failed := false, refused := false));
    assert Enabled(v3.st) == Enabled(v2.st) + {s};
  }

  lemma RestartAdds(v: SoundView, v2: SoundView, v3: SoundView, s: Id)
    requires Adds(v.trace, v2.trace, {Kind.Stopping}, s) && Adds(v2.trace, v3.trace, {Kind.Pardoning}, s)
    ensures Adds(v.trace, v3.trace, {Kind.Stopping, Kind.Starting, Kind.Pardoning}, s)
    ensures Adds(v2.trace, v3.trace, {Kind.Starting, Kind.Pardoning}, s)
  {
    AddsMore(v2.trace, v3.trace, {Kind.Pardoning}, {Kind.Starting, Kind.Pardoning}, s);
    AddsMore(v.trace, v2.trace, {Kind.Stopping}, {Kind.Stopping, Kind.Starting, Kind.Pardoning}, s);
    AddsOn(v.trace, v2.trace, v3.trace, {Kind.Stopping, Kind.Starting, Kind.Pardoning}, {Kind.Pardoning}, s, s);
  }

  lemma RestartEnds(v: SoundView, v2: SoundView, v3: SoundView, v4: SoundView, s: Id)
    requires Restartable(v, v3, s) && ByWayOf(v, v2, v3, s) && Starts(v3, v4, s) && s in Enabled(v.st)
    ensures Settled(v4) && Newer(v, v4) && RestartResult(v, v4, s)
  {
    StartSettles(v3, v4, s);
    OnwardIsTransitive(v, v3, v4);
    GrownSets(v3.st, v4.st);
    StartTriesAfresh(v, v3, v4, s, false);
    AddsOn(v2.trace, v3.trace, v4.trace, {Kind.Starting, Kind.Pardoning}, {Kind.Starting}, s, s);
    assert ByWayOf(v, v2, v4, s);
    AddsOn(v.trace, v3.trace, v4.trace, {Kind.Stopping, Kind.Starting, Kind.Pardoning}, {Kind.Starting}, s, s);
  }

  // ---------------------------------------------------------------- Clear and selfHeal

  /** What Clear sets before it calls for the start: nothing is held against the service any more. */
  ghost predicate Pardoned(v: SoundView, w: SoundView, s: Id) {
    && s in v.st && OnlyAt(v, w, s) && v.serial < w.tags[s].serial
    && w.st == v.st[s := v.st[s].(failed := false, refused := false)]
    && w.trace == v.trace + [Recount(s), Pardon(s)]
  }

  lemma PardonAll(v: SoundView, s: Id, now: int) returns (w: SoundView)
    requires s in v.st
    ensures Pardoned(v, w, s) && w.serial == v.serial + 1
    ensures w.tags[s] == Tag(if v.st[s].failed then ClearedFault else v.tags[s].reason, now, w.serial)
    ensures w.policies[s] == Recounted(v.policies[s])
  {
    var b := Bump(v, s);
    var n := Note(b, s, if v.st[s].failed then ClearedFault else v.tags[s].reason, now);
    OnlyTwice(v, b, n, s);
    w := Afresh(n, s);
    OnlyTwice(v, n, w, s);
  }

  /** One start recursion away from the end of Clear. */
  ghost predicate Clearing(v: SoundView, v1: SoundView, s: Id) {
    && s in v1.st && Newer(v, v1) && Arriving(v1, s)
    && Enabled(v1.st) == Enabled(v.st) && Running(v1.st) == Running(v.st)
    && !v1.st[s].failed && !v1.st[s].refused
    && StartTimes(v1, s) == [] && Adds(v.trace, v1.trace, {Kind.Pardoning}, s)
  }

  lemma ClearBegins(v: SoundView, w: SoundView, s: Id)
    requires Settled(v) && Pardoned(v, w, s)
    ensures Clearing(v, w, s)
  {
    PardonsAll(v, w, s);
    NewerIsReflexive(v);
    NewerTouch(v, v, w, s);
    ClearArrives(v.g, v.st, s);
    assert Enabled(w.st) == Enabled(v.st) && Running(w.st) == Running(v.st);
  }

  /** What Clear and a self-healing attempt leave behind: nothing loses its enabling or stops. */
  ghost predicate ClearResult(v: SoundView, v': SoundView, s: Id) {
    && Enabled(v'.st) == Enabled(v.st) && Running(v.st) <= Running(v'.st)
    && Adds(v.trace, v'.trace, {Kind.Starting, Kind.Pardoning}, s)
  }

  lemma ClearEnds(v: SoundView, v1: SoundView, v2: SoundView, s: Id)
    requires Clearing(v, v1, s) && Starts(v1, v2, s)
    ensures Settled(v2) && Newer(v, v2) && ClearResult(v, v2, s) && TriedAfresh(v, v2, s, false)
  {
    StartSettles(v1, v2, s);
    OnwardIsTransitive(v, v1, v2);
    GrownSets(v1.st, v2.st);
    StartTriesAfresh(v, v1, v2, s, false);
    AddsMore(v.trace, v1.trace, {Kind.Pardoning}, {Kind.Starting, Kind.Pardoning}, s);
    AddsOn(v.trace, v1.trace, v2.trace, {Kind.Starting, Kind.Pardoning}, {Kind.Starting}, s, s);
  }

  lemma HealEnds(v: SoundView, v2: SoundView, s: Id)
    requires Settled(v) && Starts(v, v2, s)
    ensures Settled(v2) && Newer(v, v2) && ClearResult(v, v2, s)
  {
    StartSettles(v, v2, s);
    GrownSets(v.st, v2.st);
    AddsMore(v.trace, v2.trace, {Kind.Starting}, {Kind.Starting, Kind.Pardoning}, s);
  }

  // ---------------------------------------------------------------- checkService

  /** What a check leaves behind: nothing loses its enabling, nothing is started, no others that
      hold on to one another are stopped, and a service that was found at fault is failed and down,
      its provider stopped last. */
  ghost predicate CheckResult(v: SoundView, v': SoundView, s: Id, fault: bool) {
    && Enabled(v'.st) == Enabled(v.st)
    && Running(v'.st) <= Running(v.st)
    && OthersShrunk(v, v', s) && Spares(v, v', s)
    && Adds(v.trace, v'.trace, {Kind.Faulting, Kind.Stopping}, s)
    && if fault then s in v'.st && v'.st[s].failed && !v'.st[s].running && EndsWithStop(v, v', s)
       else v'.st == v.st && v'.trace == v.trace
  }

  ghost function FaultFound(v: SoundView, s: Id): (v': SoundView)
    requires s in v.st && v.st[s].running
    ensures OnlyAt(v, v', s) && v'.serial == v.serial + 1 && v'.tags[s] == v.tags[s].(serial := v'.serial)
    ensures v'.st == v.st[s := v.st[s].(failed := true)] && v'.policies == v.policies
    ensures v'.trace == v.trace + [Fault(s)]
  {
    var b := Bump(v, s);
    OnlyTwice(v, b, Blame(b, s), s);
    Blame(b, s)
  }

  /** One stop recursion away from the end of a check that has found a fault. */
  ghost predicate Faulting(v: SoundView, v1: SoundView, s: Id) {
    && s in v.st && Newer(v, v1) && Leaving(v1, s) && Going(v1.st, s) && OnlyAt(v, v1, s)
    && v1.policies == v.policies && v1.st == v.st[s := v.st[s].(failed := true)]
    && Adds(v.trace, v1.trace, {Kind.Faulting}, s)
  }

  lemma FaultBegins(v: SoundView, w: SoundView, s: Id)
    requires s in v.st && v.st[s].running && Settled(v) && OnlyAt(v, w, s) && v.serial < w.tags[s].serial
    requires w.st == v.st[s := v.st[s].(failed := true)] && w.policies == v.policies
    requires w.trace == v.trace + [Fault(s)]
    ensures Faulting(v, w, s)
  {
    AddsOne(v.trace, Fault(s), {Kind.Faulting}, s);
    NewerIsReflexive(v);
    NewerTouch(v, v, w, s);
    assert Steady(v.g, v.st, s);
    WithdrawLeaves(v.g, v.st, s, v.st[s].(failed := true));
  }

  lemma FaultEnds(v: SoundView, v1: SoundView, v2: SoundView, s: Id)
    requires Faulting(v, v1, s) && Stops(v1, v2, s, [])
    ensures Settled(v2) && Newer(v, v2) && CheckResult(v, v2, s, true)
  {
    StopSettles(v1, v2, s);
    OnwardIsTransitive(v, v1, v2);
    ShrunkSets(v1.st, v2.st);
    assert ShrunkAt(v1.st, v2.st, s) && Steady(v2.g, v2.st, s);
    assert Enabled(v1.st) == Enabled(v.st) && Running(v1.st) == Running(v.st);
    ShrunkBut(v, v1, v2, s);
    SparesOthers(v, v1, s);
    SparesOn(v, v1, v2, s);
    AddsMore(v.trace, v1.trace, {Kind.Faulting}, {Kind.Faulting, Kind.Stopping}, s);
    AddsOn(v.trace, v1.trace, v2.trace, {Kind.Faulting, Kind.Stopping}, {Kind.Stopping}, s, s);
  }

  lemma CheckedHealthy(v: SoundView, w: SoundView, s: Id)
    requires s in v.st && Settled(v)
    requires w == v || (OnlyAt(v, w, s) && v.serial < w.tags[s].serial)
    requires w.st == v.st && w.policies == v.policies && w.trace == v.trace
    ensures Settled(w) && Newer(v, w) && CheckResult(v, w, s, false)
  {
    NewerIsReflexive(v);
    if w != v {
      NewerTouch(v, v, w, s);
    }
    SameHolders(v, w);
    forall t | t in v.st ensures Steady(v.g, v.st, t) && ShrunkAt(v.st, w.st, t) {}
  }
}
