/** What a start recursion does to the state of the supervisor. */
module Starting {
  import opened Linkage
  import opened RateLimits
  import opened Traces
  import opened Supervision

  /** A start recursion leaves running services as they are and touches nobody's right to run. */
  ghost predicate GrownAt(st: map<Id, Flags>, st': map<Id, Flags>, t: Id) {
    && t in st && t in st'
    && st'[t].enabled == st[t].enabled && st'[t].stopping == st[t].stopping
    && (st[t].running ==> st'[t] == st[t])
  }

  ghost predicate Grown(st: map<Id, Flags>, st': map<Id, Flags>) {
    forall t {:trigger GrownAt(st, st', t)} :: t in st ==> GrownAt(st, st', t)
  }

  ghost predicate KeptAt(v: SoundView, v': SoundView, t: Id) {
    t in v.st ==>
      && t in v'.st
      && v'.policies[t].restart == v.policies[t].restart
      && v'.policies[t].rate == v.policies[t].rate && v'.policies[t].period == v.policies[t].period
      && (v.st[t].running ==> v'.tags[t] == v.tags[t] && v'.policies[t] == v.policies[t])
  }

  /** Nobody's limit changes, and whatever is running keeps its status, its serial and its count. */
  ghost predicate Kept(v: SoundView, v': SoundView) {
    forall t {:trigger KeptAt(v, v', t)} :: t in v.st ==> KeptAt(v, v', t)
  }

  /** No service is left able to run without an excuse that was not so before, except those in `todo`. */
  ghost predicate FewerWait(v: SoundView, v': SoundView, s: Id, todo: set<Id>) {
    forall t {:trigger Waits(v'.g, v'.st, t)} :: Waits(v'.g, v'.st, t) ==> t != s && (Waits(v.g, v.st, t) || t in todo)
  }

  /** The provider of s has been asked to start, at a time the limiter allows, and has answered. */
  ghost predicate Asked(v: SoundView, v': SoundView, s: Id, ok: bool) {
    && s in v.st && |v.trace| < |v'.trace| && v'.trace[|v.trace|].Start?
    && var e := v'.trace[|v.trace|];
       e.s == s && e.ok == ok && e.live == LiveSet(v.st) && InTime(v, s, e.at)
  }

  /** The limiter has turned s down, as its rule requires, and nothing else has happened. */
  ghost predicate TurnedDown(v: SoundView, v': SoundView, s: Id) {
    && s in v.st && v'.st == v.st[s := v.st[s].(refused := true)]
    && |v'.trace| == |v.trace| + 1 && v'.trace[|v.trace|].Refused? && v'.trace[|v.trace|].s == s
    && Barred(v, s, v'.trace[|v.trace|].at)
  }

  /** What becomes of s itself: its provider is called exactly if s is able to run and the limiter
      lets it, before any other, and flags and status tell how that went. */
  ghost predicate Attempted(v: SoundView, v': SoundView, s: Id) {
    && s in v.st && s in v'.st
    && if !Able(v, s) then v'.st == v.st && v'.trace == v.trace
       else if v'.st[s].refused then TurnedDown(v, v', s)
       else
         && Asked(v, v', s, v'.st[s].running) && v'.st[s].failed == !v'.st[s].running
         && if v'.st[s].running then v'.tags[s].reason == StartedReason else v'.tags[s].reason.FailedStart?
  }

  /** The effect of `startRecurse` on s. */
  ghost predicate Starts(v: SoundView, v': SoundView, s: Id) {
    && Attempted(v, v', s)
    && Newer(v, v')
    && Closed(v'.g, v'.st)
    && Grown(v.st, v'.st) && Kept(v, v')
    && FewerWait(v, v', s, {})
    && Adds(v.trace, v'.trace, {Kind.Starting}, s)
  }

  /** The effect of `startRecurse` on s while the children in `todo` are still to be visited. */
  ghost predicate StartLoop(v: SoundView, v': SoundView, s: Id, todo: set<Id>) {
    && Newer(v, v')
    && Closed(v'.g, v'.st)
    && Grown(v.st, v'.st) && Kept(v, v')
    && FewerWait(v, v', s, todo)
    && Able(v, s) && s in v'.st && v'.st[s].running && v'.tags[s].reason == StartedReason
    && Asked(v, v', s, true)
    && Adds(v.trace, v'.trace, {Kind.Starting}, s)
  }

  lemma LoopEnds(v: SoundView, v': SoundView, s: Id)
    requires StartLoop(v, v', s, {})
    ensures Starts(v, v', s)
  {
    assert Steady(v'.g, v'.st, s);
    Flagged(v', s);
  }

  /** The services a start recursion may still start. */
  ghost function Idle(st: map<Id, Flags>): set<Id> {
    set t | t in st && !st[t].running
  }

  lemma IdleShrinks(v: SoundView, v': SoundView, s: Id, todo: set<Id>)
    requires StartLoop(v, v', s, todo)
    ensures Idle(v'.st) < Idle(v.st)
  {
    forall t | t in Idle(v'.st) ensures t in Idle(v.st) {
      assert GrownAt(v.st, v'.st, t);
    }
    assert s in Idle(v.st) && s !in Idle(v'.st);
  }

  lemma StartChild(v: SoundView, v1: SoundView, v2: SoundView, s: Id, c: Id, todo: set<Id>)
    requires StartLoop(v, v1, s, todo + {c}) && Starts(v1, v2, c)
    ensures StartLoop(v, v2, s, todo)
  {
    OnwardIsTransitive(v, v1, v2);
    AddsOn(v.trace, v1.trace, v2.trace, {Kind.Starting}, {Kind.Starting}, s, c);
    assert GrownAt(v1.st, v2.st, s) && KeptAt(v1, v2, s);
    forall t | t in v.st ensures GrownAt(v.st, v2.st, t) && KeptAt(v, v2, t) {
      assert GrownAt(v.st, v1.st, t) && GrownAt(v1.st, v2.st, t) && KeptAt(v, v1, t) && KeptAt(v1, v2, t);
    }
    forall t | Waits(v2.g, v2.st, t) ensures t != s && (Waits(v.g, v.st, t) || t in todo) {
      assert Waits(v1.g, v1.st, t);
    }
  }

  // ---------------------------------------------------------------- one attempt

  /** A change of s that leaves every service's right to run as it was. */
  lemma SameStanding(g: Graph, st: map<Id, Flags>, s: Id, f: Flags)
    requires s in st && f.enabled == st[s].enabled && f.stopping == st[s].stopping
    requires !f.running && !st[s].running
    ensures forall t {:trigger CanRun(g, st[s := f], t)} :: CanRun(g, st[s := f], t) <==> CanRun(g, st, t)
  {
    assert LiveSet(st[s := f]) == LiveSet(st);
  }

  lemma StillDown(g: Graph, st: map<Id, Flags>, s: Id, f: Flags)
    requires Closed(g, st) && s in st && f.enabled == st[s].enabled && f.stopping == st[s].stopping
    requires !f.running && !st[s].running && (f.failed || f.refused)
    ensures Closed(g, st[s := f]) && Grown(st, st[s := f])
    ensures forall t {:trigger Waits(g, st[s := f], t)} :: Waits(g, st[s := f], t) ==> t != s && Waits(g, st, t)
  {
    SameStanding(g, st, s, f);
    forall t | t in st ensures Steady(g, st[s := f], t) && GrownAt(st, st[s := f], t) {
      assert Steady(g, st, t);
    }
  }

  lemma NowUp(g: Graph, st: map<Id, Flags>, s: Id, f: Flags)
    requires Closed(g, st) && CanRun(g, st, s) && !st[s].running && st.Keys == g.children.Keys
    requires f == st[s].(running := true, failed := false, refused := false)
    ensures Closed(g, st[s := f]) && Grown(st, st[s := f])
    ensures forall t {:trigger Waits(g, st[s := f], t)} ::
              Waits(g, st[s := f], t) ==> t != s && (Waits(g, st, t) || t in g.children[s])
  {
    var st' := st[s := f];
    assert LiveSet(st') == LiveSet(st) + {s};
    forall t | t in st ensures Steady(g, st', t) && GrownAt(st, st', t) {
      assert Steady(g, st, t);
      if st'[t].running {
        BackedGrows(g.parents, LiveSet(st), LiveSet(st'), t);
      }
    }
    forall t | Waits(g, st', t) ensures t != s && (Waits(g, st, t) || t in g.children[s]) {
      if t !in g.children[s] {
        StrangerStaysBacked(g, LiveSet(st), s, t);
      }
    }
  }

  /** At most a report about s. */
  ghost predicate Reports(v: SoundView, v': SoundView, s: Id) {
    Quiet(v, v') && OnlyAt(v, v', s) && s in v.st && (v.st[s].running ==> v'.tags == v.tags)
  }

  lemma LookedAt(v: SoundView, v': SoundView, s: Id)
    requires Quiet(v, v') && Told(v, v', s) && !v.st[s].running
    ensures Reports(v, v', s)
  {
  }

  lemma StartDenied(v0: SoundView, v: SoundView, s: Id)
    requires Reports(v0, v, s) && Closed(v0.g, v0.st) && !Able(v0, s)
    ensures Starts(v0, v, s)
  {
    forall t | t in v0.st ensures Steady(v.g, v.st, t) && GrownAt(v0.st, v.st, t) && KeptAt(v0, v, t) {
      assert Steady(v0.g, v0.st, t);
    }
  }

  lemma OthersKeep(v0: SoundView, v: SoundView, v': SoundView, s: Id)
    requires OnlyAt(v0, v, s) && OnlyAt(v, v', s) && s in v0.st && !v0.st[s].running
    requires v'.policies[s].restart == v0.policies[s].restart
    requires v'.policies[s].rate == v0.policies[s].rate && v'.policies[s].period == v0.policies[s].period
    ensures Kept(v0, v')
  {
    forall t | t in v0.st ensures KeptAt(v0, v', t) {
      assert t != s ==> v'.tags[t] == v.tags[t] && v'.policies[t] == v.policies[t];
    }
  }

  lemma StartRefused(v0: SoundView, v: SoundView, v': SoundView, s: Id, at: int)
    requires Reports(v0, v, s) && Closed(v0.g, v0.st) && Able(v0, s) && Barred(v, s, at)
    requires OnlyAt(v, v', s) && v'.tags == v.tags && v'.policies == v.policies
    requires v'.st == v.st[s := v.st[s].(refused := true)] && v'.trace == v.trace + [Refused(s, at)]
    ensures Starts(v0, v', s)
  {
    StillDown(v0.g, v0.st, s, v0.st[s].(refused := true));
    forall t ensures OnwardAt(v0, v', t) {
      assert OnwardAt(v0, v, t);
    }
    OthersKeep(v0, v, v', s);
    AddsOne(v0.trace, Refused(s, at), {Kind.Starting}, s);
  }

  /** v' is v with one attempt made, under a new serial and with the status that tells how it went. */
  ghost predicate OneAttempt(v: SoundView, v': SoundView, s: Id, at: int, ok: bool) {
    && Able(v, s) && InTime(v, s, at) && OnlyAt(v, v', s)
    && v'.st == v.st[s := v.st[s].(running := ok, failed := !ok, refused := false)]
    && v'.tags[s].serial == v'.serial == v.serial + 1
    && (if ok then v'.tags[s].reason == StartedReason else v'.tags[s].reason.FailedStart?)
    && v'.policies[s] == Record(v.policies[s], at)
    && v'.trace == v.trace + [Start(s, at, LiveSet(v.st), ok)]
  }

  lemma MakeAttempt(v: SoundView, s: Id, at: int, ok: bool, why: Reason, now: int) returns (w: SoundView)
    requires Able(v, s) && InTime(v, s, at) && (if ok then why.StartedReason? else why.FailedStart?)
    ensures OneAttempt(v, w, s, at, ok) && w.tags[s] == Tag(why, now, w.serial)
  {
    var b := Bump(v, s);
    var a := Attempt(b, s, at, ok);
    OnlyTwice(v, b, a, s);
    w := Note(a, s, why, now);
    OnlyTwice(v, a, w, s);
  }

  lemma AttemptKeeps(v0: SoundView, v: SoundView, v': SoundView, s: Id, at: int, ok: bool)
    requires Reports(v0, v, s) && Able(v0, s) && OneAttempt(v, v', s, at, ok)
    ensures Newer(v0, v') && Kept(v0, v') && Asked(v0, v', s, ok) && Adds(v0.trace, v'.trace, {Kind.Starting}, s)
  {
    NewerTouch(v0, v, v', s);
    OthersKeep(v0, v, v', s);
    AddsOne(v0.trace, Start(s, at, LiveSet(v.st), ok), {Kind.Starting}, s);
  }

  lemma StartFails(v0: SoundView, v: SoundView, v': SoundView, s: Id, at: int)
    requires Reports(v0, v, s) && Closed(v0.g, v0.st) && Able(v0, s) && OneAttempt(v, v', s, at, false)
    ensures Starts(v0, v', s)
  {
    AttemptKeeps(v0, v, v', s, at, false);
    StillDown(v0.g, v0.st, s, v0.st[s].(running := false, failed := true, refused := false));
  }

  lemma StartSucceeds(v0: SoundView, v: SoundView, v': SoundView, s: Id, at: int)
    requires Reports(v0, v, s) && Closed(v0.g, v0.st) && Able(v0, s) && OneAttempt(v, v', s, at, true)
    ensures StartLoop(v0, v', s, v0.g.children[s])
  {
    AttemptKeeps(v0, v, v', s, at, true);
    NowUp(v0.g, v0.st, s, v0.st[s].(running := true, failed := false, refused := false));
  }
}
