/** The state of the supervisor as a value, the small changes its methods make to that state,
    and what a whole start or stop recursion does to it. */
module Supervision {
  import opened Linkage
  import opened Names
  import opened RateLimits
  import opened Traces
  import Indexing

  /** `refused` records that the limiter's latest word was no. */
  datatype Flags = Flags(enabled: bool, running: bool, stopping: bool, failed: bool, refused: bool)

  datatype Reason =
    | NoReason | AddedService | RemovedService | EnabledReason | DisabledReason | ConflictReason
    | RestartStop | Restarting | ClearedFault | StartedReason | FailedStart(code: int) | UnmetDependency
    | Faulted(code: int) | ShuttingDown | Healthy

  datatype Tag = Tag(reason: Reason, stamp: int, serial: int)

  /** The links, what the services declare, their flags, status and policies, the manager's serial,
      and the history of the calls made of the providers. */
  datatype View = View(
    g: Graph, attrs: map<Id, Attr>, st: map<Id, Flags>, tags: map<Id, Tag>, policies: map<Id, Policy>,
    serial: int, trace: seq<Event>)

  // ---------------------------------------------------------------- what the flags mean

  /** A service that can satisfy a dependency. */
  ghost predicate Live(st: map<Id, Flags>, d: Id) {
    d in st && st[d].enabled && st[d].running && !st[d].stopping && !st[d].failed
  }

  ghost function LiveSet(st: map<Id, Flags>): set<Id> {
    set d | d in st && Live(st, d)
  }

  ghost function Running(st: map<Id, Flags>): set<Id> {
    set d | d in st && st[d].running
  }

  ghost predicate NoConflict(g: Graph, st: map<Id, Flags>, s: Id) {
    s in g.incompat && forall c :: c in g.incompat[s] && c in st ==> !st[c].enabled
  }

  ghost predicate CanRun(g: Graph, st: map<Id, Flags>, s: Id) {
    && s in st && st[s].enabled && !st[s].stopping
    && Backed(g.parents, LiveSet(st), s)
    && NoConflict(g, st, s)
  }

  /** Running without the right to: the services a stop still has to bring down. */
  ghost predicate Bad(g: Graph, st: map<Id, Flags>, t: Id) {
    t in st && st[t].running && !st[t].stopping && !CanRun(g, st, t)
  }

  /** Able to run, with no excuse for not running. */
  ghost predicate Waits(g: Graph, st: map<Id, Flags>, t: Id) {
    t in st && !st[t].running && !st[t].failed && !st[t].refused && CanRun(g, st, t)
  }

  ghost predicate Steady(g: Graph, st: map<Id, Flags>, t: Id) {
    t in st && !st[t].stopping && (st[t].running ==> !st[t].failed && CanRun(g, st, t))
  }

  /** No stop in progress, and every running service is entitled to run. */
  ghost predicate Closed(g: Graph, st: map<Id, Flags>) {
    forall t {:trigger Steady(g, st, t)} :: t in st ==> Steady(g, st, t)
  }

  ghost predicate Unopposed(g: Graph, st: map<Id, Flags>, t: Id) {
    t in st && (st[t].enabled ==> NoConflict(g, st, t))
  }

  /** No two linked conflicting services are both enabled. */
  ghost predicate ConflictFree(g: Graph, st: map<Id, Flags>) {
    forall t {:trigger Unopposed(g, st, t)} :: t in st ==> Unopposed(g, st, t)
  }

  ghost predicate NoneWaits(g: Graph, st: map<Id, Flags>) {
    forall t {:trigger Waits(g, st, t)} :: !(t in st && Waits(g, st, t))
  }

  /** What holds between any two operations. */
  ghost predicate Settled(v: View) {
    Closed(v.g, v.st) && ConflictFree(v.g, v.st) && NoneWaits(v.g, v.st)
  }

  // ---------------------------------------------------------------- what always holds

  ghost predicate Apart(tags: map<Id, Tag>, t: Id, u: Id) {
    t in tags && u in tags && t != u ==> tags[t].serial != tags[u].serial
  }

  ghost predicate NotAbove(tags: map<Id, Tag>, serial: int, t: Id) {
    t in tags ==> tags[t].serial <= serial
  }

  /** The serials of the services are pairwise distinct and at most the manager's. */
  ghost predicate Numbered(tags: map<Id, Tag>, serial: int) {
    && (forall t {:trigger NotAbove(tags, serial, t)} :: t in tags ==> NotAbove(tags, serial, t))
    && (forall t, u {:trigger Apart(tags, t, u)} :: t in tags && u in tags ==> Apart(tags, t, u))
  }

  /** The flags and limits of t are those its history accounts for; its ring holds the times at which
      its provider has been asked to start; and only a service that is down stands refused. */
  ghost predicate StandsAt(st: map<Id, Flags>, policies: map<Id, Policy>, tr: seq<Event>, t: Id) {
    t in st && t in policies ==>
      var past := Recall(tr, t);
      && st[t].failed == past.failed && st[t].refused == past.refused && (past.refused ==> !st[t].running)
      && policies[t].rate == past.rate && policies[t].period == past.period && InRing(policies[t], past.times)
  }

  ghost predicate Standing(st: map<Id, Flags>, policies: map<Id, Policy>, tr: seq<Event>) {
    forall t {:trigger StandsAt(st, policies, tr, t)} :: t in st ==> StandsAt(st, policies, tr, t)
  }

  ghost predicate Recorded(g: Graph, st: map<Id, Flags>, tr: seq<Event>) {
    Up(tr) == Running(st) && Parents(tr) == g.parents && SafeTrace(tr)
  }

  datatype Aspect = OfLinks | OfSerials | OfFlags | OfCalls

  ghost predicate SoundAt(v: View, a: Aspect) {
    match a
    case OfLinks => Indexing.IsIndex(v.g, v.attrs)
    case OfSerials => Numbered(v.tags, v.serial)
    case OfFlags => Standing(v.st, v.policies, v.trace)
    case OfCalls => Recorded(v.g, v.st, v.trace)
  }

  ghost predicate Sound(v: View) {
    && v.g.parents.Keys == v.attrs.Keys == v.st.Keys == v.tags.Keys == v.policies.Keys
    && forall a {:trigger SoundAt(v, a)} :: SoundAt(v, a)
  }

  type SoundView = v: View | Sound(v)
    ghost witness View(Links(map[], map[], map[]), map[], map[], map[], map[], 0, [])

  lemma Serials(v: SoundView)
    ensures Numbered(v.tags, v.serial)
  {
    assert SoundAt(v, OfSerials);
  }

  lemma Flagged(v: SoundView, t: Id)
    requires t in v.st
    ensures StandsAt(v.st, v.policies, v.trace, t)
  {
    assert SoundAt(v, OfFlags);
  }

  lemma Called(v: SoundView)
    ensures Recorded(v.g, v.st, v.trace)
  {
    assert SoundAt(v, OfCalls);
  }

  lemma AllAspects(v: View)
    requires v.g.parents.Keys == v.attrs.Keys == v.st.Keys == v.tags.Keys == v.policies.Keys
    requires Indexing.IsIndex(v.g, v.attrs) && Numbered(v.tags, v.serial)
    requires Standing(v.st, v.policies, v.trace) && Recorded(v.g, v.st, v.trace)
    ensures Sound(v)
  {
    forall a ensures SoundAt(v, a) {
      match a
      case OfLinks =>
      case OfSerials =>
      case OfFlags =>
      case OfCalls =>
    }
  }

  // ---------------------------------------------------------------- version numbers

  /** What a client of the manager can read of a service. */
  datatype Visible = Visible(enabled: bool, running: bool, failed: bool, reason: Reason, stamp: int)

  ghost function Seen(v: View, t: Id): Visible
    requires t in v.st && t in v.tags
  {
    Visible(v.st[t].enabled, v.st[t].running && !v.st[t].stopping, v.st[t].failed, v.tags[t].reason, v.tags[t].stamp)
  }

  ghost predicate OnwardAt(v: SoundView, v': SoundView, t: Id) {
    t in v'.st ==>
      if t in v.st && v'.tags[t].serial == v.tags[t].serial then Seen(v', t) == Seen(v, t)
      else v.serial < v'.tags[t].serial
  }

  /** Time goes on: nothing is taken from the history, and every visible change of a service, its
      being added included, shows in its serial, which then exceeds every earlier one. */
  ghost predicate Onward(v: SoundView, v': SoundView) {
    && v.serial <= v'.serial && v.trace <= v'.trace
    && forall t {:trigger OnwardAt(v, v', t)} :: OnwardAt(v, v', t)
  }

  /** The same, with the services and their links as they were. */
  ghost predicate Newer(v: SoundView, v': SoundView) {
    v.g == v'.g && v.attrs == v'.attrs && Onward(v, v')
  }

  lemma NewerIsReflexive(v: SoundView)
    ensures Newer(v, v)
  {
    forall t ensures OnwardAt(v, v, t) {}
  }

  lemma OnwardIsTransitive(v0: SoundView, v1: SoundView, v2: SoundView)
    requires Onward(v0, v1) && Onward(v1, v2)
    ensures Onward(v0, v2)
  {
    Serials(v0);
    forall t ensures OnwardAt(v0, v2, t) {
      assert OnwardAt(v0, v1, t) && OnwardAt(v1, v2, t) && NotAbove(v0.tags, v0.serial, t);
    }
  }

  /** v' differs from v in the flags, tag and policy of s only. */
  ghost predicate OnlyAt(v: SoundView, v': SoundView, s: Id) {
    && v.g == v'.g && v.attrs == v'.attrs && v.serial <= v'.serial && v.trace <= v'.trace
    && forall t {:trigger v'.tags[t]} {:trigger v'.st[t]} {:trigger v'.policies[t]} ::
         t in v.st && t != s ==> v'.tags[t] == v.tags[t] && v'.st[t] == v.st[t] && v'.policies[t] == v.policies[t]
  }

  lemma OnlyTwice(v0: SoundView, v1: SoundView, v2: SoundView, s: Id)
    requires OnlyAt(v0, v1, s) && OnlyAt(v1, v2, s)
    ensures OnlyAt(v0, v2, s)
  {
    assert v0.st.Keys == v1.st.Keys;
  }

  lemma NewerTouch(v0: SoundView, v: SoundView, v': SoundView, s: Id)
    requires Newer(v0, v) && OnlyAt(v, v', s) && s in v.st && v0.serial < v'.tags[s].serial
    ensures Newer(v0, v')
  {
    Serials(v0);
    forall t ensures OnwardAt(v0, v', t) {
      assert OnwardAt(v0, v, t) && NotAbove(v0.tags, v0.serial, t);
    }
  }

  /** A change that only reports: flags, policies and history stay. */
  ghost predicate Quiet(v: SoundView, v': SoundView) {
    Newer(v, v') && v'.st == v.st && v'.policies == v.policies && v'.trace == v.trace
  }

  /** What looking into the right of s to run leaves behind: an unmet dependency becomes its status,
      if it is not that already. */
  ghost predicate Told(v: SoundView, v': SoundView, s: Id) {
    && s in v.st && s in v'.st
    && if v.st[s].enabled && !v.st[s].stopping && !Backed(v.g.parents, LiveSet(v.st), s) then
         && OnlyAt(v, v', s) && v'.tags[s].reason == UnmetDependency
         && (v.tags[s].reason == UnmetDependency ==> v' == v)
       else v' == v
  }

  // ---------------------------------------------------------------- changes that call nobody

  lemma Overwritten(st: map<Id, Flags>, s: Id, f: Flags, f': Flags)
    ensures st[s := f][s := f'] == st[s := f']
  {
  }

  lemma StillApart(v: SoundView, s: Id, tag: Tag, t: Id, u: Id)
    requires s in v.tags && t in v.tags && u in v.tags
    requires tag.serial == v.tags[s].serial || v.serial < tag.serial
    ensures Apart(v.tags[s := tag], t, u)
  {
    Serials(v);
    assert Apart(v.tags, t, u) && NotAbove(v.tags, v.serial, t) && NotAbove(v.tags, v.serial, u);
  }

  lemma StillNumbered(v: SoundView, s: Id, tag: Tag, serial: int)
    requires s in v.tags && v.serial <= serial
    requires tag.serial == v.tags[s].serial || v.serial < tag.serial <= serial
    ensures Numbered(v.tags[s := tag], serial)
  {
    var tags := v.tags[s := tag];
    Serials(v);
    forall t | t in tags ensures NotAbove(tags, serial, t) {
      assert NotAbove(v.tags, v.serial, t);
    }
    forall t, u | t in tags && u in tags ensures Apart(tags, t, u) {
      StillApart(v, s, tag, t, u);
    }
  }

  lemma Retagged(v: SoundView, s: Id, tag: Tag, serial: int)
    requires s in v.tags && v.serial <= serial
    requires tag.serial == v.tags[s].serial || v.serial < tag.serial <= serial
    ensures Sound(v.(serial := serial, tags := v.tags[s := tag]))
  {
    StillNumbered(v, s, tag, serial);
    assert SoundAt(v, OfLinks) && SoundAt(v, OfFlags) && SoundAt(v, OfCalls);
    AllAspects(v.(serial := serial, tags := v.tags[s := tag]));
  }

  ghost function Bump(v: SoundView, s: Id): (v': SoundView)
    requires s in v.st
    ensures OnlyAt(v, v', s)
  {
    var tag := v.tags[s].(serial := v.serial + 1);
    Retagged(v, s, tag, v.serial + 1);
    v.(serial := v.serial + 1, tags := v.tags[s := tag])
  }

  ghost function Note(v: SoundView, s: Id, reason: Reason, stamp: int): (v': SoundView)
    requires s in v.st
    ensures OnlyAt(v, v', s)
  {
    var tag := v.tags[s].(reason := reason, stamp := stamp);
    Retagged(v, s, tag, v.serial);
    v.(serial := v.serial, tags := v.tags[s := tag])
  }

  /** A new status, under a new serial. */
  ghost function Announce(v: SoundView, s: Id, reason: Reason, stamp: int): (v': SoundView)
    requires s in v.st
    ensures OnlyAt(v, v', s) && v.serial < v'.tags[s].serial && v'.tags[s].reason == reason
    ensures v'.st == v.st && v'.policies == v.policies && v'.trace == v.trace
  {
    var b := Bump(v, s);
    OnlyTwice(v, b, Note(b, s, reason, stamp), s);
    Note(b, s, reason, stamp)
  }

  lemma Reflagged(v: SoundView, s: Id, f: Flags, p: Policy)
    requires s in v.st && f.running == v.st[s].running && f.failed == v.st[s].failed && f.refused == v.st[s].refused
    requires p == v.policies[s].(restart := p.restart)
    ensures Sound(v.(st := v.st[s := f], policies := v.policies[s := p]))
  {
    var st, policies := v.st[s := f], v.policies[s := p];
    forall t | t in v.st ensures StandsAt(st, policies, v.trace, t) {
      Flagged(v, t);
    }
    Called(v);
    assert Running(st) == Running(v.st);
    assert SoundAt(v, OfLinks) && SoundAt(v, OfSerials);
    AllAspects(v.(st := st, policies := policies));
  }

  ghost function Mark(v: SoundView, s: Id, enabled: bool, stopping: bool): (v': SoundView)
    requires s in v.st
    ensures OnlyAt(v, v', s) && v'.tags == v.tags && v'.policies == v.policies && v'.trace == v.trace
    ensures v'.st == v.st[s := v.st[s].(enabled := enabled, stopping := stopping)]
  {
    var f := v.st[s].(enabled := enabled, stopping := stopping);
    Reflagged(v, s, f, v.policies[s]);
    v.(st := v.st[s := f], policies := v.policies[s := v.policies[s]])
  }

  ghost function Retune(v: SoundView, s: Id, restart: bool): (v': SoundView)
    requires s in v.st
    ensures OnlyAt(v, v', s)
  {
    var p := v.policies[s].(restart := restart);
    Reflagged(v, s, v.st[s], p);
    v.(st := v.st[s := v.st[s]], policies := v.policies[s := p])
  }

  // ---------------------------------------------------------------- changes that make history

  /** The event e accounts for the change of s to flags f and policy p. */
  ghost predicate Accounts(v: SoundView, s: Id, f: Flags, p: Policy, e: Event) {
    && s in v.st && e.s == s && KindOf(e) != Membership
    && SafeEvent(v.g.parents, Running(v.st), e) && ByRule(v.trace, e)
    && f.running == (if e.Start? then e.ok else if e.Stop? then false else v.st[s].running)
    && var past := Then(Recall(v.trace, s), e);
       && f.failed == past.failed && f.refused == past.refused && (f.refused ==> !f.running)
       && p.rate == past.rate && p.period == past.period && InRing(p, past.times)
  }

  lemma StepStands(v: SoundView, s: Id, f: Flags, p: Policy, e: Event)
    requires Accounts(v, s, f, p, e)
    ensures Standing(v.st[s := f], v.policies[s := p], v.trace + [e])
  {
    forall t | t in v.st ensures StandsAt(v.st[s := f], v.policies[s := p], v.trace + [e], t) {
      Flagged(v, t);
      OneMoreEvent(v.trace, e, t);
    }
  }

  lemma StepIsRecorded(v: SoundView, s: Id, f: Flags, p: Policy, e: Event)
    requires Accounts(v, s, f, p, e)
    ensures Recorded(v.g, v.st[s := f], v.trace + [e])
  {
    Called(v);
    OneMoreEvent(v.trace, e, s);
    var st := v.st[s := f];
    assert Running(st) == if f.running then Running(v.st) + {s} else Running(v.st) - {s};
  }

  lemma StepIsSound(v: SoundView, s: Id, f: Flags, p: Policy, e: Event)
    requires Accounts(v, s, f, p, e)
    ensures Sound(v.(st := v.st[s := f], policies := v.policies[s := p], trace := v.trace + [e]))
  {
    StepStands(v, s, f, p, e);
    StepIsRecorded(v, s, f, p, e);
    assert SoundAt(v, OfLinks) && SoundAt(v, OfSerials);
    AllAspects(v.(st := v.st[s := f], policies := v.policies[s := p], trace := v.trace + [e]));
  }

  ghost function Step(v: SoundView, s: Id, f: Flags, p: Policy, e: Event): (v': SoundView)
    requires Accounts(v, s, f, p, e)
    ensures OnlyAt(v, v', s)
  {
    StepIsSound(v, s, f, p, e);
    v.(st := v.st[s := f], policies := v.policies[s := p], trace := v.trace + [e])
  }

  /** s is down and has the right to run. */
  ghost predicate Able(v: SoundView, s: Id) {
    s in v.st && !v.st[s].running && CanRun(v.g, v.st, s)
  }

  lemma AbleIsBacked(v: SoundView, s: Id)
    requires Able(v, s)
    ensures s !in Running(v.st) && Backed(v.g.parents, LiveSet(v.st), s) && Backed(v.g.parents, Running(v.st), s)
  {
    BackedGrows(v.g.parents, LiveSet(v.st), Running(v.st), s);
  }

  lemma LiveHasNotFailed(v: SoundView)
    ensures NoneFailed(v.trace, LiveSet(v.st))
  {
    forall d | d in LiveSet(v.st) ensures !Recall(v.trace, d).failed {
      Flagged(v, d);
    }
  }

  /** The times at which the provider of s has been asked to start since the count began. */
  ghost function StartTimes(v: SoundView, s: Id): seq<int> {
    Recall(v.trace, s).times
  }

  /** The limiter's rule holds s down. */
  ghost predicate Barred(v: SoundView, s: Id, at: int) {
    s in v.st && TooSoon(v.policies[s].rate, v.policies[s].period, StartTimes(v, s), at)
  }

  /** An attempt at time `at` is in order. */
  ghost predicate InTime(v: SoundView, s: Id, at: int) {
    s in v.st && AllBy(v.policies[s].rate, StartTimes(v, s), at) && !Barred(v, s, at)
  }

  lemma AttemptAccounts(v: SoundView, s: Id, at: int, ok: bool)
    requires Able(v, s) && InTime(v, s, at)
    ensures Accounts(v, s, v.st[s].(running := ok, failed := !ok, refused := false), Record(v.policies[s], at),
                     Start(s, at, LiveSet(v.st), ok))
  {
    AbleIsBacked(v, s);
    LiveHasNotFailed(v);
    Flagged(v, s);
    RecordKeepsRing(v.policies[s], StartTimes(v, s), at);
  }

  /** The attempt goes on record, the provider is asked to start, and answers. */
  ghost function Attempt(v: SoundView, s: Id, at: int, ok: bool): (v': SoundView)
    requires Able(v, s) && InTime(v, s, at)
    ensures OnlyAt(v, v', s) && v'.tags == v.tags && v'.serial == v.serial
    ensures v'.policies == v.policies[s := Record(v.policies[s], at)]
    ensures v'.st == v.st[s := v.st[s].(running := ok, failed := !ok, refused := false)]
    ensures v'.trace == v.trace + [Start(s, at, LiveSet(v.st), ok)]
  {
    AttemptAccounts(v, s, at, ok);
    Step(v, s, v.st[s].(running := ok, failed := !ok, refused := false), Record(v.policies[s], at),
         Start(s, at, LiveSet(v.st), ok))
  }

  lemma RefusalAccounts(v: SoundView, s: Id, at: int)
    requires Able(v, s) && Barred(v, s, at)
    ensures Accounts(v, s, v.st[s].(refused := true), v.policies[s], Refused(s, at))
  {
    AbleIsBacked(v, s);
    Flagged(v, s);
  }

  /** The limiter says no, as its rule requires. */
  ghost function Refuse(v: SoundView, s: Id, at: int): (v': SoundView)
    requires Able(v, s) && Barred(v, s, at)
    ensures OnlyAt(v, v', s) && v'.tags == v.tags && v'.policies == v.policies
    ensures v'.st == v.st[s := v.st[s].(refused := true)] && v'.trace == v.trace + [Refused(s, at)]
  {
    RefusalAccounts(v, s, at);
    Step(v, s, v.st[s].(refused := true), v.policies[s], Refused(s, at))
  }

  ghost function Blame(v: SoundView, s: Id): (v': SoundView)
    requires s in v.st && v.st[s].running
    ensures OnlyAt(v, v', s) && v'.tags == v.tags && v'.policies == v.policies
    ensures v'.st == v.st[s := v.st[s].(failed := true)] && v'.trace == v.trace + [Fault(s)]
  {
    Flagged(v, s);
    Step(v, s, v.st[s].(failed := true), v.policies[s], Fault(s))
  }

  ghost function Absolve(v: SoundView, s: Id): (v': SoundView)
    requires s in v.st
    ensures OnlyAt(v, v', s) && v'.tags == v.tags && v'.policies == v.policies
    ensures v'.st == v.st[s := v.st[s].(failed := false)] && v'.trace == v.trace + [Pardon(s)]
  {
    Flagged(v, s);
    Step(v, s, v.st[s].(failed := false), v.policies[s], Pardon(s))
  }

  lemma RecountAccounts(v: SoundView, s: Id)
    requires s in v.st
    ensures Accounts(v, s, v.st[s].(refused := false), Recounted(v.policies[s]), Recount(s))
  {
    Flagged(v, s);
    FreshRing(Recounted(v.policies[s]));
  }

  /** Attempts are counted from nothing, and what the limiter has said is forgotten. */
  ghost function CountAgain(v: SoundView, s: Id): (v': SoundView)
    requires s in v.st
    ensures OnlyAt(v, v', s) && v'.tags == v.tags
    ensures v'.policies == v.policies[s := Recounted(v.policies[s])]
    ensures v'.st == v.st[s := v.st[s].(refused := false)] && v'.trace == v.trace + [Recount(s)]
  {
    RecountAccounts(v, s);
    Step(v, s, v.st[s].(refused := false), Recounted(v.policies[s]), Recount(s))
  }

  /** Attempts are counted from nothing, under a new limit or period. */
  ghost function LimitTo(v: SoundView, s: Id, p: Policy): (v': SoundView)
    requires s in v.st && p.starts == 0 && |p.times| == p.rate
    ensures OnlyAt(v, v', s) && v'.tags == v.tags && v'.policies == v.policies[s := p]
    ensures v'.st == v.st && v'.trace == v.trace + [Relimit(s, p.rate, p.period)]
  {
    Flagged(v, s);
    FreshRing(p);
    assert v.st[s := v.st[s]] == v.st;
    Step(v, s, v.st[s], p, Relimit(s, p.rate, p.period))
  }

  lemma HaltAccounts(v: SoundView, s: Id, stack: seq<Id>)
    requires s in v.st && SafeStop(v.g.parents, Running(v.st), s, stack, LiveSet(v.st))
    ensures Accounts(v, s, v.st[s].(running := false, stopping := false), v.policies[s],
                     Stop(s, stack, LiveSet(v.st)))
  {
    LiveHasNotFailed(v);
    Flagged(v, s);
  }

  ghost function Halt(v: SoundView, s: Id, stack: seq<Id>): (v': SoundView)
    requires s in v.st && SafeStop(v.g.parents, Running(v.st), s, stack, LiveSet(v.st))
    ensures OnlyAt(v, v', s) && v'.tags == v.tags && v'.policies == v.policies
    ensures v'.st == v.st[s := v.st[s].(running := false, stopping := false)]
    ensures v'.trace == v.trace + [Stop(s, stack, LiveSet(v.st))]
  {
    HaltAccounts(v, s, stack);
    Step(v, s, v.st[s].(running := false, stopping := false), v.policies[s], Stop(s, stack, LiveSet(v.st)))
  }
}
