/** What a client of the supervisor can rely on: the guarantees of the modules above, read off the
    fields of the objects, and some uses of the public methods. */
module Clients {
  import opened Linkage
  import opened Names
  import opened Indexing
  import opened RateLimits
  import opened Traces
  import opened Supervision
  import opened Operations
  import opened Membership
  import opened Acyclicity
  import opened History
  import opened Outcomes
  import opened Managers

  /** The running flags, read off the services. */
  ghost function RunningNow(m: Manager): (r: set<Id>)
    requires m.Coupled()
    reads m, m.crew
    ensures r == Running(m.v.st)
  {
    var r := set i | i in m.services && m.services[i] in m.crew && m.services[i].running;
    assert r == Running(m.v.st) by {
      forall i ensures i in r <==> i in Running(m.v.st) {
        assert i in m.services ==> m.Mirrors(i);
      }
    }
    r
  }

  // ---------------------------------------------------------------- whenever the lock is free

  /** An enabled service that has a running provider for every dependency name, and is down all the
      same, is marked failed, and has failed to start or been found at fault (or was added so) and
      not run or been pardoned since; or it is marked as coming up too often, and the limiter has
      refused it, and it has neither been asked to start nor been forgiven since. */
  lemma NobodyIsLeftWaiting(m: Manager, i: Id) returns (k: nat)
    requires m.Ready() && i in m.services && m.services[i].enabled && !m.services[i].running
    requires Backed(m.links.parents, RunningNow(m), i)
    ensures (m.services[i].failed && BlamedSince(m.v.trace, i, k))
         || (m.services[i].rateLog && RefusedSince(m.v.trace, i, k))
  {
    assert m.Mirrors(i);
    k := WhyDown(m.v, i);
  }

  /** A running service is enabled and not failed, and so is some running provider of each of its
      dependency names. */
  lemma DependenciesRun(m: Manager, i: Id, k: string) returns (d: Id)
    requires m.Ready() && i in m.services && m.services[i].running && k in m.links.parents[i]
    ensures m.services[i].enabled && !m.services[i].failed && !m.services[i].stopping
    ensures d in m.links.parents[i][k] && d in m.services
    ensures m.services[d].running && m.services[d].enabled && !m.services[d].failed && !m.services[d].stopping
  {
    assert m.Mirrors(i);
    d := ProviderOf(m.v, i, k);
    assert m.Mirrors(d);
  }

  /** Services that declare a conflict are never both enabled, and never both running. */
  lemma NeverBoth(m: Manager, i: Id, j: Id)
    requires m.Ready() && i in m.services && j in m.services && i != j
    requires Clash(m.services[i].attr, m.services[j].attr)
    ensures !(m.services[i].enabled && m.services[j].enabled) && !(m.services[i].running && m.services[j].running)
  {
    assert m.Mirrors(i) && m.Mirrors(j);
    ConflictsExclude(m.v, i, j);
  }

  // ---------------------------------------------------------------- operations that cancel out

  /** Restarting a service, with acyclic dependencies and nobody failed: the same services run
      afterwards, unless a provider fails on the way or a limiter turns one down; and no limiter does
      where there are no limits, or quotas to spare. */
  method RestartOne(m: Manager, s: Service)
    requires m.Ready() && s.mgr == m && s.Managed()
    requires FaultFree(m.v.st) && Acyclic(m.links.parents)
    modifies m, m.crew
    ensures m.Ready() && s.mgr == m && Enabled(m.v.st) == old(Enabled(m.v.st))
    ensures GoneWell(old(m.v), m.v) ==> RunningNow(m) == old(RunningNow(m))
  {
    var e := s.Restart();
    if GoneWell(old(m.v), m.v) {
      RestartChangesNothing(old(m.v), m.v, s.id);
    }
  }

  /** Disabling a service and enabling it again is never turned down, and under the same conditions
      gives back what was running. */
  method DisableAndEnable(m: Manager, s: Service) returns (e: Error)
    requires m.Ready() && s.mgr == m && s.Managed() && s.enabled
    requires FaultFree(m.v.st) && Acyclic(m.links.parents)
    modifies m, m.crew
    ensures m.Ready() && s.mgr == m && e == NoError && Enabled(m.v.st) == old(Enabled(m.v.st))
    ensures GoneWell(old(m.v), m.v) ==> RunningNow(m) == old(RunningNow(m))
  {
    assert m.Mirrors(s.id);
    e := s.Disable();
    label between:
    e := s.Enable();
    EnableUndoesDisable(old(m.v), old@between(m.v), m.v, s.id, e == NoError);
    if GoneWell(old(m.v), m.v) {
      DisableEnableChangesNothing(old(m.v), old@between(m.v), m.v, s.id, e == NoError);
    }
  }

  // ---------------------------------------------------------------- two services

  const FIRST := Attr("test:s1", [], [], [])
  const SECOND := Attr("test:s2", [], ["test:s1"], [])

  const DOWN := Flags(false, false, false, false, false)

  ghost predicate BothDown(st: map<Id, Flags>) {
    st.Keys == {1, 2} && st[1] == DOWN && st[2] == DOWN
  }

  /** Two services under one manager, the second of which needs the first. */
  ghost predicate Pair(m: Manager, s1: Service, s2: Service)
    reads m, m.crew, s1, s2
  {
    && m.Ready() && m.v.attrs == map[1 := FIRST, 2 := SECOND] && m.crew == {s1, s2}
    && s1.mgr == m && s1.id == 1 && s1.Managed()
    && s2.mgr == m && s2.id == 2 && s2.Managed()
  }

  lemma FirstIsNeeded()
    ensures Answers(SECOND, FIRST, "test:s1")
  {
    MatchMeaning("test:s1", "test:s1");
    assert SECOND.depends[0] == "test:s1" && Matches(FIRST, "test:s1");
  }

  lemma PairParents(attrs: map<Id, Attr>)
    requires attrs == map[1 := FIRST, 2 := SECOND]
    ensures AllParents(attrs, 1) == map[] && AllParents(attrs, 2) == map["test:s1" := {1}]
  {
    FirstIsNeeded();
    assert AllSuppliers(attrs, 2, "test:s1") == {1};
  }

  lemma PairLinks(v: SoundView)
    requires v.attrs == map[1 := FIRST, 2 := SECOND]
    ensures v.g.parents == map[1 := map[], 2 := map["test:s1" := {1}]]
  {
    assert SoundAt(v, OfLinks);
    OnlyOneIndex(v.g, v.attrs);
    PairParents(v.attrs);
  }

  lemma PairIsPeaceful(v: SoundView, s: Id)
    requires v.attrs == map[1 := FIRST, 2 := SECOND] && s in v.attrs
    ensures NoConflict(v.g, v.st, s)
  {
    assert SoundAt(v, OfLinks);
    OnlyOneIndex(v.g, v.attrs);
    assert !Clash(FIRST, SECOND) && !Clash(SECOND, FIRST);
    assert AllIncompat(v.attrs, s) == {};
  }

  /** A service that has just been made. */
  ghost predicate Unused(s: Service, id: Id, attr: Attr)
    reads s
  {
    s.Loose() && s.id == id && s.attr == attr && !s.failed && HasRoom(s.PolicyNow())
  }

  /** The second service, told of its dependency before it is added. */
  method NewSecond() returns (s2: Service)
    ensures fresh(s2) && Unused(s2, 2, SECOND)
  {
    s2 := new Service(2, Attr("test:s2", [], [], []));
    var e := s2.SetProperty(Depends(["test:s1"]));
  }

  /** The objects of the pair, before they are put together. */
  method Parts() returns (m: Manager, s1: Service, s2: Service)
    ensures fresh(m) && fresh(s1) && fresh(s2) && m.Ready() && m.services == map[] && m.crew == {} && m.v.attrs == map[]
    ensures s1 != s2 && Unused(s1, 1, FIRST) && Unused(s2, 2, SECOND)
  {
    m := new Manager(1);
    assert m.v.attrs.Keys == {};
    s1 := new Service(1, FIRST);
    s2 := NewSecond();
  }

  ghost predicate JustFirst(v: SoundView) {
    v.attrs == map[1 := FIRST] && v.st[1] == DOWN && HasRoom(v.policies[1])
  }

  /** A new service under a name that is free. */
  method AddUnused(m: Manager, s: Service)
    requires m.Ready() && s.Loose() && !s.failed && s.id !in m.services && s !in m.crew
    requires !Taken(m.v.attrs, s.attr.name)
    modifies m, s`mgr, s`stamp, s`reason, s`serial
    ensures m.Ready() && m.crew == old(m.crew) + {s} && m.services == old(m.services)[s.id := s] && s.mgr == m
    ensures OthersKept(old(m.v), m.v, s.id) && m.v.attrs == old(m.v).attrs[s.id := s.attr]
    ensures m.v.st[s.id] == DOWN && m.v.policies[s.id] == s.PolicyNow()
  {
    var e := m.AddService(s);
  }

  method AddFirst(m: Manager, s1: Service)
    requires m.Ready() && m.services == map[] && m.crew == {} && m.v.attrs == map[] && Unused(s1, 1, FIRST)
    modifies m, s1
    ensures m.Ready() && m.crew == {s1} && JustFirst(m.v) && s1.mgr == m && s1.Managed()
  {
    AddUnused(m, s1);
  }

  lemma NowTwo(v: SoundView, v': SoundView)
    requires JustFirst(v) && OthersKept(v, v', 2) && v'.attrs == v.attrs[2 := SECOND]
    requires v'.st[2] == DOWN && HasRoom(v'.policies[2])
    ensures v'.attrs == map[1 := FIRST, 2 := SECOND] && BothDown(v'.st) && WithinLimits(v')
  {
    assert 1 in v.st;
    assert v'.st.Keys == v'.attrs.Keys == v'.policies.Keys == {1, 2};
  }

  method AddSecond(m: Manager, s1: Service, s2: Service)
    requires m.Ready() && m.crew == {s1} && JustFirst(m.v) && s1.mgr == m && s1.id == 1 && s1.Managed()
    requires s2 != s1 && Unused(s2, 2, SECOND)
    modifies m, s2
    ensures Pair(m, s1, s2) && BothDown(m.v.st) && WithinLimits(m.v)
  {
    AddUnused(m, s2);
    assert m.crew == {s1, s2};
    NowTwo(old(m.v), m.v);
  }

  method NewPair() returns (m: Manager, s1: Service, s2: Service)
    ensures Pair(m, s1, s2) && fresh(m) && fresh(s1) && fresh(s2) && BothDown(m.v.st) && WithinLimits(m.v)
  {
    m, s1, s2 := Parts();
    AddFirst(m, s1);
    AddSecond(m, s1, s2);
  }

  /** Which of the two run, between operations. */
  lemma PairRuns(v: SoundView)
    requires Settled(v) && v.attrs == map[1 := FIRST, 2 := SECOND]
    ensures 1 in Running(v.st) <==> 1 in Startable(v.st)
    ensures 2 in Running(v.st) <==> 2 in Startable(v.st) && 1 in Running(v.st)
  {
    var r := Running(v.st);
    PairLinks(v);
    RunningIsFixpoint(v);
    assert FixedAt(v.g.parents, Startable(v.st), r, 1) && FixedAt(v.g.parents, Startable(v.st), r, 2);
    assert Backed(v.g.parents, r, 1);
    assert v.g.parents[2]["test:s1"] == {1};
    assert HasProvider(v.g.parents, r, 2, "test:s1") <==> 1 in r;
  }

  lemma PairShows(m: Manager, s1: Service, s2: Service)
    requires Pair(m, s1, s2)
    ensures (s1.enabled <==> 1 in Enabled(m.v.st)) && (s1.running <==> 1 in Running(m.v.st))
    ensures (s2.enabled <==> 2 in Enabled(m.v.st)) && (s2.running <==> 2 in Running(m.v.st))
  {
    assert m.Mirrors(1) && m.Mirrors(2);
  }

  /** Enabling the second alone succeeds, and starts nobody. */
  method EnableSecond(m: Manager, s1: Service, s2: Service) returns (e: Error)
    requires Pair(m, s1, s2) && Enabled(m.v.st) == {}
    modifies m, s1, s2
    ensures Pair(m, s1, s2) && Newer(old(m.v), m.v) && e == NoError && Enabled(m.v.st) == {2}
    ensures EnableResult(old(m.v), m.v, 2, true)
    ensures s2.enabled && !s2.running && !s1.enabled && !s1.running
  {
    PairIsPeaceful(m.v, 2);
    assert m.Mirrors(2);
    e := s2.Enable();
    assert m.Mirrors(1);
    PairRuns(m.v);
    PairShows(m, s1, s2);
  }

  lemma BothRun(v0: SoundView, v: SoundView)
    requires Settled(v) && v.attrs == map[1 := FIRST, 2 := SECOND] && Enabled(v.st) == {1, 2}
    requires FaultFree(v0.st) && Newer(v0, v) && Untroubled(v0.trace, v.trace)
    ensures Running(v.st) == {1, 2}
  {
    StaysFaultFree(v0, v);
    AllEnabledStartable(v.st);
    PairRuns(v);
    assert Running(v.st) <= v.st.Keys == v.attrs.Keys == {1, 2};
  }

  /** Services have only been started since v0, in which nobody was marked and no quota used up. */
  ghost predicate OnlyStartedSince(v0: SoundView, v: SoundView) {
    && FaultFree(v0.st) && WithinLimits(v0) && Newer(v0, v)
    && OnlyKinds(v0.trace, v.trace, {Kind.Starting, Kind.Pardoning})
  }

  lemma EnableOnlyStarts(v0: SoundView, v: SoundView, v': SoundView, s: Id, ok: bool)
    requires OnlyStartedSince(v0, v) && Newer(v, v') && EnableResult(v, v', s, ok)
    ensures OnlyStartedSince(v0, v')
  {
    OnwardIsTransitive(v0, v, v');
    AddsOnlyKinds(v.trace, v'.trace, {Kind.Starting, Kind.Pardoning}, s);
    OnlyKindsOn(v0.trace, v.trace, v'.trace, {Kind.Starting, Kind.Pardoning});
  }

  /** Then enabling the first starts both, unless a provider fails: the limits the services are made
      with leave room for it. */
  method EnableFirst(m: Manager, s1: Service, s2: Service, ghost v0: SoundView) returns (e: Error)
    requires Pair(m, s1, s2) && Enabled(m.v.st) == {2} && OnlyStartedSince(v0, m.v)
    modifies m, s1, s2
    ensures Pair(m, s1, s2) && Newer(v0, m.v) && e == NoError && Enabled(m.v.st) == {1, 2}
    ensures s1.enabled && s2.enabled
    ensures Blameless(v0.trace, m.v.trace) ==> s1.running && s2.running
  {
    PairIsPeaceful(m.v, 1);
    assert m.Mirrors(1);
    e := s1.Enable();
    assert m.Mirrors(2);
    EnableOnlyStarts(v0, old(m.v), m.v, 1, true);
    PairShows(m, s1, s2);
    if Blameless(v0.trace, m.v.trace) {
      StartWithoutTrouble(v0, m.v);
      BothRun(v0, m.v);
    }
  }

  /** And disabling the first stops both, although the second remains enabled. */
  method DisableFirst(m: Manager, s1: Service, s2: Service) returns (e: Error)
    requires Pair(m, s1, s2) && Enabled(m.v.st) == {1, 2}
    modifies m, s1, s2
    ensures Pair(m, s1, s2) && e == NoError && Enabled(m.v.st) == {2}
    ensures !s1.enabled && s2.enabled && !s1.running && !s2.running
  {
    assert m.Mirrors(1);
    e := s1.Disable();
    assert m.Mirrors(2);
    PairRuns(m.v);
    PairShows(m, s1, s2);
  }

  /** One after the other. */
  method EnableBothDisableFirst(m: Manager, s1: Service, s2: Service)
    requires Pair(m, s1, s2) && BothDown(m.v.st) && WithinLimits(m.v)
    modifies m, s1, s2
    ensures Pair(m, s1, s2) && !s1.enabled && s2.enabled && !s1.running && !s2.running
  {
    NewerIsReflexive(m.v);
    var e := EnableSecond(m, s1, s2);
    assert s2.enabled && !s2.running;
    EnableOnlyStarts(old(m.v), old(m.v), m.v, 2, true);
    e := EnableFirst(m, s1, s2, old(m.v));
    assert Blameless(old(m.v.trace), m.v.trace) ==> s1.running && s2.running;
    e := DisableFirst(m, s1, s2);
  }

  /** The whole of it, from the contracts of the public methods alone. */
  method Dependencies()
  {
    var m, s1, s2 := NewPair();
    EnableBothDisableFirst(m, s1, s2);
    assert s2.enabled && !s2.running;
  }
}
