/** What a settled state amounts to, whatever operations and whatever order of visits led to it. */
module Outcomes {
  import opened Linkage
  import opened Names
  import opened Indexing
  import opened RateLimits
  import opened Traces
  import opened Supervision
  import opened Stopping
  import opened Operations
  import opened Acyclicity
  import opened History

  /** Enabled, and with no excuse for staying down. */
  ghost function Startable(st: map<Id, Flags>): set<Id> {
    set t | t in st && st[t].enabled && !st[t].failed && !st[t].refused
  }

  // ---------------------------------------------------------------- closure and maximality

  /** Between operations the running services are exactly the startable ones whose every
      dependency name has a running provider: none runs that should not, and none that could
      run is left waiting. This holds on cyclic graphs too. */
  lemma RunningIsFixpoint(v: SoundView)
    requires Settled(v)
    ensures IsFixpoint(v.g.parents, Startable(v.st), Running(v.st))
  {
    var e, r := Startable(v.st), Running(v.st);
    forall t ensures FixedAt(v.g.parents, e, r, t) {
      if t in v.st {
        OneFixed(v, t);
      }
    }
  }

  lemma LiveIsRunning(v: SoundView)
    requires Settled(v)
    ensures LiveSet(v.st) == Running(v.st)
  {
    forall d | d in v.st ensures v.st[d].running ==> Live(v.st, d) {
      assert Steady(v.g, v.st, d);
    }
  }

  lemma OneFixed(v: SoundView, t: Id)
    requires Settled(v) && t in v.st
    ensures FixedAt(v.g.parents, Startable(v.st), Running(v.st), t)
  {
    LiveIsRunning(v);
    Flagged(v, t);
    assert Steady(v.g, v.st, t) && Unopposed(v.g, v.st, t) && !Waits(v.g, v.st, t);
  }

  /** The provider a running service has for one of its dependency names: itself running, enabled
      and not at fault. */
  lemma ProviderOf(v: SoundView, t: Id, k: string) returns (d: Id)
    requires Settled(v) && t in Running(v.st) && k in v.g.parents[t]
    ensures v.st[t].enabled && !v.st[t].failed && !v.st[t].stopping
    ensures d in v.g.parents[t][k] && d in v.st && v.st[d].running && v.st[d].enabled && !v.st[d].failed &&
        !v.st[d].stopping
  {
    assert Steady(v.g, v.st, t) && HasProvider(v.g.parents, LiveSet(v.st), t, k);
    d :| d in v.g.parents[t][k] && d in LiveSet(v.st);
  }

  // ---------------------------------------------------------------- order and history do not matter

  /** Two managers with the same acyclic links and the same startable services run the same
      services, whatever has happened to either. */
  lemma HistoryDoesNotShow(v1: SoundView, v2: SoundView)
    requires Settled(v1) && Settled(v2) && v1.g.parents == v2.g.parents && Acyclic(v1.g.parents)
    requires Startable(v1.st) == Startable(v2.st)
    ensures Running(v1.st) == Running(v2.st)
  {
    RunningIsFixpoint(v1);
    RunningIsFixpoint(v2);
    OneRunningSet(v1.g.parents, Startable(v1.st), Running(v1.st), Running(v2.st));
  }

  /** On any graph what runs has at least what can be started one after the other, and at most what
      can hold on to one another; where the two agree, history does not show either. */
  lemma RunningIsBetween(v: SoundView)
    requires Settled(v)
    ensures Least(v.g.parents, Startable(v.st)) <= Running(v.st) <= Greatest(v.g.parents, Startable(v.st))
  {
    RunningIsFixpoint(v);
    BetweenLeastAndGreatest(v.g.parents, Startable(v.st), Running(v.st));
  }

  /** Two states of any graph, with the same links and the same startable services, run the same
      services if none can hold on to one another that could not have been started one after the
      other. */
  lemma SameWhereLeastIsGreatest(v1: SoundView, v2: SoundView)
    requires Settled(v1) && Settled(v2) && v1.g.parents == v2.g.parents
    requires Startable(v1.st) == Startable(v2.st)
    requires Least(v1.g.parents, Startable(v1.st)) == Greatest(v1.g.parents, Startable(v1.st))
    ensures Running(v1.st) == Running(v2.st)
  {
    RunningIsBetween(v1);
    RunningIsBetween(v2);
  }

  // ---------------------------------------------------------------- when no limit is reached

  /** Every service is without a limit or has made fewer attempts than it allows. */
  ghost predicate WithinLimits(v: SoundView) {
    forall t {:trigger v.policies[t]} :: t in v.policies ==> HasRoom(v.policies[t])
  }

  lemma QuotaOf(v: SoundView, t: Id)
    requires t in v.st
    ensures UnderQuota(Recall(v.trace, t)) <==> HasRoom(v.policies[t])
  {
    Flagged(v, t);
  }

  /** Then starting services goes without refusals, unless a provider fails. */
  lemma StartWithoutTrouble(v: SoundView, v': SoundView)
    requires WithinLimits(v) && OnlyKinds(v.trace, v'.trace, {Kind.Starting, Kind.Pardoning})
    requires Blameless(v.trace, v'.trace)
    ensures Untroubled(v.trace, v'.trace)
  {
    Called(v);
    Called(v');
    forall t | t in Parents(v.trace) ensures UnderQuota(Recall(v.trace, t)) {
      QuotaOf(v, t);
    }
    StartsWithoutTrouble(v.trace, v'.trace);
  }

  lemma StopsWithoutTrouble(v: SoundView, v': SoundView, s: Id)
    requires WithinLimits(v) && v'.g == v.g && Adds(v.trace, v'.trace, {Kind.Stopping, Kind.Pardoning}, s)
    ensures WithinLimits(v') && Untroubled(v.trace, v'.trace)
  {
    forall k | |v.trace| <= k < |v'.trace| ensures !Trouble(v'.trace[k]) {
      assert IsOf(v'.trace[k], {Kind.Stopping, Kind.Pardoning}, s);
    }
    assert v'.trace[..|v.trace|] == v.trace;
    forall t | t in v'.policies ensures HasRoom(v'.policies[t]) {
      QuotaOf(v, t);
      StopsKeepQuota(v'.trace, |v.trace|, t);
      QuotaOf(v', t);
    }
  }

  /** No provider has failed, and the limiter has turned nobody down or had no reason to. */
  ghost predicate GoneWell(v: SoundView, v': SoundView) {
    Untroubled(v.trace, v'.trace) || (WithinLimits(v) && Blameless(v.trace, v'.trace))
  }

  lemma RestartWithoutTrouble(v: SoundView, v': SoundView, s: Id)
    requires RestartResult(v, v', s) && GoneWell(v, v')
    ensures Untroubled(v.trace, v'.trace)
  {
    if s in Enabled(v.st) && !Untroubled(v.trace, v'.trace) {
      var w :| ByWayOf(v, w, v', s);
      AddsMore(v.trace, w.trace, {Kind.Stopping}, {Kind.Stopping, Kind.Pardoning}, s);
      BlamelessOn(v.trace, w.trace, v'.trace);
      StopsWithoutTrouble(v, w, s);
      AddsOnlyKinds(w.trace, v'.trace, {Kind.Starting, Kind.Pardoning}, s);
      StartWithoutTrouble(w, v');
    }
  }

  // ---------------------------------------------------------------- operations that cancel out

  /** Nobody is marked failed and the limiter holds nobody down. */
  ghost predicate FaultFree(st: map<Id, Flags>) {
    forall t {:trigger st[t]} :: t in st ==> !st[t].failed && !st[t].refused
  }

  lemma AllEnabledStartable(st: map<Id, Flags>)
    requires FaultFree(st)
    ensures Startable(st) == Enabled(st)
  {
    forall t | t in st ensures t in Startable(st) <==> t in Enabled(st) {
      assert !st[t].failed;
    }
  }

  /** As long as no provider fails and the limiter turns nobody down, nobody is marked. */
  lemma StaysFaultFree(v: SoundView, v': SoundView)
    requires FaultFree(v.st) && Newer(v, v') && Untroubled(v.trace, v'.trace)
    ensures FaultFree(v'.st)
  {
    forall t | t in v'.st ensures !v'.st[t].failed && !v'.st[t].refused {
      assert !v.st[t].failed;
      Flagged(v, t);
      Flagged(v', t);
      NoTroubleNoMark(v.trace, v'.trace, t);
    }
  }

  /** If nothing has gone wrong in the whole history, services added and removed included, then on
      acyclic links what runs is determined by what is enabled: it is the one set of enabled services
      that has exactly those whose dependencies run. */
  lemma OnlyWhatIsEnabledMatters(v: SoundView, r: set<Id>)
    requires Settled(v) && Acyclic(v.g.parents) && Untroubled([], v.trace)
    ensures IsFixpoint(v.g.parents, Enabled(v.st), r) <==> r == Running(v.st)
  {
    forall t | t in v.st ensures !v.st[t].failed && !v.st[t].refused {
      Flagged(v, t);
      NoTroubleNoMark([], v.trace, t);
    }
    AllEnabledStartable(v.st);
    RunningIsFixpoint(v);
    if IsFixpoint(v.g.parents, Enabled(v.st), r) {
      OneRunningSet(v.g.parents, Enabled(v.st), r, Running(v.st));
    }
  }

  lemma SameEnabledSameRunning(v: SoundView, v': SoundView)
    requires Settled(v) && FaultFree(v.st) && Acyclic(v.g.parents) && Settled(v')
    requires Newer(v, v') && Enabled(v'.st) == Enabled(v.st) && Untroubled(v.trace, v'.trace)
    ensures Running(v'.st) == Running(v.st)
  {
    StaysFaultFree(v, v');
    AllEnabledStartable(v.st);
    AllEnabledStartable(v'.st);
    HistoryDoesNotShow(v, v');
  }

  /** A restart in an acyclic graph, from a state without faults, leaves the running services as they
      were, although those that depend on the service go down and come up again in between; unless a
      provider fails, or a limiter is in the way: and where there are no limits, or quotas to spare,
      none is. */
  lemma RestartChangesNothing(v: SoundView, v': SoundView, s: Id)
    requires Settled(v) && FaultFree(v.st) && Acyclic(v.g.parents)
    requires Settled(v') && Newer(v, v') && RestartResult(v, v', s)
    requires GoneWell(v, v')
    ensures Enabled(v'.st) == Enabled(v.st) && Running(v'.st) == Running(v.st)
  {
    RestartWithoutTrouble(v, v', s);
    SameEnabledSameRunning(v, v');
  }

  /** After a Disable, an Enable of the same service is never turned down. */
  lemma EnableUndoesDisable(v: SoundView, v1: SoundView, v2: SoundView, s: Id, ok: bool)
    requires Settled(v) && s in Enabled(v.st) && v1.g == v.g
    requires DisableResult(v, v1, s) && EnableResult(v1, v2, s, ok)
    ensures ok && Enabled(v2.st) == Enabled(v.st)
  {
    assert Unopposed(v.g, v.st, s);
    forall c | c in v1.g.incompat[s] && c in v1.st ensures !v1.st[c].enabled {
      assert c in Enabled(v1.st) ==> c in Enabled(v.st);
    }
  }

  lemma DisableEnableWithoutTrouble(v: SoundView, v1: SoundView, v2: SoundView, s: Id, ok: bool)
    requires Newer(v, v1) && DisableResult(v, v1, s) && Newer(v1, v2) && EnableResult(v1, v2, s, ok)
    requires GoneWell(v, v2)
    ensures Untroubled(v.trace, v2.trace)
  {
    BlamelessOn(v.trace, v1.trace, v2.trace);
    if !Untroubled(v.trace, v2.trace) {
      StopsWithoutTrouble(v, v1, s);
      AddsOnlyKinds(v1.trace, v2.trace, {Kind.Starting, Kind.Pardoning}, s);
      StartWithoutTrouble(v1, v2);
    }
  }

  /** Disable and then Enable give back the running services, under the same conditions. */
  lemma DisableEnableChangesNothing(v: SoundView, v1: SoundView, v2: SoundView, s: Id, ok: bool)
    requires Settled(v) && FaultFree(v.st) && Acyclic(v.g.parents) && s in Enabled(v.st)
    requires Newer(v, v1) && DisableResult(v, v1, s)
    requires Settled(v2) && Newer(v1, v2) && EnableResult(v1, v2, s, ok)
    requires GoneWell(v, v2)
    ensures ok && Enabled(v2.st) == Enabled(v.st) && Running(v2.st) == Running(v.st)
  {
    EnableUndoesDisable(v, v1, v2, s, ok);
    OnwardIsTransitive(v, v1, v2);
    DisableEnableWithoutTrouble(v, v1, v2, s, ok);
    SameEnabledSameRunning(v, v2);
  }

  // ---------------------------------------------------------------- why a service is down

  /** A service that is enabled and has a running provider for each dependency name, and is down all
      the same, has a cause on record: it has failed to start or been found at fault, or was added
      with that mark, and has not run or been pardoned since; or the limiter has refused it, and it
      has neither been asked to start nor been forgiven since. */
  lemma WhyDown(v: SoundView, t: Id) returns (k: nat)
    requires Settled(v) && t in Enabled(v.st) && Backed(v.g.parents, Running(v.st), t) && t !in Running(v.st)
    ensures (v.st[t].failed && BlamedSince(v.trace, t, k)) || (v.st[t].refused && RefusedSince(v.trace, t, k))
  {
    OneFixed(v, t);
    Flagged(v, t);
    if v.st[t].failed {
      k := FailedForCause(v.trace, t);
    } else {
      Called(v);
      k := RefusedForCause(v.trace, t);
    }
  }

  // ---------------------------------------------------------------- the rate of starts

  /** The attempts on record: the calls of Start made since the count of t last began, after those t
      brought along if it has been added since. */
  lemma AttemptsAreCalls(v: SoundView, t: Id)
    requires t in v.st
    ensures v.policies[t].starts == |StartTimes(v, t)|
    ensures |StartTimes(v, t)| >= |StartsSince(v.trace, t)|
    ensures StartTimes(v, t)[|StartTimes(v, t)| - |StartsSince(v.trace, t)|..] == StartsSince(v.trace, t)
  {
    Flagged(v, t);
    RecordIsOfCalls(v.trace, t);
  }

  lemma AttemptsAreSpaced(v: SoundView, t: Id)
    requires t in v.st && v.policies[t].rate > 0
    ensures Ordered(StartTimes(v, t)) && Spaced(StartTimes(v, t), v.policies[t].rate, v.policies[t].period)
  {
    Flagged(v, t);
  }

  /** In every state of every run, since the count of a service last began: no window of one period
      holds more attempts than the limit, those the service brought along included. */
  lemma StartsPerPeriod(v: SoundView, t: Id, from: int)
    requires t in v.st && v.policies[t].rate > 0
    ensures |InWindow(StartTimes(v, t), from, v.policies[t].period)| <= v.policies[t].rate
  {
    AttemptsAreSpaced(v, t);
    AtMostRatePerPeriod(StartTimes(v, t), v.policies[t].rate, v.policies[t].period, from);
  }

  /** And beyond the limit there is at most one attempt a period. */
  lemma TotalStarts(v: SoundView, t: Id)
    requires t in v.st && v.policies[t].period > 0 && 0 < v.policies[t].rate <= |StartTimes(v, t)|
    ensures var p, a := v.policies[t], StartTimes(v, t);
            |a| <= p.rate + (a[|a| - 1] - a[p.rate - 1]) / p.period
  {
    AttemptsAreSpaced(v, t);
    TotalAttempts(StartTimes(v, t), v.policies[t].rate, v.policies[t].period);
  }

  // ---------------------------------------------------------------- conflicts

  /** Two services of which one names the other, or something it provides, as a conflict are
      never both enabled, and never both running. */
  lemma ConflictsExclude(v: SoundView, s: Id, t: Id)
    requires Settled(v) && s in v.st && t in v.st && s != t && Clash(v.attrs[s], v.attrs[t])
    ensures !(s in Enabled(v.st) && t in Enabled(v.st))
    ensures !(s in Running(v.st) && t in Running(v.st))
  {
    assert SoundAt(v, OfLinks);
    OnlyOneIndex(v.g, v.attrs);
    assert t in AllIncompat(v.attrs, s);
    assert Unopposed(v.g, v.st, s) && Steady(v.g, v.st, s) && Steady(v.g, v.st, t);
  }

  // ---------------------------------------------------------------- the history of the providers

  /** The calls of every provider alternate, and the running flag tells which came last. */
  lemma FlagTellsLastCall(v: SoundView, s: Id)
    requires s in v.st
    ensures Alternates(Calls(v.trace, s))
    ensures v.st[s].running <==> |Calls(v.trace, s)| % 2 == 1
  {
    Called(v);
    StartAndStopAlternate(v.trace, s);
    assert s in Up(v.trace) <==> s in Running(v.st);
  }

  /** The stop that ends a Disable, or follows on a fault, leaves every service that is still running
      with providers that are up and not marked failed for all its dependencies; on cyclic graphs too. */
  lemma LastStopIsSafe(v: SoundView, v': SoundView, s: Id)
    requires EndsWithStop(v, v', s)
    ensures var n := |v'.trace| - 1;
            && v'.trace[n].Stop? && v'.trace[n].s == s && v'.trace[n].live <= Running(v'.st)
            && NoneFailed(v'.trace[..n], v'.trace[n].live)
            && forall t :: t in Running(v'.st) ==> Backed(v'.g.parents, v'.trace[n].live, t)
  {
    Called(v');
    FinalStop(v'.trace);
  }

  /** From a state in which all of an unfounded group is down, no run that keeps the set of
      services brings any of it up. */
  lemma GroupStaysDown(v: SoundView, v': SoundView, group: set<Id>)
    requires v.trace <= v'.trace && Unfounded(v.g.parents, group) && Running(v.st) !! group
    requires forall i {:trigger v'.trace[i]} :: |v.trace| <= i < |v'.trace| ==> KindOf(v'.trace[i]) != Membership
    ensures Running(v'.st) !! group
  {
    Called(v);
    Called(v');
    assert v'.trace[..|v.trace|] == v.trace;
    UnfoundedNeverRuns(v'.trace, |v.trace|, group);
  }
}
