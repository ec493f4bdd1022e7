/** What runs after each operation, exactly and on every graph, cyclic or not: stopping leaves the
    largest set of services that can hold on to one another, and starting adds the smallest set that
    can be built up from there. */
module Exactness {
  import opened Linkage
  import opened Traces
  import opened Supervision
  import opened Stopping
  import opened Operations
  import opened Acyclicity
  import opened History
  import opened Outcomes

  // ---------------------------------------------------------------- stopping

  lemma SettledHolders(v: SoundView, c: set<Id>)
    requires Settled(v) && c <= Running(v.st) && forall t :: t in c ==> Backed(v.g.parents, c, t)
    ensures HoldOn(v, c)
  {
    forall t | t in c ensures HeldBy(v, c, t) {
      assert Steady(v.g, v.st, t);
    }
  }

  lemma HoldersRun(v: SoundView, v': SoundView, s: Id, c: set<Id>)
    requires Settled(v) && c <= Running(v.st) - {s} && (forall t :: t in c ==> Backed(v.g.parents, c, t))
    requires Spares(v, v', s)
    ensures c <= Running(v'.st)
  {
    SettledHolders(v, c);
    forall t | t in c ensures t in Running(v'.st) {
      assert HeldBy(v', c, t);
    }
  }

  lemma StopsToAFixpoint(v: SoundView, v': SoundView, s: Id)
    requires Settled(v) && Settled(v') && v'.g == v.g
    requires Running(v'.st) <= Running(v.st) - {s} && Spares(v, v', s)
    ensures IsFixpoint(v.g.parents, Running(v.st) - {s}, Running(v'.st))
  {
    var p, e, r := v.g.parents, Running(v.st) - {s}, Running(v'.st);
    RunningIsFixpoint(v');
    forall t ensures FixedAt(p, e, r, t) {
      assert FixedAt(p, Startable(v'.st), r, t);
      if t in e && Backed(p, r, t) {
        forall u | u in r + {t} ensures Backed(p, r + {t}, u) {
          assert FixedAt(p, Startable(v'.st), r, u);
          BackedGrows(p, r, r + {t}, u);
        }
        HoldersRun(v, v', s, r + {t});
      }
    }
  }

  lemma FixpointHolds(parents: map<Id, map<string, set<Id>>>, e: set<Id>, c: set<Id>)
    requires IsFixpoint(parents, e, c)
    ensures c <= e && forall t :: t in c ==> Backed(parents, c, t)
  {
    forall t | t in c ensures t in e {
      assert FixedAt(parents, e, c, t);
    }
    forall t | t in c ensures Backed(parents, c, t) {
      assert FixedAt(parents, e, c, t);
    }
  }

  /** What is still running is all that could go on running without s. */
  lemma GreatestAfter(v: SoundView, v': SoundView, s: Id)
    requires Settled(v) && Settled(v') && v'.g == v.g
    requires Running(v'.st) <= Running(v.st) - {s} && Spares(v, v', s)
    ensures Running(v'.st) == Greatest(v.g.parents, Running(v.st) - {s})
  {
    var p, e, r := v.g.parents, Running(v.st) - {s}, Running(v'.st);
    StopsToAFixpoint(v, v', s);
    BetweenLeastAndGreatest(p, e, r);
    FixpointHolds(p, e, Greatest(p, e));
    HoldersRun(v, v', s, Greatest(p, e));
  }

  lemma DisableIsGreatest(v: SoundView, v': SoundView, s: Id)
    requires Settled(v) && Settled(v') && Newer(v, v') && DisableResult(v, v', s)
    ensures Running(v'.st) == Greatest(v.g.parents, Running(v.st) - {s})
  {
    GreatestAfter(v, v', s);
  }

  lemma FaultIsGreatest(v: SoundView, v': SoundView, s: Id)
    requires Settled(v) && Settled(v') && Newer(v, v') && CheckResult(v, v', s, true)
    ensures Running(v'.st) == Greatest(v.g.parents, Running(v.st) - {s})
  {
    GreatestAfter(v, v', s);
  }

  // ---------------------------------------------------------------- starting

  /** Whoever is up after events that only start services can be built up from those before. */
  lemma {:induction false} StartsAreFounded(
    tr: seq<Event>, n: nat, parents: map<Id, map<string, set<Id>>>, e: set<Id>, f: set<Id>)
    requires SafeTrace(tr) && n <= |tr| && Parents(tr[..n]) == parents && Up(tr[..n]) <= f && Up(tr) <= e
    requires forall k {:trigger tr[k]} :: n <= k < |tr| ==> KindOf(tr[k]) in {Kind.Starting, Kind.Pardoning}
    requires Supported(parents, e, f) <= f
    ensures Up(tr) <= f && Parents(tr) == parents
    decreases |tr|
  {
    if n == |tr| {
      assert tr[..n] == tr;
    } else {
      var before, last := tr[..|tr| - 1], tr[|tr| - 1];
      assert before[..n] == tr[..n];
      StartsAreFounded(before, n, parents, e, f);
      if last.Start? && last.ok {
        BackedGrows(parents, last.live, f, last.s);
        assert last.s in Supported(parents, e, f);
      }
    }
  }

  lemma {:induction false} FoundedFrom(parents: map<Id, map<string, set<Id>>>, e: set<Id>, r: set<Id>)
    ensures r <= Founded(parents, e, r)
    decreases e - r
  {
    var more := Supported(parents, e, r) - r;
    if more != {} {
      assert e - (r + more) == (e - r) - more && (e - r) * more == more;
      FoundedFrom(parents, e, r + more);
    }
  }

  lemma StillSupported(v: SoundView, v': SoundView)
    requires Settled(v) && Settled(v') && v'.g == v.g && Running(v.st) <= Running(v'.st)
    ensures Running(v.st) <= Supported(v.g.parents, Startable(v'.st), Running(v.st))
  {
    RunningIsFixpoint(v);
    RunningIsFixpoint(v');
    forall t | t in Running(v.st) ensures t in Supported(v.g.parents, Startable(v'.st), Running(v.st)) {
      assert FixedAt(v.g.parents, Startable(v.st), Running(v.st), t);
      assert FixedAt(v.g.parents, Startable(v'.st), Running(v'.st), t);
    }
  }

  lemma OnlyFoundedStarts(v: SoundView, v': SoundView, s: Id, f: set<Id>)
    requires Settled(v') && v'.g == v.g && Upward(v, v', s)
    requires Running(v.st) <= f && Supported(v.g.parents, Startable(v'.st), f) <= f
    ensures Running(v'.st) <= f
  {
    Called(v);
    Called(v');
    RunningIsFixpoint(v');
    forall t | t in Running(v'.st) ensures t in Startable(v'.st) {
      assert FixedAt(v'.g.parents, Startable(v'.st), Running(v'.st), t);
    }
    assert v'.trace[..|v.trace|] == v.trace;
    StartsAreFounded(v'.trace, |v.trace|, v.g.parents, Startable(v'.st), f);
  }

  /** What is running is what was, and what could be started from there one after the other. */
  lemma LeastAfter(v: SoundView, v': SoundView, s: Id)
    requires Settled(v) && Settled(v') && v'.g == v.g && Upward(v, v', s)
    ensures Running(v'.st) == Founded(v.g.parents, Startable(v'.st), Running(v.st))
  {
    var p, e, r := v.g.parents, Startable(v'.st), Running(v.st);
    StillSupported(v, v');
    FoundedFrom(p, e, r);
    FoundedIsFixpoint(p, e, r);
    FixpointIsSupported(p, e, Founded(p, e, r));
    OnlyFoundedStarts(v, v', s, Founded(p, e, r));
    RunningIsFixpoint(v');
    FoundedIsLeast(p, e, r, Running(v'.st));
  }

  lemma EnableIsLeast(v: SoundView, v': SoundView, s: Id, ok: bool)
    requires Settled(v) && Settled(v') && Newer(v, v') && EnableResult(v, v', s, ok)
    ensures Running(v'.st) == Founded(v.g.parents, Startable(v'.st), Running(v.st))
  {
    LeastAfter(v, v', s);
  }

  lemma ClearIsLeast(v: SoundView, v': SoundView, s: Id)
    requires Settled(v) && Settled(v') && Newer(v, v') && ClearResult(v, v', s)
    ensures Running(v'.st) == Founded(v.g.parents, Startable(v'.st), Running(v.st))
  {
    LeastAfter(v, v', s);
  }

  // ---------------------------------------------------------------- restarting

  /** Restarting is stopping to the greatest, then starting to the least. */
  lemma RestartIsBoth(v: SoundView, v': SoundView, s: Id)
    requires Settled(v) && Settled(v') && Newer(v, v') && RestartResult(v, v', s) && s in Enabled(v.st)
    ensures Running(v'.st) ==
            Founded(v.g.parents, Startable(v'.st), Greatest(v.g.parents, Running(v.st) - {s}))
  {
    var w :| ByWayOf(v, w, v', s);
    GreatestAfter(v, w, s);
    LeastAfter(w, v', s);
  }

  /** On any graph, from a state without faults and with nothing going wrong on the way, a restart
      leaves the running services as they were exactly if those that cannot hold on without the
      service can all be started again from what remains. */
  lemma RestartChangesNothingExactlyWhen(v: SoundView, v': SoundView, s: Id)
    requires Settled(v) && Settled(v') && Newer(v, v') && RestartResult(v, v', s) && s in Enabled(v.st)
    requires FaultFree(v.st) && GoneWell(v, v')
    ensures Running(v'.st) == Running(v.st) <==>
            Founded(v.g.parents, Enabled(v.st), Greatest(v.g.parents, Running(v.st) - {s})) == Running(v.st)
  {
    RestartIsBoth(v, v', s);
    RestartWithoutTrouble(v, v', s);
    StaysFaultFree(v, v');
    AllEnabledStartable(v'.st);
  }
}
