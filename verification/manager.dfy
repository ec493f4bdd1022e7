/** The manager and its services as objects: the methods of the supervisor, updating the fields
    of the services in place. Each is proved against the values of the modules above: the ghost
    field `v` of the manager mirrors the fields of its services, and what a method does is said
    of `v`. */
module Managers {
  import opened Linkage
  import opened Names
  import opened Indexing
  import opened RateLimits
  import opened Traces
  import opened Supervision
  import opened Starting
  import opened Stopping
  import opened Operations
  import opened Membership

  datatype Error =
    | NoError | NoManager | Conflict | IsEnabled | NotRunning | NameExists
    | PropReadOnly | BadPropType | Trouble(code: int)

  /** A property with the value it is to be set to; BadType stands for one that may be set at any
      time, with a value of the wrong type. */
  datatype Property =
    | Restart(on: bool) | RateLimit(rate: int) | RatePeriod(period: int)
    | Name(name: string) | Conflicts(conflicts: seq<string>)
    | Depends(depends: seq<string>) | Provides(names: seq<string>)
    | BadType
  {
    predicate Declares() {
      Name? || Conflicts? || Depends? || Provides?
    }

    predicate Limits() {
      RateLimit? || RatePeriod?
    }

    /** The declaration, with the property set. */
    function Applied(a: Attr): Attr {
      match this
      case Name(name) => a.(name := name)
      case Conflicts(conflicts) => a.(conflicts := conflicts)
      case Depends(depends) => a.(depends := depends)
      case Provides(names) => a.(provided := names)
      case _ => a
    }

    /** The policy, with the property set: a new limit has an empty ring, and either kind of limit
        starts the count again. */
    function Tuned(p: Policy): Policy
      requires RateLimit? ==> rate >= 0
    {
      match this
      case Restart(on) => p.(restart := on)
      case RateLimit(rate) => p.(rate := rate, starts := 0, times := seq(rate, _ => 0))
      case RatePeriod(period) => p.(period := period, starts := 0)
      case _ => p
    }
  }

  // ---------------------------------------------------------------- the environment

  /** A reading of the clock, which never runs behind a time it has shown before. */
  method Now(seen: int) returns (t: int)
    ensures seen <= t
  {
    t :| seen <= t;
  }

  /** What a provider may answer when it is asked to start, or asked how it is. */
  method ProviderAnswers() returns (e: Error)
    ensures e == NoError || e.Trouble?
  {
    var fine: bool := *;
    var code: int := *;
    e := if fine then NoError else Trouble(code);
  }

  class Service {
    const id: Id
    var mgr: Manager?
    var attr: Attr
    var enabled: bool
    var running: bool
    var stopping: bool
    var failed: bool
    var restart: bool
    var checking: bool
    var err: Error
    var reason: Reason
    var stamp: int
    var serial: int
    var rateLimit: nat
    var ratePeriod: int
    var starts: nat
    var startTimes: seq<int>
    var rateLog: bool
    ghost var attempts: seq<int>  // while in no manager: the attempts that `startTimes` stands for

    constructor (id: Id, attr: Attr)
      ensures this.id == id && this.attr == attr && Loose() && !failed && !restart
      ensures rateLimit == 10 && ratePeriod == 60_000_000_000 && starts == 0
    {
      this.id := id;
      this.attr := attr;
      mgr := null;
      enabled, running, stopping, failed := false, false, false, false;
      restart, checking, rateLog := false, false, false;
      err, reason, stamp, serial := NoError, NoReason, 0, 0;
      rateLimit, ratePeriod, starts, startTimes := 10, 60_000_000_000, 0, seq(10, _ => 0);
      attempts := [];
      new;
      FreshRing(PolicyNow());
    }

    ghost function PolicyNow(): Policy
      reads this
    {
      Policy(restart, rateLimit, ratePeriod, starts, startTimes)
    }

    ghost predicate Managed()
      reads this, mgr
    {
      mgr != null && this in mgr.crew && id in mgr.services && mgr.services[id] == this
    }

    /** In no manager, and down. */
    ghost predicate Loose()
      reads this
    {
      && mgr == null && !enabled && !running && !stopping && (failed ==> err != NoError)
      && InRing(PolicyNow(), attempts)
    }

    /** The fields are what v says of this service, which is m's; a failure is remembered in `err`. */
    ghost predicate Fits(m: Manager, v: View)
      reads this
    {
      && mgr == m && id in v.st && id in v.tags && id in v.policies && id in v.attrs
      && v.st[id] == Flags(enabled, running, stopping, failed, v.st[id].refused)
      && v.tags[id] == Tag(reason, stamp, serial)
      && v.policies[id] == PolicyNow() && v.attrs[id] == attr
      && (failed ==> err != NoError)
    }

    /** And a refusal is remembered in `rateLog`. */
    ghost predicate Shows(m: Manager, v: View)
      reads this
    {
      Fits(m, v) && (v.st[id].refused ==> rateLog)
    }

    /** The declaration, and the terms of restarts but for the count, are as v says. */
    ghost predicate KeepsTerms(v: View)
      reads this
    {
      && id in v.st && id in v.policies && id in v.attrs && attr == v.attrs[id]
      && PolicyNow() == v.policies[id].(starts := starts) && (v.st[id].refused ==> rateLog)
    }

    ghost predicate KeepsRest(v: View)
      reads this
    {
      KeepsTerms(v) && running == v.st[id].running && stopping == v.st[id].stopping
    }

    /** What w says of this service is what v says. */
    lemma Carried(m: Manager, v: View, w: View)
      requires Shows(m, v) && id in w.st && id in w.tags && id in w.policies && id in w.attrs
      requires w.st[id] == v.st[id] && w.tags[id] == v.tags[id]
      requires w.policies[id] == v.policies[id] && w.attrs[id] == v.attrs[id]
      ensures Shows(m, w)
    {
    }

    // ---------------------------------------------------------------- fields and the view of them

    /** The fields are as w says, and w becomes the manager's view. */
    ghost method SetView(w: SoundView)
      requires mgr != null && mgr.AllBut(this) && Shows(mgr, w) && OnlyAt(mgr.v, w, id) && w.serial == mgr.serial
      modifies mgr`v
      ensures mgr.Coupled() && mgr.v == w
    {
      mgr.v := w;
      mgr.Restored(this);
    }

    method TakeSerial()
      requires mgr != null
      modifies mgr`serial, `serial
      ensures serial == mgr.serial == old(mgr.serial) + 1
    {
      serial := mgr.BumpSerial();
    }

    method SetStatus(why: Reason)
      modifies `reason, `stamp
      ensures reason == why
    {
      reason := why;
      stamp := Now(stamp);
    }

    method SetSerialAndStatus(why: Reason)
      requires mgr != null
      modifies mgr`serial, `serial, `reason, `stamp
      ensures serial == mgr.serial == old(mgr.serial) + 1 && reason == why
    {
      TakeSerial();
      SetStatus(why);
    }

    /** A new status, under a new serial. */
    method Report(why: Reason)
      requires Managed() && mgr.Coupled()
      modifies mgr`v, mgr`serial, `serial, `reason, `stamp
      ensures mgr.Coupled() && mgr.v == Announce(old(mgr.v), id, why, stamp) && reason == why
    {
      assert mgr.Mirrors(id);
      SetSerialAndStatus(why);
      mgr.Untouched(this);
      SetView(Announce(mgr.v, id, why, stamp));
    }

    // ---------------------------------------------------------------- canRun

    /** The inner loop of `canRun`: is one of the providers live? */
    method AnyLive(deps: set<Id>) returns (sat: bool)
      requires mgr != null && mgr.Coupled() && deps <= mgr.services.Keys
      ensures sat <==> exists d :: d in deps && d in LiveSet(mgr.v.st)
    {
      var todo := deps;
      while todo != {}
        invariant todo <= deps
        invariant forall d :: d in deps && d !in todo ==> d !in LiveSet(mgr.v.st)
      {
        var i := Next(todo);
        assert mgr.Mirrors(i);
        var d := mgr.services[i];
        if d.enabled && d.running && !d.stopping && !d.failed {
          return true;
        }
        todo := todo - {i};
      }
      return false;
    }

    /** The outer loop of `canRun`: has every dependency name a live provider? */
    method Satisfied() returns (sat: bool)
      requires Managed() && mgr.Coupled()
      ensures sat <==> Backed(mgr.v.g.parents, LiveSet(mgr.v.st), id)
    {
      var todo := mgr.links.parents[id].Keys;
      while todo != {}
        invariant todo <= mgr.v.g.parents[id].Keys
        invariant forall k :: k in mgr.v.g.parents[id] && k !in todo ==>
                    HasProvider(mgr.v.g.parents, LiveSet(mgr.v.st), id, k)
      {
        var k := NextName(todo);
        mgr.ProvidersAreManaged(id, k);
        sat := AnyLive(mgr.links.parents[id][k]);
        if !sat {
          assert !HasProvider(mgr.v.g.parents, LiveSet(mgr.v.st), id, k);
          return false;
        }
        todo := todo - {k};
      }
      return true;
    }

    /** The loop over the conflicts that `canRun` and `Enable` share. */
    method Unconflicted() returns (ok: bool)
      requires Managed() && mgr.Coupled()
      ensures ok <==> NoConflict(mgr.v.g, mgr.v.st, id)
    {
      var todo := mgr.links.incompat[id];
      while todo != {}
        invariant todo <= mgr.v.g.incompat[id]
        invariant forall c :: c in mgr.v.g.incompat[id] && c !in todo ==> !mgr.v.st[c].enabled
      {
        var i := Next(todo);
        assert i in mgr.v.g.incompat[id];
        assert mgr.Mirrors(i);
        if mgr.services[i].enabled {
          return false;
        }
        todo := todo - {i};
      }
      return true;
    }

    method Unmet()
      requires Managed() && mgr.Coupled()
      modifies mgr`v, mgr`serial, `serial, `reason, `stamp
      ensures mgr.Coupled() && Quiet(old(mgr.v), mgr.v) && OnlyAt(old(mgr.v), mgr.v, id)
      ensures mgr.v.tags[id].reason == UnmetDependency
      ensures old(mgr.v).tags[id].reason == UnmetDependency ==> mgr.v == old(mgr.v)
    {
      NewerIsReflexive(mgr.v);
      assert mgr.Mirrors(id);
      if reason != UnmetDependency {
        Report(UnmetDependency);
        NewerTouch(old(mgr.v), old(mgr.v), mgr.v, id);
      }
    }

    /** The right to run: `failed` is not looked at. An unmet dependency is reported. */
    method CanRun() returns (ok: bool)
      requires Managed() && mgr.Coupled()
      modifies mgr`v, mgr`serial, `serial, `reason, `stamp
      ensures mgr.Coupled() && Quiet(old(mgr.v), mgr.v) && Told(old(mgr.v), mgr.v, id)
      ensures ok <==> Supervision.CanRun(old(mgr.v.g), old(mgr.v.st), id)
    {
      NewerIsReflexive(mgr.v);
      assert mgr.Mirrors(id);
      if stopping || !enabled {
        return false;
      }
      ok := Satisfied();
      if !ok {
        Unmet();
        return false;
      }
      ok := Unconflicted();
    }

    // ---------------------------------------------------------------- startRecurse

    /** The limiter refuses exactly when the quota is used up and the latest attempt is less
        than a period ago: the second look, at the attempt before, never changes the answer. A
        refusal is remembered until the rule has been looked up and has let an attempt through. */
    method TooQuickly(ghost times: seq<int>) returns (quick: bool, now: int)
      requires InRing(PolicyNow(), times)
      modifies `rateLog
      ensures rateLog == (quick || (old(rateLog) && (rateLimit == 0 || starts < rateLimit)))
      ensures AllBy(rateLimit, times, now) && (quick <==> TooSoon(rateLimit, ratePeriod, times, now))
    {
      ghost var p := PolicyNow();
      NewestIsLatest(p, times);
      now := if 0 < rateLimit && 0 < starts then startTimes[(starts - 1) % rateLimit] else 0;
      if rateLimit == 0 || starts < rateLimit {
        return false, now;
      }
      now := Now(now);
      RingAnswersRule(p, times, now);
      if now < startTimes[(starts - 1) % rateLimit] + ratePeriod {
        rateLog := true;
        return true, now;
      }
      if !rateLog {
        return false, now;
      }
      now := Now(now);
      RingAnswersRule(p, times, now);
      if now < startTimes[(starts - 2) % rateLimit] + ratePeriod {
        return true, now;
      }
      rateLog := false;
      return false, now;
    }

    /** The time of an attempt goes into the ring. */
    method CountAttempt(now: int)
      requires |startTimes| == rateLimit
      modifies `starts, `startTimes
      ensures PolicyNow() == Record(old(PolicyNow()), now)
    {
      if rateLimit > 0 {
        startTimes := startTimes[starts % rateLimit := now];
      }
      starts := starts + 1;
    }

    /** The refusal goes on record. */
    ghost method RecordRefusal(at: int)
      requires mgr != null && mgr.AllBut(this) && mgr.v.serial == mgr.serial
      requires Fits(mgr, mgr.v) && rateLog && Able(mgr.v, id) && Barred(mgr.v, id, at)
      modifies mgr`v
      ensures mgr.Coupled() && mgr.v == Refuse(old(mgr.v), id, at)
    {
      mgr.v := Refuse(mgr.v, id, at);
      mgr.Restored(this);
    }

    /** The provider's answer to Start, in the fields. */
    method SetAnswer(e: Error)
      requires e == NoError || e.Trouble?
      modifies `running, `failed, `reason, `stamp, `err
      ensures failed == (e != NoError) && running == (e == NoError || old(running))
      ensures if e == NoError then reason == StartedReason && err == old(err) else reason.FailedStart? && err == e
    {
      if e != NoError {
        SetStatus(FailedStart(e.code));
        err := e;
        failed := true;
      } else {
        SetStatus(StartedReason);
        running := true;
        failed := false;
      }
    }

    /** The attempt is counted and gets a serial, the provider is asked to start, and answers. */
    method CallProvider(now: int) returns (up: bool)
      requires mgr != null && |startTimes| == rateLimit
      modifies mgr`serial, `running, `failed, `reason, `stamp, `serial, `starts, `startTimes, `err
      ensures PolicyNow() == Record(old(PolicyNow()), now) && serial == mgr.serial == old(mgr.serial) + 1
      ensures failed == !up && running == (up || old(running)) && (failed ==> err != NoError)
      ensures if up then reason == StartedReason else reason.FailedStart?
    {
      CountAttempt(now);
      TakeSerial();
      var e := ProviderAnswers();
      SetAnswer(e);
      up := e == NoError;
    }

    /** The attempt goes on record. */
    ghost method RecordAttempt(now: int, up: bool)
      requires mgr != null && mgr.AllBut(this) && serial == mgr.serial == mgr.v.serial + 1
      requires Able(mgr.v, id) && InTime(mgr.v, id, now)
      requires attr == mgr.v.attrs[id] && PolicyNow() == Record(mgr.v.policies[id], now)
      requires enabled == mgr.v.st[id].enabled && stopping == mgr.v.st[id].stopping
      requires running == up && failed == !up && (failed ==> err != NoError)
      requires if up then reason == StartedReason else reason.FailedStart?
      modifies mgr`v
      ensures mgr.Coupled() && OneAttempt(old(mgr.v), mgr.v, id, now, up)
    {
      ghost var w := MakeAttempt(mgr.v, id, now, up, reason, stamp);
      SetView(w);
    }

    /** The attempt the limiter has agreed to is made. */
    method TryStart(now: int) returns (up: bool)
      requires mgr != null && mgr.AllBut(this) && mgr.v.serial == mgr.serial && Fits(mgr, mgr.v)
      requires Able(mgr.v, id) && InTime(mgr.v, id, now) && |startTimes| == rateLimit
      modifies mgr`v, mgr`serial, `running, `failed, `reason, `stamp, `serial, `starts, `startTimes, `err
      ensures mgr.Coupled() && OneAttempt(old(mgr.v), mgr.v, id, now, up)
    {
      up := CallProvider(now);
      mgr.StillAllBut(this);
      RecordAttempt(now, up);
    }

    /** The limiter has its say; if it agrees the attempt is made. */
    method AskLimiter() returns (up: bool, ghost allowed: bool, ghost at: int)
      requires Managed() && mgr.Coupled() && Able(mgr.v, id)
      modifies mgr`v, mgr`serial, `running, `failed, `reason, `stamp, `serial, `starts, `startTimes, `rateLog, `err
      ensures mgr.Coupled()
      ensures allowed ==> OneAttempt(old(mgr.v), mgr.v, id, at, up)
      ensures !allowed ==> !up && Barred(old(mgr.v), id, at) && mgr.v == Refuse(old(mgr.v), id, at)
    {
      assert mgr.Mirrors(id);
      Flagged(mgr.v, id);
      var quick, now := TooQuickly(StartTimes(mgr.v, id));
      mgr.Untouched(this);
      if quick {
        RecordRefusal(now);
        return false, false, now;
      }
      var again := Now(now);
      LaterIsNotTooSoon(mgr.v.policies[id], StartTimes(mgr.v, id), now, again);
      up := TryStart(again);
      return up, true, again;
    }

    method StartIfAllowed(ghost v0: SoundView) returns (up: bool)
      requires Managed() && mgr.Coupled() && Closed(v0.g, v0.st) && Able(v0, id) && Reports(v0, mgr.v, id)
      modifies mgr`v, mgr`serial, `running, `failed, `reason, `stamp, `serial, `starts, `startTimes, `rateLog, `err
      ensures mgr.Coupled()
      ensures up ==> StartLoop(v0, mgr.v, id, mgr.v.g.children[id])
      ensures !up ==> Starts(v0, mgr.v, id)
    {
      ghost var allowed, at;
      up, allowed, at := AskLimiter();
      if up {
        StartSucceeds(v0, old(mgr.v), mgr.v, id, at);
      } else if allowed {
        StartFails(v0, old(mgr.v), mgr.v, id, at);
      } else {
        StartRefused(v0, old(mgr.v), mgr.v, id, at);
      }
    }

    /** `startRecurse` up to the loop over the children. */
    method Attempt() returns (up: bool)
      requires Managed() && mgr.Coupled() && Closed(mgr.v.g, mgr.v.st)
      modifies mgr`v, mgr`serial, `running, `failed, `reason, `stamp, `serial, `starts, `startTimes, `rateLog, `err
      ensures mgr == old(mgr) && mgr.crew == old(mgr.crew)
      ensures mgr.Coupled()
      ensures up ==> StartLoop(old(mgr.v), mgr.v, id, mgr.v.g.children[id])
      ensures !up ==> Starts(old(mgr.v), mgr.v, id)
    {
      assert mgr.Mirrors(id);
      if running {
        NewerIsReflexive(old(mgr.v));
        StartDenied(old(mgr.v), old(mgr.v), id);
        return false;
      }
      var ok := CanRun();
      LookedAt(old(mgr.v), mgr.v, id);
      if !ok {
        StartDenied(old(mgr.v), mgr.v, id);
        return false;
      }
      up := StartIfAllowed(old(mgr.v));
    }

    /** The recursion: an attempt, and if it succeeds one at each of the children. */
    method StartRecurse()
      requires Managed() && mgr.Coupled() && Closed(mgr.v.g, mgr.v.st)
      modifies mgr`v, mgr`serial, mgr.crew
      ensures mgr == old(mgr) && mgr.Coupled() && Starts(old(mgr.v), mgr.v, id)
      decreases Idle(mgr.v.st), 2
    {
      assert mgr.Mirrors(id);
      var up := Attempt();
      if up {
        VisitChildren(old(mgr.v));
        LoopEnds(old(mgr.v), mgr.v, id);
      }
    }

    /** The loop over the children, in any order. */
    method VisitChildren(ghost v0: SoundView)
      requires Managed() && mgr.Coupled() && StartLoop(v0, mgr.v, id, mgr.v.g.children[id])
      modifies mgr`v, mgr`serial, mgr.crew
      ensures mgr == old(mgr) && mgr.Coupled() && StartLoop(v0, mgr.v, id, {})
      decreases Idle(v0.st), 1
    {
      var m: Manager := mgr;
      m.ChildrenAreManaged(id);
      var todo := m.links.children[id];
      while todo != {}
        invariant mgr == m && Managed() && todo <= m.services.Keys
        invariant m.Coupled() && StartLoop(v0, m.v, id, todo)
      {
        var i := Next(todo);
        VisitChild(i, v0, todo);
        todo := todo - {i};
      }
    }

    /** One round of the loop over the children. */
    method VisitChild(i: Id, ghost v0: SoundView, ghost todo: set<Id>)
      requires Managed() && mgr.Coupled() && i in mgr.services && i in todo && StartLoop(v0, mgr.v, id, todo)
      modifies mgr`v, mgr`serial, mgr.crew
      ensures mgr == old(mgr) && mgr.Coupled() && StartLoop(v0, mgr.v, id, todo - {i})
      decreases Idle(v0.st), 0
    {
      var m: Manager := mgr;
      IdleShrinks(v0, old(m.v), id, todo);
      assert todo - {i} + {i} == todo;
      assert m.Mirrors(i);
      m.services[i].StartRecurse();
      assert m.Mirrors(id);
      StartChild(v0, old(m.v), m.v, id, i, todo - {i});
    }

    // ---------------------------------------------------------------- stopRecurse

    method SetStopping()
      requires Managed() && mgr.Coupled()
      modifies mgr`v, `stopping
      ensures mgr.Coupled() && mgr.v == Mark(old(mgr.v), id, old(mgr.v).st[id].enabled, true)
    {
      assert mgr.Mirrors(id);
      stopping := true;
      mgr.Untouched(this);
      SetView(Mark(mgr.v, id, enabled, true));
    }

    /** The provider is told to stop, and the service is down. */
    method SetDown(why: Reason)
      requires mgr != null
      modifies mgr`serial, `running, `stopping, `reason, `stamp, `serial
      ensures serial == mgr.serial == old(mgr.serial) + 1 && reason == why && !running && !stopping
    {
      SetSerialAndStatus(why);
      running := false;
      stopping := false;
    }

    ghost method RecordStop(stack: seq<Id>)
      requires mgr != null && mgr.AllBut(this) && serial == mgr.serial == mgr.v.serial + 1
      requires KeepsTerms(mgr.v) && starts == mgr.v.policies[id].starts
      requires enabled == mgr.v.st[id].enabled && failed == mgr.v.st[id].failed
      requires !running && !stopping && (failed ==> err != NoError)
      requires SafeStop(mgr.v.g.parents, Running(mgr.v.st), id, stack, LiveSet(mgr.v.st))
      modifies mgr`v
      ensures mgr.Coupled() && TakenDown(old(mgr.v), mgr.v, id, stack) && mgr.v.tags[id].reason == reason
    {
      ghost var w := TakeDown(mgr.v, id, stack, reason, stamp);
      SetView(w);
    }

    method SetDownFields(why: Reason, ghost stack: seq<Id>)
      requires Managed() && mgr.Coupled() && SafeStop(mgr.v.g.parents, Running(mgr.v.st), id, stack, LiveSet(mgr.v.st))
      modifies mgr`v, mgr`serial, `running, `stopping, `reason, `stamp, `serial
      ensures mgr.Coupled() && TakenDown(old(mgr.v), mgr.v, id, stack) && mgr.v.tags[id].reason == why
    {
      assert mgr.Mirrors(id);
      SetDown(why);
      mgr.Untouched(this);
      RecordStop(stack);
    }

    /** The end of `stopRecurse`, once the children have been dealt with. */
    method FinishStop(why: Reason, ghost v0: SoundView, ghost stack: seq<Id>)
      requires Managed() && mgr.Coupled() && Stoppable(v0, id, stack) && StopLoop(v0, mgr.v, id, {})
      modifies mgr`v, mgr`serial, `running, `stopping, `reason, `stamp, `serial
      ensures mgr.Coupled() && Stops(v0, mgr.v, id, stack) && mgr.v.tags[id].reason == why
    {
      SafeToStop(v0, mgr.v, id, stack);
      SetDownFields(why, stack);
      StopEnds(v0, old(mgr.v), mgr.v, id, stack);
    }

    /** The recursion: the children that can no longer run are stopped first. */
    method StopRecurse(why: Reason, ghost stack: seq<Id>)
      requires Managed() && mgr.Coupled() && Stoppable(mgr.v, id, stack)
      modifies mgr`v, mgr`serial, mgr.crew
      ensures mgr == old(mgr) && mgr.Coupled() && Stops(old(mgr.v), mgr.v, id, stack)
      ensures if Going(old(mgr.v).st, id) then mgr.v.tags[id].reason == why else mgr.v == old(mgr.v)
      decreases GoingSet(mgr.v.st), 4
    {
      assert mgr.Mirrors(id);
      if !running || stopping {
        StopIdle(mgr.v, id, stack);
      } else {
        StopGoing(why, stack);
      }
    }

    method StopGoing(why: Reason, ghost stack: seq<Id>)
      requires Managed() && mgr.Coupled() && Stoppable(mgr.v, id, stack) && Going(mgr.v.st, id)
      modifies mgr`v, mgr`serial, mgr.crew
      ensures mgr == old(mgr) && mgr.Coupled() && Stops(old(mgr.v), mgr.v, id, stack) && mgr.v.tags[id].reason == why
      decreases GoingSet(mgr.v.st), 3
    {
      SetStopping();
      StopBegins(old(mgr.v), id);
      StopChildren(old(mgr.v), stack);
      FinishStop(why, old(mgr.v), stack);
    }

    /** The loop over the children, in any order. */
    method StopChildren(ghost v0: SoundView, ghost stack: seq<Id>)
      requires Managed() && mgr.Coupled() && Stoppable(v0, id, stack) && StopLoop(v0, mgr.v, id, v0.g.children[id])
      modifies mgr`v, mgr`serial, mgr.crew
      ensures mgr == old(mgr) && mgr.Coupled() && StopLoop(v0, mgr.v, id, {})
      decreases GoingSet(v0.st), 2
    {
      var m: Manager := mgr;
      m.ChildrenAreManaged(id);
      var todo := m.links.children[id];
      while todo != {}
        invariant mgr == m && Managed() && todo <= m.services.Keys && todo <= v0.g.children[id]
        invariant m.Coupled() && StopLoop(v0, m.v, id, todo)
      {
        var i := Next(todo);
        StopChild(i, v0, stack, todo);
        todo := todo - {i};
      }
    }

    /** One round of the loop over the children: a child that can still run is spared. */
    method StopChild(i: Id, ghost v0: SoundView, ghost stack: seq<Id>, ghost todo: set<Id>)
      requires Managed() && mgr.Coupled() && Stoppable(v0, id, stack) && StopLoop(v0, mgr.v, id, todo)
      requires i in mgr.services && i in todo && todo <= v0.g.children[id]
      modifies mgr`v, mgr`serial, mgr.crew
      ensures mgr == old(mgr) && mgr.Coupled() && StopLoop(v0, mgr.v, id, todo - {i})
      decreases GoingSet(v0.st), 1
    {
      var m: Manager := mgr;
      assert m.Mirrors(i) && m.Mirrors(id);
      var can := m.services[i].CanRun();
      ChildSpared(v0, old(m.v), m.v, id, i, todo);
      assert m.Mirrors(id);
      if !can {
        StopUnable(m.services[i], v0, stack, todo);
      }
    }

    method StopUnable(c: Service, ghost v0: SoundView, ghost stack: seq<Id>, ghost todo: set<Id>)
      requires Managed() && c.Managed() && c.mgr == mgr && mgr.Coupled() && !Supervision.CanRun(mgr.v.g, mgr.v.st, c.id)
      requires Stoppable(v0, id, stack) && StopLoop(v0, mgr.v, id, todo) && c.id in todo && todo <= v0.g.children[id]
      modifies mgr`v, mgr`serial, mgr.crew
      ensures mgr == old(mgr) && mgr.Coupled() && StopLoop(v0, mgr.v, id, todo - {c.id})
      decreases GoingSet(v0.st), 0
    {
      var m: Manager := mgr;
      ChildStoppable(v0, m.v, id, stack, c.id, todo);
      c.StopRecurse(UnmetDependency, stack + [id]);
      ChildStopped(v0, old(m.v), m.v, id, stack + [id], c.id, todo);
      assert m.Mirrors(id);
    }

    // ---------------------------------------------------------------- the operations

    /** What Enable sets before it calls for the start. */
    method WriteEnable()
      requires mgr != null
      modifies mgr`serial, `serial, `reason, `stamp, `enabled, `starts
      ensures serial == mgr.serial == old(mgr.serial) + 1 && reason == EnabledReason && enabled && starts == 0
    {
      SetSerialAndStatus(EnabledReason);
      enabled := true;
      starts := 0;
    }

    ghost method RecordEnable()
      requires mgr != null && mgr.AllBut(this) && KeepsRest(mgr.v) && failed == mgr.v.st[id].failed
      requires serial == mgr.serial == mgr.v.serial + 1 && reason == EnabledReason && enabled && starts == 0
      requires failed ==> err != NoError
      modifies mgr`v
      ensures mgr.Coupled() && SwitchedOn(old(mgr.v), mgr.v, id)
    {
      ghost var w := SwitchOn(mgr.v, id, stamp);
      SetView(w);
    }

    method SetEnabledFields()
      requires Managed() && mgr.Coupled()
      modifies mgr`v, mgr`serial, `serial, `reason, `stamp, `enabled, `starts
      ensures mgr.Coupled() && SwitchedOn(old(mgr.v), mgr.v, id)
    {
      assert mgr.Mirrors(id);
      WriteEnable();
      mgr.Untouched(this);
      RecordEnable();
    }

    /** Everything is ready for the start recursion of Enable. */
    method PrepareEnable()
      requires Managed() && mgr.Ready() && !enabled && NoConflict(mgr.v.g, mgr.v.st, id)
      modifies mgr`v, mgr`serial, `serial, `reason, `stamp, `enabled, `starts
      ensures mgr == old(mgr) && mgr.crew == old(mgr.crew) && mgr.Coupled() && Enabling(old(mgr.v), mgr.v, id)
    {
      assert mgr.Mirrors(id);
      SetEnabledFields();
      EnableBegins(old(mgr.v), mgr.v, id);
    }

    method EnableUnopposed()
      requires Managed() && mgr.Ready() && !enabled && NoConflict(mgr.v.g, mgr.v.st, id)
      modifies mgr`v, mgr`serial, mgr.crew
      ensures mgr == old(mgr) && mgr.Ready() && Newer(old(mgr.v), mgr.v) && EnableResult(old(mgr.v), mgr.v, id, true)
    {
      assert mgr.Mirrors(id);
      PrepareEnable();
      label prepared:
      StartRecurse();
      EnableEnds(old(mgr.v), old@prepared(mgr.v), mgr.v, id);
    }

    /** Enable turned down because a conflicting service is enabled. */
    method EnableOpposed()
      requires Managed() && mgr.Ready() && !enabled && !NoConflict(mgr.v.g, mgr.v.st, id)
      modifies mgr`v, mgr`serial, `serial, `reason, `stamp
      ensures mgr.Ready() && Newer(old(mgr.v), mgr.v) && EnableResult(old(mgr.v), mgr.v, id, false)
      ensures reason == ConflictReason
    {
      assert mgr.Mirrors(id);
      Report(ConflictReason);
      EnableDenied(old(mgr.v), mgr.v, id);
    }

    method EnableManaged() returns (r: Error)
      requires Managed() && mgr.Ready() && !enabled
      modifies mgr`v, mgr`serial, mgr.crew
      ensures mgr == old(mgr) && mgr.Ready() && Newer(old(mgr.v), mgr.v)
      ensures EnableResult(old(mgr.v), mgr.v, id, r == NoError)
      ensures r == NoError || (r == Conflict && reason == ConflictReason)
    {
      var ok := Unconflicted();
      if ok {
        EnableUnopposed();
        return NoError;
      }
      EnableOpposed();
      return Conflict;
    }

    /** What Disable sets before it calls for the stop. */
    method WriteDisable()
      requires mgr != null
      modifies mgr`serial, `serial, `reason, `stamp, `enabled, `failed, `err
      ensures serial == mgr.serial == old(mgr.serial) + 1 && reason == DisabledReason && !enabled && !failed
    {
      SetSerialAndStatus(DisabledReason);
      enabled := false;
      failed := false;
      err := NoError;
    }

    ghost method RecordDisable()
      requires mgr != null && mgr.AllBut(this) && KeepsRest(mgr.v) && starts == mgr.v.policies[id].starts
      requires serial == mgr.serial == mgr.v.serial + 1 && reason == DisabledReason
      requires enabled == failed == false
      modifies mgr`v
      ensures mgr.Coupled() && SwitchedOff(old(mgr.v), mgr.v, id) && mgr.v.tags[id].reason == DisabledReason
    {
      ghost var w := SwitchOff(mgr.v, id, stamp);
      SetView(w);
    }

    method SetDisabledFields()
      requires Managed() && mgr.Coupled()
      modifies mgr`v, mgr`serial, `serial, `reason, `stamp, `enabled, `failed, `err
      ensures mgr.Coupled() && SwitchedOff(old(mgr.v), mgr.v, id) && mgr.v.tags[id].reason == DisabledReason
    {
      assert mgr.Mirrors(id);
      WriteDisable();
      mgr.Untouched(this);
      RecordDisable();
    }

    method DisableNow()
      requires Managed() && mgr.Ready()
      modifies mgr`v, mgr`serial, mgr.crew
      ensures mgr == old(mgr) && mgr.Ready() && Newer(old(mgr.v), mgr.v) && DisableResult(old(mgr.v), mgr.v, id)
      ensures mgr.v.tags[id].reason == DisabledReason
    {
      SetDisabledFields();
      label prepared:
      DisableBegins(old(mgr.v), mgr.v, id);
      StopRecurse(DisabledReason, []);
      DisableEnds(old(mgr.v), old@prepared(mgr.v), mgr.v, id);
    }

    method DisableManaged()
      requires Managed() && mgr.Ready()
      modifies mgr`v, mgr`serial, mgr.crew
      ensures mgr == old(mgr) && mgr.Ready() && Newer(old(mgr.v), mgr.v) && DisableResult(old(mgr.v), mgr.v, id)
      ensures mgr.v.tags[id].reason == DisabledReason
    {
      assert mgr.Mirrors(id);
      if !enabled && reason == DisabledReason {
        DisableAgain(mgr.v, id);
      } else {
        DisableNow();
      }
    }

    method ClearEnabled()
      requires Managed() && mgr.Coupled()
      modifies mgr`v, `enabled
      ensures mgr.Coupled() && mgr.v == Mark(old(mgr.v), id, false, old(mgr.v).st[id].stopping)
    {
      assert mgr.Mirrors(id);
      enabled := false;
      mgr.Untouched(this);
      SetView(Mark(mgr.v, id, false, stopping));
    }

    /** The part of `Shutdown` that brings one service down: no new serial for its disabling. */
    method ShutManaged()
      requires Managed() && mgr.Ready()
      modifies mgr`v, mgr`serial, mgr.crew
      ensures mgr == old(mgr) && mgr.Ready() && !mgr.v.st[id].enabled && old(mgr.v).trace <= mgr.v.trace
      ensures mgr.v.serial >= old(mgr.v).serial
    {
      ShutBegins(mgr.v, id);
      assert mgr.Mirrors(id);
      ClearEnabled();
      label prepared:
      StopRecurse(ShuttingDown, []);
      StopSettles(old@prepared(mgr.v), mgr.v, id);
      assert ShrunkAt(old@prepared(mgr.v).st, mgr.v.st, id);
    }

    method WithdrawForRestart()
      requires Managed() && mgr.Coupled()
      modifies mgr`v, mgr`serial, `serial, `enabled
      ensures mgr.Coupled() && mgr.v == Withdrawn(old(mgr.v), id)
    {
      assert mgr.Mirrors(id);
      TakeSerial();
      enabled := false;
      mgr.Untouched(this);
      SetView(Withdrawn(mgr.v, id));
    }

    /** The first half of `Restart`: the service and what hangs on it go down. */
    method StopForRestart() returns (ghost v1: SoundView)
      requires Managed() && mgr.Ready() && enabled
      modifies mgr`v, mgr`serial, mgr.crew
      ensures mgr == old(mgr) && mgr.crew == old(mgr.crew)
      ensures mgr.Coupled() && HalfRestarted(old(mgr.v), v1, mgr.v, id)
    {
      assert mgr.Mirrors(id);
      WithdrawForRestart();
      v1 := mgr.v;
      RestartBegins(old(mgr.v), v1, id);
      StopRecurse(RestartStop, []);
    }

    /** What Restart sets between the stop and the start. */
    method WriteRestart()
      modifies `reason, `stamp, `starts, `failed, `err, `enabled
      ensures reason == Restarting && starts == 0 && !failed && enabled
    {
      SetStatus(Restarting);
      starts := 0;
      failed := false;
      err := NoError;
      enabled := true;
    }

    ghost method RecordRestart()
      requires mgr != null && mgr.AllBut(this) && KeepsRest(mgr.v) && mgr.serial == mgr.v.serial
      requires serial == mgr.v.tags[id].serial && reason == Restarting && enabled && !failed && starts == 0
      modifies mgr`v
      ensures mgr.Coupled() && EnabledAgain(old(mgr.v), mgr.v, id)
    {
      ghost var w := EnableAfresh(mgr.v, id, stamp);
      SetView(w);
    }

    method SetRestartFields()
      requires Managed() && mgr.Coupled()
      modifies mgr`v, `reason, `stamp, `starts, `failed, `err, `enabled
      ensures mgr.Coupled() && EnabledAgain(old(mgr.v), mgr.v, id)
    {
      assert mgr.Mirrors(id);
      WriteRestart();
      mgr.Untouched(this);
      RecordRestart();
    }

    /** Everything is ready for the start recursion of Restart. */
    method PrepareRestart(ghost v0: SoundView, ghost v1: SoundView)
      requires Managed() && mgr.Coupled() && HalfRestarted(v0, v1, mgr.v, id)
      modifies mgr`v, `reason, `stamp, `starts, `failed, `err, `enabled
      ensures mgr == old(mgr) && mgr.crew == old(mgr.crew) && mgr.Coupled()
      ensures Restartable(v0, mgr.v, id) && ByWayOf(v0, old(mgr.v), mgr.v, id)
    {
      assert mgr.Mirrors(id);
      SetRestartFields();
      RestartTurns(v0, v1, old(mgr.v), mgr.v, id);
    }

    method RestartManaged()
      requires Managed() && mgr.Ready() && enabled
      modifies mgr`v, mgr`serial, mgr.crew
      ensures mgr == old(mgr) && mgr.Ready() && Newer(old(mgr.v), mgr.v) && RestartResult(old(mgr.v), mgr.v, id)
    {
      assert mgr.Mirrors(id);
      ghost var v1 := StopForRestart();
      label stopped:
      PrepareRestart(old(mgr.v), v1);
      label prepared:
      StartRecurse();
      RestartEnds(old(mgr.v), old@stopped(mgr.v), old@prepared(mgr.v), mgr.v, id);
    }

    /** What Clear sets before it calls for the start. */
    method WriteClear()
      requires mgr != null
      modifies mgr`serial, `serial, `reason, `stamp, `failed, `err, `starts
      ensures serial == mgr.serial == old(mgr.serial) + 1 && starts == 0 && !failed
      ensures reason == (if old(failed) then ClearedFault else old(reason)) && (!old(failed) ==> stamp == old(stamp))
    {
      TakeSerial();
      if failed {
        SetStatus(ClearedFault);
      }
      starts := 0;
      failed := false;
      err := NoError;
    }

    ghost method RecordClear()
      requires mgr != null && mgr.AllBut(this) && KeepsRest(mgr.v) && enabled == mgr.v.st[id].enabled
      requires serial == mgr.serial == mgr.v.serial + 1 && !failed && starts == 0
      requires reason == if mgr.v.st[id].failed then ClearedFault else mgr.v.tags[id].reason
      modifies mgr`v
      ensures mgr.Coupled() && Pardoned(old(mgr.v), mgr.v, id)
    {
      ghost var w := PardonAll(mgr.v, id, stamp);
      SetView(w);
    }

    method SetClearFields()
      requires Managed() && mgr.Coupled()
      modifies mgr`v, mgr`serial, `serial, `reason, `stamp, `failed, `err, `starts
      ensures mgr.Coupled() && Pardoned(old(mgr.v), mgr.v, id)
    {
      assert mgr.Mirrors(id);
      WriteClear();
      mgr.Untouched(this);
      RecordClear();
    }

    /** Everything is ready for the start recursion of Clear. */
    method PrepareClear()
      requires Managed() && mgr.Ready()
      modifies mgr`v, mgr`serial, `serial, `reason, `stamp, `failed, `err, `starts
      ensures mgr == old(mgr) && mgr.crew == old(mgr.crew) && mgr.Coupled() && Clearing(old(mgr.v), mgr.v, id)
    {
      assert mgr.Mirrors(id);
      SetClearFields();
      ClearBegins(old(mgr.v), mgr.v, id);
    }

    method ClearManaged()
      requires Managed() && mgr.Ready()
      modifies mgr`v, mgr`serial, mgr.crew
      ensures mgr == old(mgr) && mgr.Ready() && Newer(old(mgr.v), mgr.v)
      ensures ClearResult(old(mgr.v), mgr.v, id) && TriedAfresh(old(mgr.v), mgr.v, id, false)
    {
      PrepareClear();
      label prepared:
      StartRecurse();
      ClearEnds(old(mgr.v), old@prepared(mgr.v), mgr.v, id);
    }

    // ---------------------------------------------------------------- checks

    method SetChecking(on: bool)
      requires Managed() && mgr.Coupled()
      modifies `checking
      ensures mgr.Coupled()
    {
      assert mgr.Mirrors(id);
      checking := on;
      mgr.Changed(this);
    }

    /** What a fault sets before it calls for the stop. The error is stored here, before the stops and
        not after them; nothing looks at it in between. */
    method WriteFault(e: Error)
      requires mgr != null
      modifies mgr`serial, `serial, `failed, `err
      ensures serial == mgr.serial == old(mgr.serial) + 1 && failed && err == e
    {
      TakeSerial();
      failed := true;
      err := e;
    }

    method SetFaultFields(e: Error)
      requires Managed() && mgr.Coupled() && mgr.v.st[id].running && e.Trouble?
      modifies mgr`v, mgr`serial, `serial, `failed, `err
      ensures mgr.Coupled() && mgr.v == FaultFound(old(mgr.v), id)
    {
      assert mgr.Mirrors(id);
      WriteFault(e);
      mgr.Untouched(this);
      SetView(FaultFound(mgr.v, id));
    }

    /** The faulty branch of `checkService`. */
    method Faulty(e: Error)
      requires Managed() && mgr.Ready() && running && e.Trouble?
      modifies mgr`v, mgr`serial, mgr.crew
      ensures mgr == old(mgr) && mgr.Ready() && Newer(old(mgr.v), mgr.v)
      ensures CheckResult(old(mgr.v), mgr.v, id, true) && mgr.v.tags[id].reason == Faulted(e.code)
    {
      assert mgr.Mirrors(id);
      SetFaultFields(e);
      label prepared:
      FaultBegins(old(mgr.v), old@prepared(mgr.v), id);
      StopRecurse(Faulted(e.code), []);
      FaultEnds(old(mgr.v), old@prepared(mgr.v), mgr.v, id);
    }

    method FoundHealthy()
      requires Managed() && mgr.Ready() && running
      modifies mgr`v, mgr`serial, `serial, `reason, `stamp
      ensures mgr.Ready() && Newer(old(mgr.v), mgr.v)
      ensures CheckResult(old(mgr.v), mgr.v, id, false) && mgr.v.tags[id].reason == Healthy
    {
      assert mgr.Mirrors(id);
      if reason != Healthy {
        Report(Healthy);
      }
      CheckedHealthy(old(mgr.v), mgr.v, id);
    }

    /** What follows from the provider's answer. */
    method Judged(r: Error)
      requires Managed() && mgr.Ready() && running && (r == NoError || r.Trouble?)
      modifies mgr`v, mgr`serial, mgr.crew
      ensures mgr == old(mgr) && this in mgr.crew && mgr.Ready() && Newer(old(mgr.v), mgr.v)
      ensures CheckResult(old(mgr.v), mgr.v, id, r != NoError)
      ensures mgr.v.tags[id].reason == if r == NoError then Healthy else Faulted(r.code)
    {
      if r != NoError {
        Faulty(r);
      } else {
        FoundHealthy();
      }
    }

    /** A running service that is not marked failed is checked. */
    method CheckRunning() returns (r: Error)
      requires Managed() && mgr.Ready() && running && !failed
      modifies mgr`v, mgr`serial, mgr.crew
      ensures mgr == old(mgr) && mgr.Ready() && Newer(old(mgr.v), mgr.v) && (r == NoError || r.Trouble?)
      ensures CheckResult(old(mgr.v), mgr.v, id, r != NoError)
      ensures mgr.v.tags[id].reason == if r == NoError then Healthy else Faulted(r.code)
    {
      assert mgr.Mirrors(id);
      SetChecking(true);
      r := ProviderAnswers();
      Judged(r);
      SetChecking(false);
    }

    method CheckService() returns (r: Error)
      requires Managed() && mgr.Ready()
      modifies mgr`v, mgr`serial, mgr.crew
      ensures mgr == old(mgr) && mgr.Ready() && Newer(old(mgr.v), mgr.v) && Checked(old(mgr.v), mgr.v, id, r)
    {
      assert mgr.Mirrors(id);
      CheckedHealthy(old(mgr.v), old(mgr.v), id);
      if failed {
        return err;
      }
      if !running {
        return NotRunning;
      }
      r := CheckRunning();
    }

    /** A failed service that is to be restarted gets one attempt. */
    method SelfHeal()
      requires Managed() && mgr.Ready()
      modifies mgr`v, mgr`serial, mgr.crew
      ensures mgr == old(mgr) && mgr.Ready() && Newer(old(mgr.v), mgr.v) && ClearResult(old(mgr.v), mgr.v, id)
      ensures Tended(old(mgr.v), mgr.v, id)
    {
      NewerIsReflexive(old(mgr.v));
      assert mgr.Mirrors(id);
      if failed && restart {
        StartRecurse();
        HealEnds(old(mgr.v), mgr.v, id);
      }
    }

    /** What the monitor does about one service, and what it does when a service gives notice: an
        enabled service is checked, and if all is not well it is healed. */
    method CheckAndHeal() returns (ghost visit: Visit)
      requires Managed() && mgr.Ready()
      modifies mgr`v, mgr`serial, mgr.crew
      ensures mgr == old(mgr) && mgr.Ready() && Newer(old(mgr.v), mgr.v)
      ensures visit.s == id && visit.before == old(mgr.v) && visit.after == mgr.v && Nursed(visit)
    {
      NewerIsReflexive(old(mgr.v));
      assert mgr.Mirrors(id);
      if !enabled {
        return Visit(id, old(mgr.v), old(mgr.v), old(mgr.v));
      }
      var r := CheckService();
      label checked:
      if r != NoError {
        SelfHeal();
        OnwardIsTransitive(old(mgr.v), old@checked(mgr.v), mgr.v);
      }
      visit := Visit(id, old(mgr.v), old@checked(mgr.v), mgr.v);
    }

    // ---------------------------------------------------------------- the public face

    /** The services under the same manager. */
    ghost function Peers(): set<Service>
      reads this, mgr
    {
      if mgr == null then {} else mgr.crew
    }

    /** A service in no manager, or in one whose lock is free. */
    ghost predicate InOrder()
      reads this, mgr, Peers()
    {
      if mgr == null then Loose() else Managed() && mgr.Ready()
    }

    method Enable() returns (r: Error)
      requires InOrder()
      modifies mgr, Peers()
      ensures mgr == old(mgr) && InOrder() && (r == NoManager <==> mgr == null)
      ensures mgr != null ==> mgr.SameList() && Newer(old(mgr.v), mgr.v)
      ensures mgr != null ==> EnableResult(old(mgr.v), mgr.v, id, r == NoError)
      ensures r == NoError || (r == Conflict && reason == ConflictReason) || r == NoManager
    {
      if mgr == null {
        return NoManager;
      }
      assert mgr.Mirrors(id);
      if enabled {
        EnableAgain(mgr.v, id);
        return NoError;
      }
      r := EnableManaged();
    }

    method Disable() returns (r: Error)
      requires InOrder()
      modifies mgr, Peers()
      ensures mgr == old(mgr) && InOrder() && r == if mgr == null then NoManager else NoError
      ensures mgr != null ==> mgr.SameList() && Newer(old(mgr.v), mgr.v)
      ensures mgr != null ==> DisableResult(old(mgr.v), mgr.v, id) && mgr.v.tags[id].reason == DisabledReason
    {
      if mgr == null {
        return NoManager;
      }
      DisableManaged();
      return NoError;
    }

    method Restart() returns (r: Error)
      requires InOrder()
      modifies mgr, Peers()
      ensures mgr == old(mgr) && InOrder() && r == if mgr == null then NoManager else NoError
      ensures mgr != null ==> mgr.SameList() && Newer(old(mgr.v), mgr.v) && RestartResult(old(mgr.v), mgr.v, id)
    {
      if mgr == null {
        return NoManager;
      }
      assert mgr.Mirrors(id);
      if enabled {
        RestartManaged();
      } else {
        NewerIsReflexive(old(mgr.v));
      }
      return NoError;
    }

    method Clear()
      requires InOrder()
      modifies mgr, Peers()
      ensures mgr == old(mgr) && InOrder()
      ensures mgr != null ==> mgr.SameList() && Newer(old(mgr.v), mgr.v)
      ensures mgr != null ==> ClearResult(old(mgr.v), mgr.v, id) && TriedAfresh(old(mgr.v), mgr.v, id, false)
    {
      if mgr != null {
        ClearManaged();
      }
    }

    method Check() returns (r: Error)
      requires InOrder()
      modifies mgr, Peers()
      ensures mgr == old(mgr) && InOrder() && (mgr == null ==> r == NoManager)
      ensures mgr != null ==> mgr.SameList() && Newer(old(mgr.v), mgr.v) && Checked(old(mgr.v), mgr.v, id, r)
    {
      if mgr == null {
        return NoManager;
      }
      r := CheckService();
    }

    // ---------------------------------------------------------------- properties

    /** The switch of `setProp`: the two limits. */
    method Limit(p: Property)
      requires p.Limits() && (p.RateLimit? ==> p.rate >= 0) && |startTimes| == rateLimit
      modifies `rateLimit, `ratePeriod, `starts, `startTimes
      ensures PolicyNow() == p.Tuned(old(PolicyNow())) && starts == 0 && |startTimes| == rateLimit
    {
      starts := 0;
      if p.RateLimit? {
        startTimes := seq(p.rate, _ => 0);
        rateLimit := p.rate;
      } else {
        ratePeriod := p.period;
      }
    }

    /** What the service declares. */
    method Declare(p: Property)
      requires p.Declares()
      modifies `attr
      ensures attr == p.Applied(old(attr))
    {
      match p
      case Name(name) => attr := attr.(name := name);
      case Conflicts(conflicts) => attr := attr.(conflicts := conflicts);
      case Depends(depends) => attr := attr.(depends := depends);
      case Provides(names) => attr := attr.(provided := names);
    }

    /** A property set on a service in no manager. */
    method SetLoose(p: Property) returns (r: Error)
      requires Loose() && (p.RateLimit? ==> p.rate >= 0)
      modifies `attr, `restart, `rateLimit, `ratePeriod, `starts, `startTimes, `attempts
      ensures Loose() && r == if p.BadType? then BadPropType else NoError
      ensures attr == p.Applied(old(attr)) && PolicyNow() == p.Tuned(old(PolicyNow()))
    {
      r := if p.BadType? then BadPropType else NoError;
      if p.Declares() {
        Declare(p);
      } else if p.Restart? {
        restart := p.on;
      } else if p.Limits() {
        Limit(p);
        attempts := [];
        FreshRing(PolicyNow());
      }
    }

    method SetRestart(on: bool)
      requires Managed() && mgr.Coupled()
      modifies mgr`v, `restart
      ensures mgr.Coupled() && mgr.v == Retune(old(mgr.v), id, on)
    {
      assert mgr.Mirrors(id);
      restart := on;
      mgr.Untouched(this);
      SetView(Retune(mgr.v, id, on));
    }

    /** The limits have changed: attempts are counted afresh. */
    ghost method RecordLimit()
      requires mgr != null && mgr.AllBut(this) && Shows(mgr, mgr.v.(policies := mgr.v.policies[id := PolicyNow()]))
      requires starts == 0 && |startTimes| == rateLimit && mgr.v.serial == mgr.serial
      modifies mgr`v
      ensures mgr.Coupled() && mgr.v == LimitTo(old(mgr.v), id, PolicyNow())
    {
      SetView(LimitTo(mgr.v, id, PolicyNow()));
    }

    method SetLimit(p: Property)
      requires Managed() && mgr.Coupled() && p.Limits() && (p.RateLimit? ==> p.rate >= 0)
      modifies mgr`v, `rateLimit, `ratePeriod, `starts, `startTimes
      ensures mgr.Coupled() && mgr.v == Relimited(old(mgr.v), id, p)
    {
      assert mgr.Mirrors(id);
      Flagged(mgr.v, id);
      Limit(p);
      mgr.Untouched(this);
      RecordLimit();
    }

    /** A property set on a service in a manager, other than one it declares. */
    method SetManaged(p: Property)
      requires Managed() && mgr.Coupled() && !p.Declares() && (p.RateLimit? ==> p.rate >= 0)
      modifies mgr`v, `restart, `rateLimit, `ratePeriod, `starts, `startTimes
      ensures mgr.Coupled() && mgr.v == PropertySet(old(mgr.v), id, p)
    {
      if p.Restart? {
        SetRestart(p.on);
      } else if p.Limits() {
        SetLimit(p);
      }
    }

    method GiveSerial()
      requires Managed() && mgr.Coupled()
      modifies mgr`v, mgr`serial, `serial
      ensures mgr.Coupled() && mgr.v == Bump(old(mgr.v), id)
    {
      assert mgr.Mirrors(id);
      TakeSerial();
      mgr.Untouched(this);
      SetView(Bump(mgr.v, id));
    }

    method SetNumbered(p: Property) returns (r: Error)
      requires Managed() && mgr.Ready() && !p.Declares() && (p.RateLimit? ==> p.rate >= 0)
      modifies mgr`v, mgr`serial, `serial, `restart, `rateLimit, `ratePeriod, `starts, `startTimes
      ensures mgr.Ready() && Newer(old(mgr.v), mgr.v) && r == if p.BadType? then BadPropType else NoError
      ensures PropertyResult(old(mgr.v), mgr.v, id, p)
    {
      GiveSerial();
      SetManaged(p);
      r := if p.BadType? then BadPropType else NoError;
      PropertyIsNewer(old(mgr.v), id, p);
    }

    method SetOwned(p: Property) returns (r: Error)
      requires Managed() && mgr.Ready() && (p.RateLimit? ==> p.rate >= 0)
      modifies mgr`v, mgr`serial, `serial, `restart, `rateLimit, `ratePeriod, `starts, `startTimes
      ensures InOrder() && mgr.SameList() && Newer(old(mgr.v), mgr.v)
      ensures r == if p.Declares() then PropReadOnly else if p.BadType? then BadPropType else NoError
      ensures if p.Declares() then mgr.v == old(mgr.v) else PropertyResult(old(mgr.v), mgr.v, id, p)
    {
      if p.Declares() {
        NewerIsReflexive(mgr.v);
        r := PropReadOnly;
      } else {
        r := SetNumbered(p);
      }
    }

    /** What a service declares about itself is frozen while it is in a manager; any other property
        gives it a new serial, even if the value is of the wrong type. */
    method SetProperty(p: Property) returns (r: Error)
      requires InOrder() && (p.RateLimit? ==> p.rate >= 0)
      modifies mgr, `serial, `attr, `restart, `rateLimit, `ratePeriod, `starts, `startTimes, `attempts
      ensures mgr == old(mgr) && InOrder()
      ensures r == if mgr != null && p.Declares() then PropReadOnly else if p.BadType? then BadPropType else NoError
      ensures mgr != null ==> mgr.SameList() && Newer(old(mgr.v), mgr.v)
      ensures mgr != null ==> if p.Declares() then mgr.v == old(mgr.v) else PropertyResult(old(mgr.v), mgr.v, id, p)
      ensures mgr == null ==> attr == p.Applied(old(attr)) && PolicyNow() == p.Tuned(old(PolicyNow()))
    {
      if mgr == null {
        r := SetLoose(p);
      } else {
        r := SetOwned(p);
      }
    }
  }

  // ---------------------------------------------------------------- what checks and properties do

  /** What a check answers, and does: a failed service answers with its error, one that is down with
      NotRunning; any other is asked, and its status tells how it is. */
  ghost predicate Checked(v: SoundView, v': SoundView, s: Id, r: Error) {
    && s in v.st && s in v'.st
    && CheckResult(v, v', s, !v.st[s].failed && v.st[s].running && r != NoError)
    && (v.st[s].failed ==> r != NoError)
    && (!v.st[s].failed && !v.st[s].running ==> r == NotRunning)
    && (!v.st[s].failed && v.st[s].running ==>
          (r == NoError || r.Trouble?) && v'.tags[s].reason == if r == NoError then Healthy else Faulted(r.code))
  }

  /** A failed service with a policy of restarts has had an attempt; any other has been left alone. */
  ghost predicate Tended(v: SoundView, v': SoundView, s: Id) {
    && s in v.st && s in v.policies
    && if v.st[s].failed && v.policies[s].restart then Attempted(v, v', s) else v' == v
  }

  /** The check of one service, and the attempt to heal it: the states before, between and after. */
  datatype Visit = Visit(s: Id, before: SoundView, mid: SoundView, after: SoundView)

  ghost predicate Nursed(x: Visit) {
    && x.s in x.before.st
    && if !x.before.st[x.s].enabled then x.after == x.mid == x.before
       else (exists r :: Checked(x.before, x.mid, x.s, r)) && Tended(x.mid, x.after, x.s)
  }

  /** Visits one after the other. */
  ghost predicate Rounds(v: SoundView, visits: seq<Visit>, v': SoundView) {
    if visits == [] then v' == v
    else
      var last := visits[|visits| - 1];
      Nursed(last) && last.after == v' && Rounds(v, visits[..|visits| - 1], last.before)
  }

  ghost predicate Ticked(v: SoundView, visits: seq<Visit>, v': SoundView) {
    Newer(v, v') && Rounds(v, visits, v')
  }

  ghost function Visited(visits: seq<Visit>): set<Id> {
    set i | 0 <= i < |visits| :: visits[i].s
  }

  lemma NoVisits(v: SoundView)
    ensures Ticked(v, [], v) && Visited([]) == {}
  {
    NewerIsReflexive(v);
  }

  lemma VisitedOneMore(visits: seq<Visit>, x: Visit)
    ensures Visited(visits + [x]) == Visited(visits) + {x.s}
  {
    var all := visits + [x];
    assert all[|visits|] == x;
    forall s | s in Visited(visits) ensures s in Visited(all) {
      var i :| 0 <= i < |visits| && visits[i].s == s;
      assert all[i].s == s;
    }
  }

  lemma OneMoreVisit(v: SoundView, visits: seq<Visit>, x: Visit)
    requires Rounds(v, visits, x.before) && Nursed(x)
    ensures Rounds(v, visits + [x], x.after) && Visited(visits + [x]) == Visited(visits) + {x.s}
  {
    assert (visits + [x])[..|visits|] == visits;
    assert (visits + [x])[|visits|] == x;
    VisitedOneMore(visits, x);
  }

  /** A limit, set: the count starts again. */
  ghost function Relimited(v: SoundView, s: Id, p: Property): (v': SoundView)
    requires s in v.st && p.Limits() && (p.RateLimit? ==> p.rate >= 0)
    ensures OnlyAt(v, v', s) && v'.st == v.st && v'.tags == v.tags && v'.serial == v.serial
    ensures v'.policies[s] == p.Tuned(v.policies[s])
    ensures v'.trace == v.trace + [Relimit(s, v'.policies[s].rate, v'.policies[s].period)]
  {
    Flagged(v, s);
    LimitTo(v, s, p.Tuned(v.policies[s]))
  }

  /** A property that is not part of the declaration, set. */
  ghost function PropertySet(v: SoundView, s: Id, p: Property): (v': SoundView)
    requires s in v.st && (p.RateLimit? ==> p.rate >= 0)
    ensures OnlyAt(v, v', s) && v'.st == v.st && v'.tags == v.tags && v'.serial == v.serial
    ensures v'.policies[s] == p.Tuned(v.policies[s])
    ensures v'.trace == v.trace + if p.Limits() then [Relimit(s, v'.policies[s].rate, v'.policies[s].period)] else []
  {
    if p.Restart? then Retune(v, s, p.on)
    else if p.Limits() then Relimited(v, s, p)
    else v
  }

  /** What setting such a property leaves behind: a new serial, and new terms for the attempts, which
      are counted afresh if a limit has been set. */
  ghost predicate PropertyResult(v: SoundView, v': SoundView, s: Id, p: Property)
    requires p.RateLimit? ==> p.rate >= 0
  {
    && s in v.st && OnlyAt(v, v', s) && v'.st == v.st && v'.serial == v.serial + 1
    && v'.tags[s] == v.tags[s].(serial := v'.serial) && v'.policies[s] == p.Tuned(v.policies[s])
    && v'.trace == v.trace + if p.Limits() then [Relimit(s, v'.policies[s].rate, v'.policies[s].period)] else []
  }

  lemma PropertyIsNewer(v: SoundView, s: Id, p: Property)
    requires s in v.st && (p.RateLimit? ==> p.rate >= 0)
    ensures var w := PropertySet(Bump(v, s), s, p);
            Newer(v, w) && (Settled(v) ==> Settled(w)) && PropertyResult(v, w, s, p)
  {
    var b := Bump(v, s);
    var w := PropertySet(b, s, p);
    OnlyTwice(v, b, w, s);
    NewerIsReflexive(v);
    NewerTouch(v, v, w, s);
  }

  lemma NobodyIsOnward(v: SoundView, v': SoundView)
    requires v.trace <= v'.trace && v.serial <= v'.serial && v'.st.Keys == {}
    ensures Onward(v, v')
  {
    forall t ensures OnwardAt(v, v', t) {}
  }

  class Manager {
    var services: map<Id, Service>
    ghost var crew: set<Service>  // the objects in `services`
    var links: Links
    var serial: int
    var listSerial: int
    var monitoring: bool
    ghost var v: SoundView

    constructor (start: int)
      ensures Ready() && services == map[] && crew == {} && serial == start && listSerial == 0 && !monitoring
    {
      services := map[];
      crew := {};
      links := Links(map[], map[], map[]);
      serial, listSerial := start, 0;
      monitoring := false;
      v := EmptyView(start);
    }

    /** The fields are what v says. */
    ghost predicate Coupled()
      reads this, crew
    {
      && v.g == links && v.serial == serial && v.st.Keys == services.Keys
      && forall i {:trigger Mirrors(i)} :: i in services ==> Mirrors(i)
    }

    ghost predicate Mirrors(i: Id)
      reads `services, `crew, `v, crew
    {
      Agrees(v, i)
    }

    /** The fields of i are as w says. */
    ghost predicate Agrees(w: View, i: Id)
      reads `services, `crew, crew
    {
      i in services && services[i] in crew && services[i].id == i && services[i].Shows(this, w)
    }

    /** What holds whenever the lock is free: no service is left in a state it should not be in. */
    ghost predicate Ready()
      reads this, crew
    {
      Coupled() && Settled(v)
    }

    // ---------------------------------------------------------------- when one service changes

    /** The fields are what v says, except perhaps those of s and the serial. */
    ghost predicate AllBut(s: Service)
      reads this, crew
    {
      && v.g == links && v.st.Keys == services.Keys
      && s.id in services && services[s.id] == s && s in crew
      && forall i {:trigger Mirrors(i)} :: i in services && i != s.id ==> Mirrors(i)
    }

    /** Nothing has changed but the fields of s, and perhaps the serial. */
    twostate lemma Untouched(s: Service)
      requires old(Coupled()) && old(s.Managed()) && old(s.mgr) == this
      requires unchanged(`services, `crew, `links, `v)
      requires forall o: Service {:trigger o in crew} :: o in crew && o != s ==> unchanged(o)
      ensures AllBut(s)
    {
      assert old(Mirrors(s.id));
      forall i | i in services && i != s.id ensures Mirrors(i) {
        assert old(Mirrors(i));
      }
    }

    twostate lemma StillAllBut(s: Service)
      requires old(AllBut(s)) && unchanged(`services, `crew, `links, `v)
      requires forall o: Service {:trigger o in crew} :: o in crew && o != s ==> unchanged(o)
      ensures AllBut(s)
    {
      forall i | i in services && i != s.id ensures Mirrors(i) {
        assert old(Mirrors(i));
      }
    }

    /** The fields of s are again what v says. */
    twostate lemma Restored(s: Service)
      requires old(AllBut(s))
      requires services == old(services) && crew == old(crew) && links == old(links) && v.serial == serial
      requires forall o: Service {:trigger o in crew} :: o in crew && o != s ==> unchanged(o)
      requires OnlyAt(old(v), v, s.id) && s.Shows(this, v)
      ensures Coupled()
    {
      forall i | i in services ensures Mirrors(i) {
        if i != s.id {
          assert old(Mirrors(i));
        }
      }
    }

    /** Only s has changed, and v says how. */
    twostate lemma Changed(s: Service)
      requires old(Coupled()) && old(s.Managed()) && old(s.mgr) == this
      requires services == old(services) && crew == old(crew) && links == old(links) && v.serial == serial
      requires forall o: Service {:trigger o in crew} :: o in crew && o != s ==> unchanged(o)
      requires OnlyAt(old(v), v, s.id) && s.Shows(this, v)
      ensures Coupled()
    {
      assert old(Mirrors(s.id));
      Restored(s);
    }

    /** The same services are listed as before. */
    twostate predicate SameList()
      reads this
    {
      unchanged(`services, `crew, `links, `listSerial, `monitoring)
    }

    lemma ProvidersAreManaged(t: Id, k: string)
      requires Coupled() && t in links.parents && k in links.parents[t]
      ensures links.parents[t][k] <= services.Keys
    {
      forall s | s in links.parents[t][k] ensures s in services {
        assert s in v.g.parents[t][k];
      }
    }

    lemma ChildrenAreManaged(s: Id)
      requires Coupled() && s in links.children
      ensures links.children[s] <= services.Keys
    {
      forall t | t in links.children[s] ensures t in services {
        assert t in v.g.children[s];
      }
    }

    lemma DisabledIsDown(s: Service)
      requires Ready() && s.Managed() && s.mgr == this && !v.st[s.id].enabled
      ensures !s.enabled && !s.running && !s.stopping
    {
      assert Mirrors(s.id) && Steady(v.g, v.st, s.id);
    }

    method BumpSerial() returns (n: int)
      modifies `serial
      ensures n == serial == old(serial) + 1
    {
      serial := serial + 1;
      return serial;
    }

    // ---------------------------------------------------------------- AddService

    method NameTaken(name: string) returns (taken: bool)
      requires Coupled()
      ensures taken <==> Taken(v.attrs, name)
    {
      var todo := services.Keys;
      while todo != {}
        invariant todo <= services.Keys
        invariant forall i :: i in v.attrs && i !in todo ==> v.attrs[i].name != name
      {
        var i := Next(todo);
        assert Mirrors(i);
        if services[i].attr.name == name {
          return true;
        }
        todo := todo - {i};
      }
      return false;
    }

    /** One round of the loop of `setManager`. */
    method LinkOne(g: Links, s: Service, t: Id, ghost all: map<Id, Attr>, ghost done: set<Id>) returns (g': Links)
      requires t in services && s.id != t && s.id in all && t in all && t !in done
      requires s.attr == all[s.id] && services[t].attr == all[t] && g == IndexOn(all, s.id, done)
      ensures g' == IndexOn(all, s.id, done + {t})
    {
      IndexDeclares(all, s.id, done, s.id);
      IndexDeclares(all, s.id, done, t);
      LinkIsNextRound(all, s.id, done, t);
      g' := LinkPair(g, s.id, s.attr, t, services[t].attr);
    }

    /** The loop of `setManager`. */
    method LinkAll(s: Service, ghost all: map<Id, Attr>, bare: Links) returns (g: Links)
      requires s.id !in services && all.Keys == services.Keys + {s.id} && s.attr == all[s.id]
      requires forall i {:trigger services[i]} | i in services :: services[i].attr == all[i]
      requires bare == IndexOn(all, s.id, {})
      ensures g == IndexOn(all, s.id, services.Keys)
    {
      g := bare;
      ghost var done := {};
      var todo := services.Keys;
      while todo != {}
        invariant Splits(services.Keys, done, todo)
        invariant g == IndexOn(all, s.id, done)
      {
        var t := Next(todo);
        MoveOver(services.Keys, done, todo, t);
        g := LinkOne(g, s, t, all, done);
        todo, done := todo - {t}, done + {t};
      }
      AllDone(services.Keys, done);
    }

    /** The links of `setManager`: s starts with no links and is then linked with everyone. */
    method LinkService(s: Service) returns (g: Links)
      requires Coupled() && s.id !in services
      ensures IsIndex(g, v.attrs[s.id := s.attr])
    {
      ghost var attrs, all := v.attrs, v.attrs[s.id := s.attr];
      assert SoundAt(v, OfLinks);
      OnlyOneIndex(links, attrs);
      IndexBegins(attrs, s.id, s.attr);
      forall i | i in services ensures services[i].attr == all[i] {
        assert Mirrors(i);
      }
      g := Links(links.parents[s.id := NoParents(s.attr.depends)], links.children[s.id := {}],
                 links.incompat[s.id := {}]);
      g := LinkAll(s, all, g);
      IndexEnds(attrs, s.id, s.attr);
      OnlyOneIndex(g, all);
    }

    /** A service in this manager, or one that is in none and that this manager does not know. */
    ghost predicate Addable(s: Service)
      reads this, s
    {
      if s.mgr == null then s.Loose() && s.id !in services && s !in crew else s.mgr == this && s.Managed()
    }

    /** The fields are as w says, and w becomes the view. */
    ghost method ReplaceView(w: SoundView)
      requires w.g == links && w.serial == serial && w.st.Keys == services.Keys
      requires forall i {:trigger Agrees(w, i)} :: i in services ==> Agrees(w, i)
      modifies `v
      ensures Coupled() && v == w
    {
      label before:
      v := w;
      forall i | i in services ensures Mirrors(i) {
        assert old@before(Agrees(w, i));
      }
    }

    /** A new serial that goes to no service under this manager. */
    method NewSerial() returns (n: int)
      requires Ready()
      modifies `serial, `v
      ensures Ready() && n == serial == old(serial) + 1 && v == Skip(old(v), serial)
    {
      SkipIsOnward(v, serial + 1);
      n := BumpSerial();
      forall i | i in services ensures Agrees(Skip(v, serial), i) {
        assert old(Mirrors(i));
      }
      ReplaceView(Skip(v, serial));
    }

    method ListChanged()
      requires Ready()
      modifies `listSerial, `serial, `v
      ensures Ready() && listSerial == serial == old(serial) + 1 && v == Skip(old(v), serial)
    {
      var n := NewSerial();
      listSerial := n;
    }

    /** The fields of s that the rest of `setManager` and of `AddService` set. */
    method Adopt(s: Service, now: int)
      requires s.Loose()
      modifies s`mgr, s`stamp, s`reason, s`serial
      ensures s.mgr == this && s.reason == AddedService && s.stamp == now && s.serial == serial + 1
    {
      s.mgr := this;
      s.stamp := now;
      s.reason := AddedService;
      s.serial := serial + 1;
    }

    /** The fields of the manager. */
    method List(s: Service, g: Links)
      modifies `services, `crew, `links, `serial
      ensures services == old(services)[s.id := s] && crew == old(crew) + {s}
      ensures links == g && serial == old(serial) + 1
    {
      serial := serial + 1;
      links := g;
      services := services[s.id := s];
      crew := crew + {s};
    }

    /** What v says of the other services, w says too. */
    lemma OthersCarried(s: Id, w: SoundView)
      requires Coupled() && OthersKept(v, w, s)
      requires forall i {:trigger w.attrs[i]} :: i in v.attrs && i != s ==> i in w.attrs && w.attrs[i] == v.attrs[i]
      ensures forall i {:trigger Agrees(w, i)} :: i in services && i != s ==> Agrees(w, i)
    {
      forall i | i in services && i != s ensures Agrees(w, i) {
        assert Mirrors(i);
        services[i].Carried(this, v, w);
      }
    }

    method Enroll(s: Service, g: Links, ghost w: SoundView)
      requires s.id !in services && s.Shows(this, w)
      requires forall i {:trigger Agrees(w, i)} :: i in services ==> Agrees(w, i)
      requires w.g == g && w.serial == serial + 1 && w.st.Keys == services.Keys + {s.id}
      modifies `services, `crew, `links, `serial, `v
      ensures Coupled() && v == w && services == old(services)[s.id := s] && crew == old(crew) + {s}
      ensures serial == old(serial) + 1
    {
      List(s, g);
      forall i | i in services ensures Agrees(w, i) {
        assert i != s.id ==> old(Agrees(w, i));
      }
      ReplaceView(w);
    }

    /** s takes its place under this manager. */
    method Install(s: Service, now: int, g: Links, ghost w: SoundView)
      requires s.Loose() && s.id !in services && s !in crew
      requires forall i {:trigger Agrees(w, i)} :: i in services ==> Agrees(w, i)
      requires w.g == g && w.serial == serial + 1 && w.st.Keys == services.Keys + {s.id}
      requires w.st[s.id] == Flags(false, false, false, s.failed, false) && w.attrs[s.id] == s.attr
      requires w.tags[s.id] == Tag(AddedService, now, serial + 1) && w.policies[s.id] == s.PolicyNow()
      modifies `services, `crew, `links, `serial, `v, s`mgr, s`stamp, s`reason, s`serial
      ensures Coupled() && v == w && services == old(services)[s.id := s] && crew == old(crew) + {s}
      ensures s.mgr == this && s.serial == serial == old(serial) + 1 && s.reason == AddedService
      ensures v.st[s.id] == Flags(false, false, false, s.failed, false) && v.policies[s.id] == s.PolicyNow()
    {
      Adopt(s, now);
      forall i | i in services ensures Agrees(w, i) {
        assert old(Agrees(w, i));
      }
      Enroll(s, g, w);
    }

    method AddNew(s: Service)
      requires Ready() && s.Loose() && s.id !in services && s !in crew
      modifies `services, `crew, `links, `serial, `v, s`mgr, s`stamp, s`reason, s`serial
      ensures Ready() && Onward(old(v), v) && OthersKept(old(v), v, s.id) && v.attrs == old(v).attrs[s.id := s.attr]
      ensures services == old(services)[s.id := s] && crew == old(crew) + {s}
      ensures s.mgr == this && s.serial == serial == old(serial) + 1 && s.reason == AddedService
      ensures v.st[s.id] == Flags(false, false, false, s.failed, false) && v.policies[s.id] == s.PolicyNow()
    {
      var now := Now(s.stamp);
      var g := LinkService(s);
      ghost var w := Joining(v, s.id, s.attr, g, Flags(false, false, false, s.failed, false),
                             Tag(AddedService, now, serial + 1), s.PolicyNow(), s.attempts);
      assert w.st[s.id] == Flags(false, false, false, s.failed, false) && w.policies[s.id] == s.PolicyNow();
      OthersCarried(s.id, w);
      Install(s, now, g, w);
    }

    method AddService(s: Service) returns (r: Error)
      requires Ready() && Addable(s)
      modifies `services, `crew, `links, `listSerial, `serial, `v, s`mgr, s`stamp, s`reason, s`serial
      ensures Ready() && Onward(old(v), v)
      ensures r == if Taken(old(v).attrs, s.attr.name) then NameExists else NoError
      ensures r == NameExists ==> v == old(v) && services == old(services) && crew == old(crew)
      ensures r == NoError ==> services == old(services)[s.id := s] && crew == old(crew) + {s}
      ensures r == NoError ==> s.id !in old(services) && s.mgr == this && s.reason == AddedService
      ensures r == NoError ==> OthersKept(old(v), v, s.id) && v.attrs == old(v).attrs[s.id := s.attr]
      ensures r == NoError ==> listSerial == old(serial) + 1 && s.serial == serial == old(serial) + 2
      ensures r == NoError ==> v.st[s.id] == Flags(false, false, false, s.failed, false)
      ensures r == NoError ==> v.policies[s.id] == s.PolicyNow()
    {
      NewerIsReflexive(old(v));
      assert s.mgr == this ==> Mirrors(s.id);
      var taken := NameTaken(s.attr.name);
      if taken {
        return NameExists;
      }
      ListChanged();
      label listed:
      SkipIsOnward(old(v), serial);
      AddNew(s);
      OnwardIsTransitive(old(v), old@listed(v), v);
      return NoError;
    }

    // ---------------------------------------------------------------- DeleteService

    /** s, no longer listed, lets go of its manager. */
    method Release(s: Service, ghost was: SoundView)
      requires s.id in was.st && s.Shows(this, was) && !s.enabled && !s.running && !s.stopping
      requires Ready() && s !in crew
      modifies s`mgr, s`reason, s`stamp, s`attempts
      ensures Ready() && s.Loose() && s.reason == RemovedService
    {
      Flagged(was, s.id);
      s.reason := RemovedService;
      s.stamp := Now(s.stamp);
      s.mgr := null;
      s.attempts := StartTimes(was, s.id);
    }

    method Unlist(s: Service, g: Links)
      modifies `services, `crew, `links
      ensures services == old(services) - {s.id} && crew == old(crew) - {s} && links == g
    {
      links := g;
      services := services - {s.id};
      crew := crew - {s};
    }

    /** s is struck off the list of services. */
    method Strike(s: Service, g: Links, ghost w: SoundView)
      requires Coupled() && s.id in services && services[s.id] == s
      requires forall i {:trigger Agrees(w, i)} :: i in services && i != s.id ==> Agrees(w, i)
      requires w.g == g && w.serial == serial && w.st.Keys == services.Keys - {s.id}
      modifies `services, `crew, `links, `v
      ensures Coupled() && v == w && services == old(services) - {s.id} && crew == old(crew) - {s}
    {
      assert Mirrors(s.id);
      Unlist(s, g);
      forall i | i in services ensures Agrees(w, i) {
        assert old(Agrees(w, i));
      }
      ReplaceView(w);
    }

    /** The links without s. */
    method LinksWithout(s: Service) returns (g: Links)
      requires Coupled() && s.id in services
      ensures IsIndex(g, v.attrs - {s.id})
    {
      assert SoundAt(v, OfLinks);
      g := Unlink(links, s.id);
      UnlinkedIsIndex(links, v.attrs, s.id);
    }

    /** The links and the list go on without s. */
    method LeaveOut(s: Service)
      requires Ready() && s.Managed() && s.mgr == this && !v.st[s.id].enabled
      modifies `services, `crew, `links, `v
      ensures Ready() && services == old(services) - {s.id} && crew == old(crew) - {s}
      ensures Onward(old(v), v) && OthersKept(old(v), v, s.id) && v.attrs == old(v).attrs - {s.id}
    {
      var g := LinksWithout(s);
      ghost var w := Parting(v, s.id, g);
      OthersCarried(s.id, w);
      Strike(s, g, w);
    }

    /** `delManager`, for a service in this manager. */
    method DelManager(s: Service)
      requires Ready() && s.Managed() && s.mgr == this && !v.st[s.id].enabled
      modifies `services, `crew, `links, `v, s`mgr, s`reason, s`stamp, s`attempts
      ensures Ready() && services == old(services) - {s.id} && crew == old(crew) - {s}
      ensures s.Loose() && s.reason == RemovedService && serial == old(serial)
      ensures Onward(old(v), v) && OthersKept(old(v), v, s.id) && v.attrs == old(v).attrs - {s.id}
    {
      DisabledIsDown(s);
      assert Mirrors(s.id);
      LeaveOut(s);
      Release(s, old(v));
    }

    /** A service that is in no manager is given a new serial all the same. */
    method Renumber(s: Service)
      requires Ready() && s !in crew && s.Loose()
      modifies `listSerial, `serial, `v, s`serial
      ensures Ready() && listSerial == old(serial) + 1 && s.serial == serial == old(serial) + 2
      ensures Quiet(old(v), v) && v.tags == old(v).tags && s.Loose()
    {
      ListChanged();
      s.serial := serial + 1;
      SkipIsOnward(old(v), serial);
      SkipIsOnward(v, serial + 1);
      label listed:
      var n := NewSerial();
      OnwardIsTransitive(old(v), old@listed(v), v);
    }

    /** A service in no manager, in this one, or in another whose lock is free too. */
    ghost predicate Deletable(s: Service)
      reads this, s, s.mgr, s.Peers()
    {
      && s.InOrder()
      && (s.mgr != this ==> s !in crew && s.id !in services)
    }

    /** The service is in this manager. */
    method DeleteHere(s: Service)
      requires Ready() && s.Managed() && s.mgr == this && !v.st[s.id].enabled
      modifies `services, `crew, `links, `listSerial, `serial, `v, s`mgr, s`reason, s`stamp, s`serial, s`attempts
      ensures Ready() && Onward(old(v), v) && OthersKept(old(v), v, s.id) && v.attrs == old(v).attrs - {s.id}
      ensures services == old(services) - {s.id} && crew == old(crew) - {s} && s.Loose() && s.reason == RemovedService
      ensures listSerial == old(serial) + 1 && s.serial == serial == old(serial) + 2
    {
      DelManager(s);
      label out:
      Renumber(s);
      OnwardIsTransitive(old(v), old@out(v), v);
    }

    /** The service is in another manager. */
    method DetachElsewhere(s: Service, m: Manager)
      requires Ready() && m != this && s.mgr == m && s.Managed() && m.Ready() && !m.v.st[s.id].enabled && s !in crew
      modifies m, s`mgr, s`reason, s`stamp, s`attempts
      ensures Ready() && s.Loose() && s.reason == RemovedService
      ensures m.Ready() && m.services == old(m.services) - {s.id} && s !in m.crew
    {
      m.DelManager(s);
    }

    method DeleteElsewhere(s: Service, m: Manager)
      requires Ready() && m != this && s.mgr == m && s.Managed() && m.Ready() && !m.v.st[s.id].enabled && s !in crew
      modifies m, `listSerial, `serial, `v, s`mgr, s`reason, s`stamp, s`serial, s`attempts
      ensures Ready() && Quiet(old(v), v) && v.tags == old(v).tags
      ensures s.Loose() && s.reason == RemovedService && m.Ready() && m.services == old(m.services) - {s.id}
      ensures listSerial == old(serial) + 1 && s.serial == serial == old(serial) + 2
    {
      DetachElsewhere(s, m);
      Renumber(s);
    }

    /** The service is not in this manager. */
    method DeleteStranger(s: Service)
      requires Ready() && Deletable(s) && s.mgr != this && !s.enabled
      modifies s.mgr, `listSerial, `serial, `v, s`mgr, s`reason, s`stamp, s`serial, s`attempts
      ensures Ready() && Quiet(old(v), v) && v.tags == old(v).tags && s.Loose()
      ensures services == old(services) && crew == old(crew)
      ensures listSerial == old(serial) + 1 && s.serial == serial == old(serial) + 2
      ensures old(s.mgr) != null ==>
                s.reason == RemovedService && old(s.mgr).Ready() && old(s.mgr).services == old(s.mgr.services) - {s.id}
    {
      if s.mgr == null {
        Renumber(s);
      } else {
        assert s.mgr.Mirrors(s.id);
        DeleteElsewhere(s, s.mgr);
      }
    }

    method DeleteService(s: Service) returns (r: Error)
      requires Ready() && Deletable(s)
      modifies `services, `crew, `links, `listSerial, `serial, `v, s.mgr
      modifies s`mgr, s`reason, s`stamp, s`serial, s`attempts
      ensures Ready() && Onward(old(v), v)
      ensures r == if old(s.enabled) then IsEnabled else NoError
      ensures r == IsEnabled ==> unchanged(this) && unchanged(s)
      ensures r == NoError ==> s.Loose() && (old(s.mgr) != null ==> s.reason == RemovedService)
      ensures r == NoError ==> listSerial == old(serial) + 1 && s.serial == serial == old(serial) + 2
      ensures r == NoError && old(s.mgr) == this ==>
                services == old(services) - {s.id} && crew == old(crew) - {s} && OthersKept(old(v), v, s.id)
      ensures r == NoError && old(s.mgr) == this ==> v.attrs == old(v).attrs - {s.id}
      ensures r == NoError && old(s.mgr) != this ==>
                services == old(services) && crew == old(crew) && Quiet(old(v), v) && v.tags == old(v).tags
      ensures r == NoError && old(s.mgr) != null && old(s.mgr) != this ==>
                old(s.mgr).Ready() && old(s.mgr).services == old(s.mgr.services) - {s.id}
    {
      if s.enabled {
        NewerIsReflexive(v);
        return IsEnabled;
      }
      if s.mgr == this {
        assert Mirrors(s.id);
        DeleteHere(s);
      } else {
        DeleteStranger(s);
      }
      return NoError;
    }

    // ---------------------------------------------------------------- Shutdown

    /** One round of the loop of `Shutdown`. */
    method ShutOne(s: Service)
      requires Ready() && s.Managed() && s.mgr == this
      modifies `services, `crew, `links, `serial, `v, crew
      ensures Ready() && services == old(services) - {s.id} && crew == old(crew) - {s} && s.Loose()
      ensures old(v).trace <= v.trace && old(v).serial <= v.serial
    {
      assert Mirrors(s.id);
      s.ShutManaged();
      DelManager(s);
    }

    /** Of the services there were at the start, those no longer listed are down and out of reach. */
    ghost predicate Half(all: map<Id, Service>)
      reads this, set i | i in all :: all[i]
    {
      forall i {:trigger all[i]} | i in all ::
        if i in services then services[i] == all[i] else all[i].Loose() && all[i] !in crew
    }

    method ShutNext(i: Id, ghost all: map<Id, Service>)
      requires Ready() && i in services && Half(all)
      modifies `services, `crew, `links, `serial, `v, crew
      ensures Ready() && services.Keys == old(services.Keys) - {i} && crew <= old(crew) && Half(all)
      ensures old(v).trace <= v.trace && old(v).serial <= v.serial
    {
      assert Mirrors(i);
      ShutOne(services[i]);
    }

    method ShutAll()
      requires Ready()
      modifies `services, `crew, `links, `serial, `v, crew
      ensures Ready() && services.Keys == {} && Onward(old(v), v)
      ensures forall i {:trigger old(services)[i]} | i in old(services) :: old(services)[i].Loose()
    {
      ghost var all, v0 := services, v;
      var todo := services.Keys;
      while todo != {}
        invariant Ready() && todo == services.Keys && crew <= old(crew) && Half(all)
        invariant v0.trace <= v.trace && v0.serial <= v.serial
      {
        var i := Next(todo);
        ShutNext(i, all);
        todo := todo - {i};
      }
      NobodyIsOnward(v0, v);
    }

    method Shutdown()
      requires Ready()
      modifies this, crew
      ensures Ready() && services.Keys == {} && !monitoring && Onward(old(v), v)
      ensures forall i {:trigger old(services)[i]} | i in old(services) :: old(services)[i].Loose()
    {
      StopMonitoring();
      ShutAll();
    }

    // ---------------------------------------------------------------- monitoring

    method TickNext(i: Id, ghost v0: SoundView, ghost visits: seq<Visit>) returns (ghost visits': seq<Visit>)
      requires Ready() && i in services && Ticked(v0, visits, v)
      modifies `serial, `v, crew
      ensures Ready() && Ticked(v0, visits', v) && Visited(visits') == Visited(visits) + {i}
    {
      assert Mirrors(i);
      ghost var visit := services[i].CheckAndHeal();
      OnwardIsTransitive(v0, visit.before, v);
      OneMoreVisit(v0, visits, visit);
      visits' := visits + [visit];
    }

    method TickAll() returns (ghost visits: seq<Visit>)
      requires Ready()
      modifies `serial, `v, crew
      ensures Ready() && Ticked(old(v), visits, v) && Visited(visits) == services.Keys
    {
      ghost var v0, done := v, {};
      NoVisits(v0);
      visits := [];
      var todo := services.Keys;
      while todo != {}
        invariant Splits(services.Keys, done, todo) && Visited(visits) == done
        invariant Ready() && Ticked(v0, visits, v)
      {
        var i := Next(todo);
        MoveOver(services.Keys, done, todo, i);
        visits := TickNext(i, v0, visits);
        todo, done := todo - {i}, done + {i};
      }
      AllDone(services.Keys, done);
    }

    /** One round of `monitor`: every enabled service is checked, and healed if that is called for. */
    method Tick() returns (ghost visits: seq<Visit>)
      requires Ready()
      modifies `serial, `v, crew
      ensures Ready() && Ticked(old(v), visits, v)
      ensures Visited(visits) == if monitoring then services.Keys else {}
    {
      NoVisits(v);
      visits := [];
      if monitoring {
        visits := TickAll();
      }
    }

    /** A service reports a failure of its own accord, but not in the middle of a check. */
    method Notify(s: Service) returns (ghost visits: seq<Visit>)
      requires Ready() && s.Managed() && s.mgr == this
      modifies `serial, `v, crew
      ensures Ready() && Ticked(old(v), visits, v)
      ensures Visited(visits) == if old(s.checking) then {} else {s.id}
    {
      NoVisits(v);
      visits := [];
      if s.checking {
        return;
      }
      visits := TickNext(s.id, v, []);
    }

    method StopMonitoring()
      requires Ready()
      modifies `monitoring
      ensures Ready() && !monitoring
    {
      monitoring := false;
    }

    method StartMonitoring()
      requires Ready()
      modifies `monitoring
      ensures Ready() && monitoring
    {
      monitoring := true;
    }
  }
}
