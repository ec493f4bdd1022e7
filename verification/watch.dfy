/** Waiting for a serial to change: the manager's lock, the operations that hold it while they
    give out serials, the watchers and their timers, as steps that may interleave in any way. */
module Watching {

  /** One call of `watchSerial`: it waits for the serial in slot `src` to differ from `was`. */
  datatype Watch = Watch(src: int, was: int, stage: Stage, expired: bool, timer: bool)

  datatype Stage =
    | Wanting                  // about to take the lock, for the first time or after being woken
    | Looking                  // holds the lock, at the top of its loop
    | Asleep(signalled: bool)  // in cv.Wait(), the lock given back
    | Done(rv: int)

  /** Who holds the lock. */
  datatype Holder = Free | Op(phase: Phase) | Watcher(w: int) | Timer(w: int, fired: bool)

  /** How far a locked operation is: it has given out no serial yet; it has raised the serial and
      is going through the condition variables; or bumpSerial has returned. */
  datatype Phase = Fresh | Waking(todo: set<int>) | Bumped

  /** Slot 0 of `vals` is the serial of the manager; the others are those of the list and of the
      services. `cvs` are the watchers whose condition variable is registered. */
  datatype State = State(holder: Holder, vals: map<int, int>, cvs: set<int>, watches: map<int, Watch>)

  datatype Action =
    | OpLock | OpRaise | OpWake(w: int) | OpWoken | OpAssign(src: int) | OpUnlock
    | Call(w: int, src: int, was: int, wait: bool) | Lock(w: int) | Look(w: int) | Wake(w: int)
    | TimerLock(w: int) | TimerExpire(w: int) | TimerWake(w: int)

  ghost predicate At(s: State, w: int, stage: Stage) {
    w in s.watches && s.watches[w].stage == stage
  }

  /** When an action is possible. */
  ghost predicate Can(s: State, a: Action) {
    match a
    case OpLock => s.holder == Free
    case OpRaise => s.holder == Op(Fresh) || s.holder == Op(Bumped)
    case OpWake(w) => s.holder.Op? && s.holder.phase.Waking? && w in s.holder.phase.todo
    case OpWoken => s.holder == Op(Waking({}))
    case OpAssign(src) => s.holder == Op(Bumped) && src != 0
    case OpUnlock => s.holder == Op(Fresh) || s.holder == Op(Bumped)
    case Call(w, src, was, wait) => w !in s.watches && src in s.vals
    case Lock(w) => s.holder == Free && At(s, w, Wanting)
    case Look(w) => s.holder == Watcher(w) && At(s, w, Looking)
    case Wake(w) => At(s, w, Asleep(true))
    case TimerLock(w) => s.holder == Free && w in s.watches && s.watches[w].timer
    case TimerExpire(w) => s.holder == Timer(w, false) && w in s.watches
    case TimerWake(w) => s.holder == Timer(w, true) && w in s.watches
  }

  function Turn(s: State, w: int, stage: Stage): map<int, Watch>
    requires w in s.watches
  {
    s.watches[w := s.watches[w].(stage := stage)]
  }

  /** cv.Broadcast(): whoever sleeps on it is woken. */
  function Signal(s: State, w: int): map<int, Watch> {
    if w in s.watches && s.watches[w].stage.Asleep? then Turn(s, w, Asleep(true)) else s.watches
  }

  /** The state after an action. */
  ghost function After(s: State, a: Action): State
    requires Can(s, a) && 0 in s.vals
  {
    match a
    case OpLock => s.(holder := Op(Fresh))
    case OpRaise => s.(holder := Op(Waking(s.cvs)), vals := s.vals[0 := s.vals[0] + 1])
    case OpWake(w) => s.(holder := Op(Waking(s.holder.phase.todo - {w})), watches := Signal(s, w))
    case OpWoken => s.(holder := Op(Bumped))
    case OpAssign(src) => s.(vals := s.vals[src := s.vals[0]])
    case OpUnlock => s.(holder := Free)
    case Call(w, src, was, wait) => s.(watches := s.watches[w := Watch(src, was, Wanting, !wait, wait)])
    case Lock(w) => s.(holder := Watcher(w), cvs := s.cvs + {w}, watches := Turn(s, w, Looking))
    case Look(w) =>
      var x := s.watches[w];
      if x.src !in s.vals then s
      else if s.vals[x.src] != x.was || x.expired then
        s.(holder := Free, cvs := s.cvs - {w}, watches := Turn(s, w, Done(s.vals[x.src])))
      else s.(holder := Free, watches := Turn(s, w, Asleep(false)))
    case Wake(w) => s.(watches := Turn(s, w, Wanting))
    case TimerLock(w) => s.(holder := Timer(w, false), watches := s.watches[w := s.watches[w].(timer := false)])
    case TimerExpire(w) => s.(holder := Timer(w, true), watches := s.watches[w := s.watches[w].(expired := true)])
    case TimerWake(w) => s.(holder := Free, watches := Signal(s, w))
  }

  ghost predicate Initial(s: State) {
    s.holder == Free && 0 in s.vals && s.cvs == {} && s.watches == map[]
    && forall i {:trigger s.vals[i]} :: i in s.vals ==> s.vals[i] <= s.vals[0]
  }

  /** The states that some interleaving of n actions leads to. */
  ghost predicate Reaches(s0: State, run: seq<Action>, s: State) {
    if run == [] then s == s0
    else exists m: State {:trigger Reaches(s0, run[..|run| - 1], m)} ::
           Reaches(s0, run[..|run| - 1], m) && 0 in m.vals && Can(m, run[|run| - 1]) && s == After(m, run[|run| - 1])
  }

  // ---------------------------------------------------------------- the invariant

  /** The watcher's serial has not moved and its time is not up: it is right to sleep. */
  ghost predicate MaySleep(s: State, w: int)
    requires w in s.watches
  {
    var x := s.watches[w];
    x.src in s.vals && s.vals[x.src] == x.was && !x.expired
  }

  /** What is known of a watcher that sleeps and has not been signalled, by who holds the lock. */
  ghost predicate SleepsRightly(s: State, w: int)
    requires w in s.watches
  {
    match s.holder
    case Op(Waking(todo)) => w in todo
    case Op(Bumped) => false
    case Timer(u, true) => w == u || MaySleep(s, w)
    case _ => MaySleep(s, w)
  }

  ghost predicate Fine(s: State, w: int) {
    if w !in s.watches then s.holder != Watcher(w)
    else
      var x := s.watches[w];
      && x.src in s.vals
      && (x.stage.Asleep? || x.stage.Looking? ==> w in s.cvs)
      && (x.stage.Looking? <==> s.holder == Watcher(w))
      && (x.stage == Asleep(false) ==> SleepsRightly(s, w))
      && (x.stage.Done? ==> x.stage.rv != x.was || x.expired)
  }

  ghost predicate NotAhead(s: State, i: int) {
    i in s.vals && 0 in s.vals ==> s.vals[i] <= s.vals[0]
  }

  ghost predicate Inv(s: State) {
    && 0 in s.vals
    && (forall i {:trigger NotAhead(s, i)} :: NotAhead(s, i))
    && (forall w {:trigger Fine(s, w)} :: Fine(s, w))
  }

  lemma StepKeepsWatch(s: State, a: Action, w: int)
    requires Inv(s) && Can(s, a)
    ensures Fine(After(s, a), w)
  {
    assert Fine(s, w) && NotAhead(s, 0);
    if w in s.watches {
      assert NotAhead(s, s.watches[w].src);
    }
  }

  lemma StepKeepsInv(s: State, a: Action)
    requires Inv(s) && Can(s, a)
    ensures Inv(After(s, a))
  {
    var s' := After(s, a);
    forall w ensures Fine(s', w) {
      StepKeepsWatch(s, a, w);
    }
    forall i ensures NotAhead(s', i) {
      assert NotAhead(s, i);
    }
  }

  lemma {:induction false} ReachedIsFine(s0: State, run: seq<Action>, s: State)
    requires Initial(s0) && Reaches(s0, run, s)
    ensures Inv(s)
  {
    if run == [] {
      forall i ensures NotAhead(s, i) {
        assert i in s.vals ==> s.vals[i] <= s.vals[0];
      }
    } else {
      var m: State :| Reaches(s0, run[..|run| - 1], m) && 0 in m.vals && Can(m, run[|run| - 1]) &&
          s == After(m, run[|run| - 1]);
      ReachedIsFine(s0, run[..|run| - 1], m);
      StepKeepsInv(m, run[|run| - 1]);
    }
  }

  // ---------------------------------------------------------------- what it is for

  /** No lost wakeup. In every interleaving, whenever the lock is free, a watcher that sleeps
      unsignalled watches a serial that still has the old value, and its time is not up: this
      although serials are assigned after the broadcast. */
  lemma {:induction false} NoLostWakeup(s0: State, run: seq<Action>, s: State, w: int)
    requires Initial(s0) && Reaches(s0, run, s) && s.holder == Free && At(s, w, Asleep(false))
    ensures s.watches[w].src in s.vals && s.vals[s.watches[w].src] == s.watches[w].was && !s.watches[w].expired
  {
    ReachedIsFine(s0, run, s);
    assert Fine(s, w);
  }

  /** A watch that returns the old value has expired. */
  lemma {:induction false} OldValueMeansTimeUp(s0: State, run: seq<Action>, s: State, w: int, rv: int)
    requires Initial(s0) && Reaches(s0, run, s) && At(s, w, Done(rv)) && rv == s.watches[w].was
    ensures s.watches[w].expired
  {
    ReachedIsFine(s0, run, s);
    assert Fine(s, w);
  }

  /** Serials only grow, so a watcher never takes one value for another. */
  lemma SerialsOnlyGrow(s: State, a: Action, i: int)
    requires Inv(s) && Can(s, a) && i in s.vals
    ensures i in After(s, a).vals && s.vals[i] <= After(s, a).vals[i]
  {
    assert NotAhead(s, i);
  }

  /** The state in which a watcher's call has returned with the current value. */
  ghost function Returned(s: State, w: int): State
    requires w in s.watches && s.watches[w].src in s.vals
  {
    s.(holder := Free, cvs := s.cvs - {w}, watches := Turn(s, w, Done(s.vals[s.watches[w].src])))
  }

  /** The sleeper has something to report: its serial has moved or its time is up. */
  ghost predicate Due(s: State, w: int) {
    && s.holder == Free && w in s.watches && s.watches[w].stage.Asleep? && s.watches[w].src in s.vals
    && !MaySleep(s, w)
  }

  lemma WakesAndLocks(s: State, w: int)
    requires Inv(s) && Due(s, w)
    ensures Can(s, Wake(w)) && Can(After(s, Wake(w)), Lock(w))
    ensures After(After(s, Wake(w)), Lock(w)) ==
        s.(holder := Watcher(w), cvs := s.cvs + {w}, watches := Turn(s, w, Looking))
  {
    assert Fine(s, w);
  }

  lemma LooksAndReturns(s: State, w: int)
    requires Inv(s) && Due(s, w)
    ensures var s2 := s.(holder := Watcher(w), cvs := s.cvs + {w}, watches := Turn(s, w, Looking));
            Can(s2, Look(w)) && After(s2, Look(w)) == Returned(s, w)
  {
    assert s.cvs + {w} - {w} == s.cvs - {w};
  }

  /** Nothing keeps a watcher that has something to report: with the lock free, its own three
      steps take it from its sleep to the return of the current serial. */
  lemma {:induction false} SleeperCanReturn(s0: State, run: seq<Action>, s: State, w: int)
    requires Initial(s0) && Reaches(s0, run, s) && Due(s, w)
    ensures Reaches(s0, run + [Wake(w), Lock(w), Look(w)], Returned(s, w))
  {
    ReachedIsFine(s0, run, s);
    WakesAndLocks(s, w);
    LooksAndReturns(s, w);
    var s1 := After(s, Wake(w));
    OneMore(s0, run, s, Wake(w));
    OneMore(s0, run + [Wake(w)], s1, Lock(w));
    OneMore(s0, run + [Wake(w)] + [Lock(w)], After(s1, Lock(w)), Look(w));
    assert run + [Wake(w)] + [Lock(w)] + [Look(w)] == run + [Wake(w), Lock(w), Look(w)];
  }

  lemma OneMore(s0: State, run: seq<Action>, m: State, a: Action)
    requires Reaches(s0, run, m) && 0 in m.vals && Can(m, a)
    ensures Reaches(s0, run + [a], After(m, a))
  {
    assert (run + [a])[..|run|] == run;
  }
}
