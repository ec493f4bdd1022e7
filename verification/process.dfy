/** One operating system process under a service: the provider's Start and Stop, called under the
    manager's lock, and the goroutine that waits for the process, as steps that interleave. */
module Processes {
  import opened Linkage
  import opened Traces
  import opened Supervision

  datatype Pid = Nil | Pid(n: int)

  /** What a `doWait` goroutine has got to: its process is alive; it has exited, and cmd.Wait() has
      returned; the fields are updated and only waiter.Done() is left. */
  datatype Stage = Alive | Exited(err: bool) | Cleared

  /** `stopping` is set while a Stop is in waiter.Wait(), with the lock given back. */
  datatype Proc = Proc(
    process: Pid, stopped: bool, failed: bool, failOnExit: bool, waiter: int, stopping: bool,
    goroutines: map<int, Stage>)

  datatype Action =
    | StartCall(pid: int, ok: bool) | StopCall | StopReturn
    | Exit(pid: int, err: bool) | Clear(pid: int) | Finish(pid: int)

  ghost predicate At(p: Proc, pid: int, stage: Stage) {
    pid in p.goroutines && p.goroutines[pid] == stage
  }

  /** When an action is possible. A process may exit at any time, with or without an error: of its
      own accord, because of a signal, or killed by the timer of a Stop. */
  ghost predicate Can(p: Proc, a: Action) {
    match a
    case StartCall(pid, ok) => !p.stopping && pid !in p.goroutines
    case StopCall => !p.stopping
    case StopReturn => p.stopping && p.waiter == 0
    case Exit(pid, err) => At(p, pid, Alive)
    case Clear(pid) => At(p, pid, Exited(true)) || At(p, pid, Exited(false))
    case Finish(pid) => At(p, pid, Cleared)
  }

  ghost function After(p: Proc, a: Action): Proc
    requires Can(p, a)
  {
    match a
    case StartCall(pid, ok) =>
      if ok then p.(stopped := false, failed := false, process := Pid(pid), waiter := p.waiter + 1,
                    goroutines := p.goroutines[pid := Alive])
      else p.(stopped := false, failed := true)
    case StopCall => if p.process == Nil then p.(stopped := true) else p.(stopped := true, stopping := true)
    case StopReturn => p.(process := Nil, stopping := false)
    case Exit(pid, err) => p.(goroutines := p.goroutines[pid := Exited(err)])
    case Clear(pid) =>
      var fault := !p.stopped && (p.goroutines[pid].err || p.failOnExit);
      p.(process := Nil, failed := p.failed || fault, goroutines := p.goroutines[pid := Cleared])
    case Finish(pid) => p.(waiter := p.waiter - 1, goroutines := p.goroutines - {pid})
  }

  ghost predicate Initial(p: Proc) {
    p.process == Nil && p.waiter == 0 && !p.stopping && p.goroutines == map[]
  }

  ghost predicate Reaches(p0: Proc, run: seq<Action>, p: Proc) {
    if run == [] then p == p0
    else exists m: Proc {:trigger Reaches(p0, run[..|run| - 1], m)} ::
           Reaches(p0, run[..|run| - 1], m) && Can(m, run[|run| - 1]) && p == After(m, run[|run| - 1])
  }

  // ---------------------------------------------------------------- the caller

  datatype Call = StartCalled(ok: bool) | StopCalled

  /** Whether the last call that succeeded was a Start. */
  ghost predicate UpAfter(calls: seq<Call>) {
    calls != [] &&
      match calls[|calls| - 1]
      case StartCalled(ok) => ok || UpAfter(calls[..|calls| - 1])
      case StopCalled => false
  }

  /** Start is called only when the provider is down, Stop only when it is up. */
  ghost predicate Orderly(calls: seq<Call>) {
    calls != [] ==>
      var before := calls[..|calls| - 1];
      Orderly(before) && (calls[|calls| - 1].StartCalled? <==> !UpAfter(before))
  }

  ghost function CallsIn(run: seq<Action>): seq<Call> {
    if run == [] then [] else
    var before := CallsIn(run[..|run| - 1]);
    match run[|run| - 1]
    case StartCall(_, ok) => before + [StartCalled(ok)]
    case StopCall => before + [StopCalled]
    case _ => before
  }

  /** The calls the supervisor makes of the provider of s. */
  ghost function CallsTo(tr: seq<Event>, s: Id): seq<Call> {
    if tr == [] then [] else
    var before := CallsTo(tr[..|tr| - 1], s);
    match tr[|tr| - 1]
    case Start(t, _, _, ok) => if t == s then before + [StartCalled(ok)] else before
    case Stop(t, _, _) => if t == s then before + [StopCalled] else before
    case _ => before
  }

  lemma OneMoreCall(calls: seq<Call>, c: Call)
    ensures Orderly(calls + [c]) <==> Orderly(calls) && (c.StartCalled? <==> !UpAfter(calls))
    ensures UpAfter(calls + [c]) <==> if c.StartCalled? then c.ok || UpAfter(calls) else false
  {
    assert (calls + [c])[..|calls|] == calls;
  }

  lemma {:induction false} SupervisorIsOrderly(tr: seq<Event>, s: Id)
    requires SafeTrace(tr)
    ensures Orderly(CallsTo(tr, s))
    ensures UpAfter(CallsTo(tr, s)) <==> s in Up(tr)
  {
    if tr != [] {
      var before := CallsTo(tr[..|tr| - 1], s);
      SupervisorIsOrderly(tr[..|tr| - 1], s);
      match tr[|tr| - 1]
      case Start(_, _, _, ok) => OneMoreCall(before, StartCalled(ok));
      case Stop(_, _, _) => OneMoreCall(before, StopCalled);
      case _ =>
    }
  }

  // ---------------------------------------------------------------- the invariant

  /** The goroutine of pid waits for the current process, or has done with its own. */
  ghost predicate InStep(p: Proc, pid: int) {
    (p.process == Pid(pid)) <==> (pid in p.goroutines && p.goroutines[pid] != Cleared)
  }

  /** `up` tells whether the caller has started the process and not yet called Stop. */
  ghost predicate Inv(p: Proc, up: bool) {
    && p.waiter == |p.goroutines|
    && (forall pid {:trigger InStep(p, pid)} :: InStep(p, pid))
    && (p.process != Nil ==> up || p.stopping)
    && (p.stopping ==> !up)
  }

  lemma StepKeepsInv(p: Proc, a: Action, up: bool)
    requires Inv(p, up) && Can(p, a)
    requires (a.StartCall? ==> !up) && (a.StopCall? ==> up)
    ensures Inv(After(p, a), if a.StartCall? then a.ok else if a.StopCall? then false else up)
  {
    var p' := After(p, a);
    if p.process != Nil {
      assert InStep(p, p.process.n);
    }
    forall pid ensures InStep(p', pid) {
      assert InStep(p, pid);
      if a.Clear? || a.Exit? || a.Finish? {
        assert InStep(p, a.pid);
      }
    }
    if a.Finish? {
      assert p.goroutines == p'.goroutines[a.pid := Cleared];
    }
  }

  lemma {:induction false} RunKeepsInv(p0: Proc, run: seq<Action>, p: Proc)
    requires Initial(p0) && Reaches(p0, run, p) && Orderly(CallsIn(run))
    ensures Inv(p, UpAfter(CallsIn(run)))
  {
    if run == [] {
      forall pid ensures InStep(p, pid) {}
    } else {
      var before, a := run[..|run| - 1], run[|run| - 1];
      var m: Proc :| Reaches(p0, before, m) && Can(m, a) && p == After(m, a);
      if a.StartCall? {
        OneMoreCall(CallsIn(before), StartCalled(a.ok));
      } else if a.StopCall? {
        OneMoreCall(CallsIn(before), StopCalled);
      }
      RunKeepsInv(p0, before, m);
      StepKeepsInv(m, a, UpAfter(CallsIn(before)));
    }
  }

  // ---------------------------------------------------------------- what it is for

  /** The operating system processes alive. */
  ghost function Living(p: Proc): set<int> {
    set pid | pid in p.goroutines && p.goroutines[pid] == Alive
  }

  /** At every step of every orderly run at most one process is alive. */
  lemma AtMostOneAlive(p0: Proc, run: seq<Action>, p: Proc)
    requires Initial(p0) && Reaches(p0, run, p) && Orderly(CallsIn(run))
    ensures forall i, j :: i in Living(p) && j in Living(p) ==> i == j
  {
    RunKeepsInv(p0, run, p);
    forall pid ensures pid in Living(p) ==> p.process == Pid(pid) {
      assert InStep(p, pid);
    }
  }

  /** Start finds no process of an earlier Start: the field is nil, and nothing is alive. */
  lemma StartFindsNone(p0: Proc, run: seq<Action>, p: Proc, pid: int, ok: bool)
    requires Initial(p0) && Reaches(p0, run, p) && Can(p, StartCall(pid, ok)) &&
        Orderly(CallsIn(run + [StartCall(pid, ok)]))
    ensures p.process == Nil && Living(p) == {}
  {
    assert (run + [StartCall(pid, ok)])[..|run|] == run;
    OneMoreCall(CallsIn(run), StartCalled(ok));
    RunKeepsInv(p0, run, p);
    forall i ensures i !in Living(p) {
      assert InStep(p, i);
    }
  }

  /** Once a Stop has returned, the process has exited. */
  lemma StoppedMeansExited(p0: Proc, run: seq<Action>, p: Proc)
    requires Initial(p0) && Reaches(p0, run, p) && Orderly(CallsIn(run))
    requires !UpAfter(CallsIn(run)) && !p.stopping
    ensures p.process == Nil && Living(p) == {}
  {
    RunKeepsInv(p0, run, p);
    forall i ensures i !in Living(p) {
      assert InStep(p, i);
    }
  }

  // ---------------------------------------------------------------- what Check reports

  /** What has become of a process: nothing yet; it has exited; and its goroutine has noticed. */
  datatype Fate = Unended | Ended(err: bool) | Noticed(err: bool)

  /** What has become of the process pid, started by the action at k. */
  ghost function FateOf(run: seq<Action>, k: nat, pid: int): Fate {
    if |run| <= k + 1 then Unended else
    var fate := FateOf(run[..|run| - 1], k, pid);
    match run[|run| - 1]
    case Exit(q, err) => if q == pid then Ended(err) else fate
    case Clear(q) => if q == pid && fate.Ended? then Noticed(fate.err) else fate
    case _ => fate
  }

  /** The process pid was started at k, and nothing has been called since. */
  ghost predicate LatestStart(run: seq<Action>, k: nat, pid: int) {
    && k < |run| && run[k] == StartCall(pid, true)
    && forall i {:trigger run[i]} :: k < i < |run| ==> !run[i].StartCall? && !run[i].StopCall?
  }

  ghost predicate Tells(p: Proc, pid: int, fate: Fate) {
    && !p.stopped && (p.process == Pid(pid) || p.process == Nil)
    && (match fate
        case Unended => At(p, pid, Alive)
        case Ended(err) => At(p, pid, Exited(err))
        case Noticed(_) => p.process == Nil && (pid in p.goroutines ==> p.goroutines[pid] == Cleared))
    && (p.failed <==> fate.Noticed? && (fate.err || p.failOnExit))
  }

  lemma StepTells(m: Proc, a: Action, pid: int, fate: Fate)
    requires Inv(m, true) && Can(m, a) && !a.StartCall? && !a.StopCall? && Tells(m, pid, fate)
    ensures Tells(After(m, a), pid,
                  if a == Exit(pid, true) then Ended(true) else if a == Exit(pid, false) then Ended(false)
                  else if a == Clear(pid) && fate.Ended? then Noticed(fate.err) else fate)
  {
    assert InStep(m, pid);
    if a.Clear? || a.Exit? || a.Finish? {
      assert InStep(m, a.pid);
    }
  }

  lemma {:induction false} RunTells(p0: Proc, run: seq<Action>, p: Proc, k: nat, pid: int)
    requires Initial(p0) && Reaches(p0, run, p) && Orderly(CallsIn(run)) && LatestStart(run, k, pid)
    ensures UpAfter(CallsIn(run)) && p.failOnExit == p0.failOnExit && Tells(p, pid, FateOf(run, k, pid))
  {
    var before, a := run[..|run| - 1], run[|run| - 1];
    var m: Proc :| Reaches(p0, before, m) && Can(m, a) && p == After(m, a);
    SameFailOnExit(p0, before, m);
    if k == |run| - 1 {
      OneMoreCall(CallsIn(before), StartCalled(true));
    } else {
      assert LatestStart(before, k, pid);
      RunTells(p0, before, m, k, pid);
      RunKeepsInv(p0, before, m);
      StepTells(m, a, pid, FateOf(before, k, pid));
    }
  }

  lemma {:induction false} SameFailOnExit(p0: Proc, run: seq<Action>, p: Proc)
    requires Reaches(p0, run, p)
    ensures p.failOnExit == p0.failOnExit
  {
    if run != [] {
      var before, a := run[..|run| - 1], run[|run| - 1];
      var m: Proc :| Reaches(p0, before, m) && Can(m, a) && p == After(m, a);
      SameFailOnExit(p0, before, m);
    }
  }

  /** The provider's Check reports a fault exactly if `failed` is set. For a process that has been
      started and not told to stop that is so exactly if it has ended and been noticed, and either
      ended with an error or was not meant to end at all. No earlier process has a part in it. */
  lemma CheckReports(p0: Proc, run: seq<Action>, p: Proc, k: nat, pid: int)
    requires Initial(p0) && Reaches(p0, run, p) && Orderly(CallsIn(run)) && LatestStart(run, k, pid)
    ensures p.failed <==> FateOf(run, k, pid) == Noticed(true) ||
                          (FateOf(run, k, pid) == Noticed(false) && p0.failOnExit)
  {
    RunTells(p0, run, p, k, pid);
  }

  /** All this holds of a process under a supervised service: whenever the calls made of it are
      those the supervisor has made, the process is in step with the running flag. */
  lemma UnderSupervision(v: SoundView, s: Id, p0: Proc, run: seq<Action>, p: Proc)
    requires s in v.st && Initial(p0) && Reaches(p0, run, p) && CallsIn(run) == CallsTo(v.trace, s)
    ensures forall i, j :: i in Living(p) && j in Living(p) ==> i == j
    ensures !v.st[s].running && !p.stopping ==> p.process == Nil && Living(p) == {}
  {
    Called(v);
    SupervisorIsOrderly(v.trace, s);
    assert s in Up(v.trace) <==> s in Running(v.st);
    AtMostOneAlive(p0, run, p);
    if !v.st[s].running && !p.stopping {
      StoppedMeansExited(p0, run, p);
    }
  }
}
