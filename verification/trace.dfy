/** The history of a manager as its providers see it: every call made of them with its answer, every
    refusal by a limiter, every fault found and pardoned, and every change of the limits and of the
    dependency links between them. */
module Traces {
  import opened Linkage
  import opened RateLimits

  /** What is on record of one service: whether it is marked failed, whether the limiter's latest word
      was no, its limit and period, and when its provider has been asked to start since the count
      began. */
  datatype Past = Past(failed: bool, refused: bool, rate: nat, period: int, times: seq<int>)

  const NOTHING := Past(false, false, 0, 0, [])

  datatype Event =
    | Joined(s: Id, parents: map<Id, map<string, set<Id>>>, brought: Past)
    | Left(s: Id, parents: map<Id, map<string, set<Id>>>)
    | Start(s: Id, at: int, live: set<Id>, ok: bool) // the provider is asked to start, and answers
    | Refused(s: Id, at: int)                        // the limiter keeps the provider from being asked
    | Fault(s: Id)                                   // a check has found the provider at fault
    | Stop(s: Id, stack: seq<Id>, live: set<Id>)
    | Pardon(s: Id)                                  // the mark of a fault is taken away
    | Recount(s: Id)                                 // attempts are counted from nothing again
    | Relimit(s: Id, rate: nat, period: int)         // and so they are under a new limit or period

  // `live` are the services that can satisfy a dependency, and for Stop `stack` the stops still in
  // progress around this one, outermost first.

  /** The services started and not yet stopped. */
  ghost function Up(tr: seq<Event>): set<Id> {
    if tr == [] then {} else
    var up := Up(tr[..|tr| - 1]);
    match tr[|tr| - 1]
    case Start(s, _, _, ok) => if ok then up + {s} else up
    case Stop(s, _, _) => up - {s}
    case _ => up
  }

  /** The dependency links in force. */
  ghost function Parents(tr: seq<Event>): map<Id, map<string, set<Id>>> {
    if tr == [] then map[]
    else if tr[|tr| - 1].Joined? || tr[|tr| - 1].Left? then tr[|tr| - 1].parents
    else Parents(tr[..|tr| - 1])
  }

  // ---------------------------------------------------------------- what is on record of one service

  ghost function Then(p: Past, e: Event): Past {
    match e
    case Joined(_, _, brought) => brought.(refused := false)
    case Left(_, _) => NOTHING
    case Start(_, at, _, ok) => p.(failed := !ok, refused := false, times := p.times + [at])
    case Refused(_, _) => p.(refused := true)
    case Fault(_) => p.(failed := true)
    case Stop(_, _, _) => p
    case Pardon(_) => p.(failed := false)
    case Recount(_) => p.(refused := false, times := [])
    case Relimit(_, rate, period) => p.(rate := rate, period := period, times := [])
  }

  ghost function Recall(tr: seq<Event>, s: Id): Past {
    if tr == [] then NOTHING else
    var p := Recall(tr[..|tr| - 1], s);
    if tr[|tr| - 1].s == s then Then(p, tr[|tr| - 1]) else p
  }

  ghost predicate FailsToStart(e: Event, s: Id) {
    e.Start? && e.s == s && !e.ok
  }

  // ---------------------------------------------------------------- which events are safe

  /** Each element of the stack depends on the one before it. */
  ghost predicate Chain(parents: map<Id, map<string, set<Id>>>, stack: seq<Id>) {
    forall i {:trigger stack[i]} :: 0 < i < |stack| ==> DependsOn(parents, stack[i], stack[i - 1])
  }

  /** t depends on one of the services whose stop is in progress: its own turn is still to come. */
  ghost predicate Awaits(parents: map<Id, map<string, set<Id>>>, stack: seq<Id>, t: Id) {
    exists i {:trigger stack[i]} :: 0 <= i < |stack| && DependsOn(parents, t, stack[i])
  }

  /** What the supervisor guarantees of one event, given the links and the services that are up.
      It holds on cyclic graphs too. */
  ghost predicate SafeEvent(parents: map<Id, map<string, set<Id>>>, up: set<Id>, e: Event) {
    match e
    case Joined(s, parents', _) => s !in up && Relinks(parents, parents', up)
    case Left(s, parents') => s !in up && Relinks(parents, parents', up)
    case Start(s, _, live, _) => s !in up && live <= up && Backed(parents, live, s)
    case Refused(s, _) => s !in up && Backed(parents, up, s)
    case Fault(s) => s in up
    case Stop(s, stack, live) => SafeStop(parents, up, s, stack, live)
    case Pardon(_) => true
    case Recount(_) => true
    case Relimit(_, _, _) => true
  }

  /** No service that is up loses its providers by a change of links. */
  ghost predicate Relinks(
    parents: map<Id, map<string, set<Id>>>, parents': map<Id, map<string, set<Id>>>, up: set<Id>)
  {
    forall t {:trigger Backed(parents', up, t)} :: t in up && Backed(parents, up, t) ==> Backed(parents', up, t)
  }

  /** A stop takes the last provider from nobody but the services already being stopped. Whoever
      depends on the stopped service keeps providers that are live; and so does everybody else but
      those that wait for their own stop. */
  ghost predicate SafeStop(parents: map<Id, map<string, set<Id>>>, up: set<Id>, s: Id, stack: seq<Id>, live: set<Id>) {
    && s in up
    && Chain(parents, stack + [s])
    && live <= up && s !in live && (forall i {:trigger stack[i]} :: 0 <= i < |stack| ==> stack[i] !in live)
    && (forall t {:trigger Backed(parents, up - {s}, t)} ::
          t in up && t != s && t !in stack && Backed(parents, up, t) ==> Backed(parents, up - {s}, t))
    && (forall t {:trigger Backed(parents, live, t)} ::
          t in up && t != s && t !in stack && (DependsOn(parents, t, s) || !Awaits(parents, stack, t)) ==>
            Backed(parents, live, t))
  }

  ghost predicate NoneFailed(tr: seq<Event>, live: set<Id>) {
    forall d {:trigger Recall(tr, d)} :: d in live ==> !Recall(tr, d).failed
  }

  /** What the supervisor guarantees of one event, given what went before: providers are asked to start
      when the limiter's rule allows it and refused when it does not, and nobody who counts as live
      is marked failed. */
  ghost predicate ByRule(tr: seq<Event>, e: Event) {
    var past := Recall(tr, e.s);
    match e
    case Start(_, at, live, _) =>
      && AllBy(past.rate, past.times, at) && !TooSoon(past.rate, past.period, past.times, at)
      && NoneFailed(tr, live)
    case Refused(_, at) => TooSoon(past.rate, past.period, past.times, at)
    case Stop(_, _, live) => NoneFailed(tr, live)
    case _ => true
  }

  ghost predicate SafeTrace(tr: seq<Event>) {
    tr != [] ==>
      var before := tr[..|tr| - 1];
      && SafeTrace(before) && SafeEvent(Parents(before), Up(before), tr[|tr| - 1])
      && ByRule(before, tr[|tr| - 1])
  }

  lemma OneMoreEvent(tr: seq<Event>, e: Event, t: Id)
    ensures Recall(tr + [e], t) == if e.s == t then Then(Recall(tr, t), e) else Recall(tr, t)
    ensures Up(tr + [e]) == if e.Start? && e.ok then Up(tr) + {e.s} else if e.Stop? then Up(tr) - {e.s} else Up(tr)
    ensures Parents(tr + [e]) == if e.Joined? || e.Left? then e.parents else Parents(tr)
    ensures SafeTrace(tr + [e]) <==> SafeTrace(tr) && SafeEvent(Parents(tr), Up(tr), e) && ByRule(tr, e)
  {
    assert (tr + [e])[..|tr|] == tr;
  }

  // ---------------------------------------------------------------- which events an operation adds

  datatype Kind = Membership | Starting | Stopping | Faulting | Pardoning | Limiting

  function KindOf(e: Event): Kind {
    match e
    case Joined(_, _, _) => Membership
    case Left(_, _) => Membership
    case Start(_, _, _, _) => Starting
    case Refused(_, _) => Starting
    case Fault(_) => Faulting
    case Stop(_, _, _) => Stopping
    case Pardon(_) => Pardoning
    case Recount(_) => Pardoning
    case Relimit(_, _, _) => Limiting
  }

  ghost predicate IsOf(e: Event, kinds: set<Kind>, s: Id) {
    KindOf(e) in kinds && (KindOf(e) in {Faulting, Pardoning} ==> e.s == s)
  }

  /** Everything since is of these kinds; a fault or a pardon is one of s. */
  ghost predicate Adds(tr: seq<Event>, tr': seq<Event>, kinds: set<Kind>, s: Id) {
    tr <= tr' && forall k {:trigger tr'[k]} :: |tr| <= k < |tr'| ==> IsOf(tr'[k], kinds, s)
  }

  /** Everything since is of these kinds, whomever it concerns. */
  ghost predicate OnlyKinds(tr: seq<Event>, tr': seq<Event>, kinds: set<Kind>) {
    tr <= tr' && forall k {:trigger tr'[k]} :: |tr| <= k < |tr'| ==> KindOf(tr'[k]) in kinds
  }

  lemma AddsOnlyKinds(tr: seq<Event>, tr': seq<Event>, kinds: set<Kind>, s: Id)
    requires Adds(tr, tr', kinds, s)
    ensures OnlyKinds(tr, tr', kinds)
  {
    forall k | |tr| <= k < |tr'| ensures KindOf(tr'[k]) in kinds {
      assert IsOf(tr'[k], kinds, s);
    }
  }

  lemma OnlyKindsOn(tr0: seq<Event>, tr1: seq<Event>, tr2: seq<Event>, kinds: set<Kind>)
    requires OnlyKinds(tr0, tr1, kinds) && OnlyKinds(tr1, tr2, kinds)
    ensures OnlyKinds(tr0, tr2, kinds)
  {
    forall k | |tr0| <= k < |tr2| ensures KindOf(tr2[k]) in kinds {
      assert k < |tr1| ==> tr1[k] == tr2[k];
    }
  }

  /** A child's share of a recursion: what it adds concerns no fault or pardon. */
  lemma AddsOn(tr0: seq<Event>, tr1: seq<Event>, tr2: seq<Event>, kinds: set<Kind>, more: set<Kind>, s: Id, c: Id)
    requires Adds(tr0, tr1, kinds, s) && Adds(tr1, tr2, more, c) && more <= kinds
    requires s == c || more !! {Faulting, Pardoning}
    ensures Adds(tr0, tr2, kinds, s)
  {
    forall k | |tr0| <= k < |tr2| ensures IsOf(tr2[k], kinds, s) {
      if k < |tr1| {
        assert tr1[k] == tr2[k];
      }
    }
  }

  lemma AddsOne(tr: seq<Event>, e: Event, kinds: set<Kind>, s: Id)
    requires IsOf(e, kinds, s)
    ensures Adds(tr, tr + [e], kinds, s)
  {
  }

  lemma AddsMore(tr: seq<Event>, tr': seq<Event>, kinds: set<Kind>, more: set<Kind>, s: Id)
    requires Adds(tr, tr', kinds, s) && kinds <= more
    ensures Adds(tr, tr', more, s)
  {
    forall k | |tr| <= k < |tr'| ensures IsOf(tr'[k], more, s) {
      assert IsOf(tr'[k], kinds, s);
    }
  }
}
