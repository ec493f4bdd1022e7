/** What a safe history says about the providers: theorems over every run of the supervisor. */
module History {
  import opened Linkage
  import opened RateLimits
  import opened Traces
  import opened Acyclicity

  // ---------------------------------------------------------------- one provider

  /** The successful calls of one provider, in order: true for Start, false for Stop. */
  ghost function Calls(tr: seq<Event>, s: Id): seq<bool> {
    if tr == [] then [] else
    var before := Calls(tr[..|tr| - 1], s);
    match tr[|tr| - 1]
    case Start(t, _, _, ok) => if t == s && ok then before + [true] else before
    case Stop(t, _, _) => if t == s then before + [false] else before
    case _ => before
  }

  /** Start, Stop, Start, Stop, ... */
  ghost predicate Alternates(calls: seq<bool>) {
    forall i {:trigger calls[i]} :: 0 <= i < |calls| ==> (calls[i] <==> i % 2 == 0)
  }

  /** Successful starts and stops of each provider strictly alternate, beginning with a start;
      and the provider is up exactly when a start came last. */
  lemma {:induction false} StartAndStopAlternate(tr: seq<Event>, s: Id)
    requires SafeTrace(tr)
    ensures Alternates(Calls(tr, s))
    ensures s in Up(tr) <==> |Calls(tr, s)| % 2 == 1
  {
    if tr != [] {
      StartAndStopAlternate(tr[..|tr| - 1], s);
    }
  }

  // ---------------------------------------------------------------- every call finds the dependencies up

  ghost predicate AllBacked(parents: map<Id, map<string, set<Id>>>, up: set<Id>) {
    forall t {:trigger Backed(parents, up, t)} :: t in up ==> Backed(parents, up, t)
  }

  /** Every graph the manager has had is acyclic. */
  ghost predicate NeverCyclic(tr: seq<Event>) {
    forall i {:trigger tr[i]} :: 0 <= i < |tr| && (tr[i].Joined? || tr[i].Left?) ==> Acyclic(tr[i].parents)
  }

  lemma {:induction false} NeverCyclicNow(tr: seq<Event>)
    requires NeverCyclic(tr)
    ensures Acyclic(Parents(tr))
  {
    if tr == [] {
      assert forall t :: t !in Parents(tr);
    } else if !tr[|tr| - 1].Joined? && !tr[|tr| - 1].Left? {
      NeverCyclicNow(tr[..|tr| - 1]);
    }
  }

  /** A chain of nested stops whose innermost service is one an outer service depends on
      closes a cycle. */
  lemma ClosedChain(parents: map<Id, map<string, set<Id>>>, stack: seq<Id>, s: Id, j: nat) returns (c: set<Id>)
    requires Chain(parents, stack + [s]) && j < |stack| && DependsOn(parents, stack[j], s)
    ensures Circular(parents, c) && stack[j] in c
  {
    var whole := stack + [s];
    c := set i | j <= i < |whole| :: whole[i];
    forall t | t in c ensures DependsWithin(parents, t, c) {
      var i :| j <= i < |whole| && whole[i] == t;
      if i == j {
        assert whole[|stack|] == s && s in c;
      } else {
        assert DependsOn(parents, whole[i], whole[i - 1]) && whole[i - 1] in c;
      }
    }
    assert whole[j] in c;
  }

  lemma NoWayBack(parents: map<Id, map<string, set<Id>>>, stack: seq<Id>, s: Id, j: nat)
    requires Acyclic(parents) && Chain(parents, stack + [s]) && j < |stack|
    ensures !DependsOn(parents, stack[j], s)
  {
    if DependsOn(parents, stack[j], s) {
      var c := ClosedChain(parents, stack, s, j);
      MembersAreManaged(parents, c);
      PeelMissesCycles(parents, {}, c);
    }
  }

  lemma BackedWithout(parents: map<Id, map<string, set<Id>>>, up: set<Id>, s: Id, t: Id)
    requires Backed(parents, up, t) && !DependsOn(parents, t, s)
    ensures Backed(parents, up - {s}, t)
  {
    forall k | k in parents[t] ensures HasProvider(parents, up - {s}, t, k) {
      assert HasProvider(parents, up, t, k);
    }
  }

  /** The services up once an event has happened. */
  ghost function UpAfter(up: set<Id>, e: Event): set<Id> {
    match e
    case Start(s, _, _, ok) => if ok then up + {s} else up
    case Stop(s, _, _) => up - {s}
    case _ => up
  }

  lemma OneEvent(parents: map<Id, map<string, set<Id>>>, up: set<Id>, e: Event)
    requires AllBacked(parents, up) && SafeEvent(parents, up, e) && Acyclic(parents)
    ensures AllBacked(if e.Joined? || e.Left? then e.parents else parents, UpAfter(up, e))
  {
    if e.Joined? || e.Left? {
      forall t | t in up ensures Backed(e.parents, up, t) {
        assert Backed(parents, up, t);
      }
    } else if e.Start? && e.ok {
      forall t | t in up + {e.s} ensures Backed(parents, up + {e.s}, t) {
        BackedGrows(parents, up, up + {e.s}, t);
      }
    } else if e.Stop? {
      OneStop(parents, up, e.s, e.stack, e.live);
    }
  }

  lemma OneStop(parents: map<Id, map<string, set<Id>>>, up: set<Id>, s: Id, stack: seq<Id>, live: set<Id>)
    requires AllBacked(parents, up) && SafeStop(parents, up, s, stack, live) && Acyclic(parents)
    ensures AllBacked(parents, up - {s})
  {
    forall t | t in up - {s} ensures Backed(parents, up - {s}, t) {
      assert Backed(parents, up, t);
      if t in stack {
        var j :| 0 <= j < |stack| && stack[j] == t;
        NoWayBack(parents, stack, s, j);
        BackedWithout(parents, up, s, t);
      }
    }
  }

  /** With acyclic dependencies, at every point of every history, also in the middle of an
      operation, each service that is up has a provider up for each of its dependency names. */
  lemma {:induction false} DependenciesAlwaysUp(tr: seq<Event>)
    requires SafeTrace(tr) && NeverCyclic(tr)
    ensures AllBacked(Parents(tr), Up(tr))
  {
    if tr != [] {
      var before := tr[..|tr| - 1];
      forall i | 0 <= i < |before| && (before[i].Joined? || before[i].Left?) ensures Acyclic(before[i].parents) {
        assert before[i] == tr[i];
      }
      DependenciesAlwaysUp(before);
      NeverCyclicNow(before);
      OneEvent(Parents(before), Up(before), tr[|tr| - 1]);
    }
  }

  lemma {:induction false} SafePrefix(tr: seq<Event>, n: nat)
    requires SafeTrace(tr) && n <= |tr|
    ensures SafeTrace(tr[..n])
    decreases |tr|
  {
    if n == |tr| {
      assert tr[..n] == tr;
    } else {
      SafePrefix(tr[..|tr| - 1], n);
      assert tr[..|tr| - 1][..n] == tr[..n];
    }
  }

  /** What holds when a provider is called. It is asked to start only when every dependency name of
      its service has a live provider, one that is up and not marked failed. It is told to stop only
      when every service that stays up still has a provider up for each of its own names. Whoever
      depends on the stopped service then has live ones, which are not being stopped either; and so
      does everybody but those in the middle of being stopped and those that wait for it. */
  ghost predicate SafeCall(tr: seq<Event>, e: Event) {
    var parents, up := Parents(tr), Up(tr);
    match e
    case Start(s, _, live, _) => s !in up && live <= up && NoneFailed(tr, live) && Backed(parents, live, s)
    case Stop(s, stack, live) =>
      && s in up && live <= up - {s} && NoneFailed(tr, live)
      && (forall i {:trigger stack[i]} :: 0 <= i < |stack| ==> stack[i] !in live)
      && (forall t :: t in up && t != s ==> Backed(parents, up - {s}, t))
      && (forall t :: t in up && t != s && DependsOn(parents, t, s) ==> Backed(parents, live, t))
      && (forall t ::
            t in up && t != s && t !in stack && !Awaits(parents, stack, t) ==> Backed(parents, live, t))
    case _ => true
  }

  lemma StopIsSafe(tr: seq<Event>, s: Id, stack: seq<Id>, live: set<Id>)
    requires SafeEvent(Parents(tr), Up(tr), Stop(s, stack, live)) && ByRule(tr, Stop(s, stack, live))
    requires AllBacked(Parents(tr), Up(tr)) && Acyclic(Parents(tr))
    ensures SafeCall(tr, Stop(s, stack, live))
  {
    OneStop(Parents(tr), Up(tr), s, stack, live);
    forall t | t in Up(tr) && t != s && DependsOn(Parents(tr), t, s) ensures Backed(Parents(tr), live, t) {
      if t in stack {
        var j :| 0 <= j < |stack| && stack[j] == t;
        NoWayBack(Parents(tr), stack, s, j);
      }
    }
  }

  /** With acyclic dependencies every call in every history is safe. */
  lemma EveryCallIsSafe(tr: seq<Event>, n: nat)
    requires SafeTrace(tr) && NeverCyclic(tr) && n < |tr|
    ensures SafeCall(tr[..n], tr[n])
  {
    SafePrefix(tr, n + 1);
    var before := tr[..n];
    assert tr[..n + 1][..n] == before;
    forall i | 0 <= i < |before| && (before[i].Joined? || before[i].Left?) ensures Acyclic(before[i].parents) {
      assert before[i] == tr[i];
    }
    DependenciesAlwaysUp(before);
    NeverCyclicNow(before);
    if tr[n].Stop? {
      StopIsSafe(before, tr[n].s, tr[n].stack, tr[n].live);
    }
  }

  /** A stop with no other in progress, as it ends every Disable, leaves everything that stays up
      with live providers, on cyclic graphs too. */
  lemma OutermostStop(tr: seq<Event>, n: nat)
    requires SafeTrace(tr) && n < |tr| && tr[n].Stop? && tr[n].stack == []
    ensures forall t :: t in Up(tr[..n]) - {tr[n].s} ==> Backed(Parents(tr[..n]), tr[n].live, t)
    ensures NoneFailed(tr[..n], tr[n].live)
  {
    SafePrefix(tr, n + 1);
    assert tr[..n + 1][..n] == tr[..n];
    assert forall t :: !Awaits(Parents(tr[..n]), [], t);
  }

  lemma FinalStop(tr: seq<Event>)
    requires SafeTrace(tr) && tr != [] && tr[|tr| - 1].Stop? && tr[|tr| - 1].stack == []
    ensures var n := |tr| - 1;
            && tr[n].live <= Up(tr) && NoneFailed(tr[..n], tr[n].live)
            && forall t :: t in Up(tr) ==> Backed(Parents(tr), tr[n].live, t)
  {
    OutermostStop(tr, |tr| - 1);
  }

  // ---------------------------------------------------------------- unfounded groups

  /** Every member of the group has some dependency name all of whose linked providers are
      in the group. */
  ghost predicate Unfounded(parents: map<Id, map<string, set<Id>>>, group: set<Id>) {
    forall t {:trigger t in group} :: t in group && t in parents ==>
      exists k :: k in parents[t] && parents[t][k] <= group
  }

  lemma MembersNeverBacked(parents: map<Id, map<string, set<Id>>>, up: set<Id>, group: set<Id>)
    requires Unfounded(parents, group) && up !! group
    ensures forall s :: s in group ==> !Backed(parents, up, s)
  {
    forall s | s in group ensures !Backed(parents, up, s) {
      if s in parents {
        var k :| k in parents[s] && parents[s][k] <= group;
        assert !HasProvider(parents, up, s, k);
      }
    }
  }

  /** A group that can only lean on itself never runs, cyclic or not, as long as the set of
      services stays the same. */
  lemma {:induction false} UnfoundedNeverRuns(tr: seq<Event>, n: nat, group: set<Id>)
    requires SafeTrace(tr) && n <= |tr|
    requires forall i {:trigger tr[i]} :: n <= i < |tr| ==> KindOf(tr[i]) != Membership
    requires Unfounded(Parents(tr[..n]), group) && Up(tr[..n]) !! group
    ensures Up(tr) !! group
    ensures Parents(tr) == Parents(tr[..n])
    decreases |tr|
  {
    if n == |tr| {
      assert tr[..n] == tr;
    } else {
      var before := tr[..|tr| - 1];
      assert before[..n] == tr[..n];
      UnfoundedNeverRuns(before, n, group);
      MembersNeverBacked(Parents(before), Up(before), group);
    }
  }

  // ---------------------------------------------------------------- marks and what accounts for them

  /** What puts the mark of a failure on s. */
  ghost predicate Blames(e: Event, s: Id) {
    FailsToStart(e, s) || e == Fault(s) || (e.Joined? && e.s == s && e.brought.failed)
  }

  /** What takes it away. */
  ghost predicate Excuses(e: Event, s: Id) {
    (e.Start? && e.s == s && e.ok) || e == Pardon(s) || (KindOf(e) == Membership && e.s == s && !Blames(e, s))
  }

  /** At k s has failed to start, been found at fault, or been added with the mark of a failure; and
      since then it has neither started nor been pardoned. */
  ghost predicate BlamedSince(tr: seq<Event>, s: Id, k: nat) {
    k < |tr| && Blames(tr[k], s) && forall j {:trigger tr[j]} :: k < j < |tr| ==> !Excuses(tr[j], s)
  }

  /** At k the limiter has refused s, as its rule required; and since then s has neither been asked to
      start nor been forgiven. */
  ghost predicate RefusedSince(tr: seq<Event>, s: Id, k: nat) {
    && k < |tr| && tr[k].Refused? && tr[k].s == s
    && (var past := Recall(tr[..k], s); TooSoon(past.rate, past.period, past.times, tr[k].at))
    && forall j {:trigger tr[j]} :: k < j < |tr| && tr[j].s == s ==>
         !tr[j].Start? && KindOf(tr[j]) != Membership && !tr[j].Recount?
  }

  /** Every mark of a failure has a cause on record. */
  lemma {:induction false} FailedForCause(tr: seq<Event>, s: Id) returns (k: nat)
    requires Recall(tr, s).failed
    ensures BlamedSince(tr, s, k)
  {
    var before, last := tr[..|tr| - 1], |tr| - 1;
    if Blames(tr[last], s) {
      k := last;
    } else {
      k := FailedForCause(before, s);
      forall j | k < j < |tr| ensures !Excuses(tr[j], s) {
        assert j < last ==> tr[j] == before[j];
      }
    }
  }

  /** And so has every refusal. */
  lemma {:induction false} RefusedForCause(tr: seq<Event>, s: Id) returns (k: nat)
    requires SafeTrace(tr) && Recall(tr, s).refused
    ensures RefusedSince(tr, s, k)
  {
    var before, last := tr[..|tr| - 1], |tr| - 1;
    if tr[last].Refused? && tr[last].s == s {
      k := last;
    } else {
      k := RefusedForCause(before, s);
      assert before[..k] == tr[..k];
      forall j | k < j < |tr| && tr[j].s == s
        ensures !tr[j].Start? && KindOf(tr[j]) != Membership && !tr[j].Recount?
      {
        assert j < last ==> tr[j] == before[j];
      }
    }
  }

  // ---------------------------------------------------------------- the calls that are counted

  /** The times at which the provider of s is asked to start, in order. */
  ghost function StartsOf(tr: seq<Event>, s: Id): seq<int> {
    if tr == [] then [] else
    var before := StartsOf(tr[..|tr| - 1], s);
    if tr[|tr| - 1].Start? && tr[|tr| - 1].s == s then before + [tr[|tr| - 1].at] else before
  }

  lemma OneMoreStart(tr: seq<Event>, m: nat, s: Id)
    requires m < |tr|
    ensures var last := tr[|tr| - 1];
            StartsOf(tr[m..], s) ==
              StartsOf(tr[..|tr| - 1][m..], s) + if last.Start? && last.s == s then [last.at] else []
  {
    var rest := tr[m..];
    assert rest[|rest| - 1] == tr[|tr| - 1] && rest[..|rest| - 1] == tr[..|tr| - 1][m..];
  }

  /** The count of s begins again. */
  ghost predicate Begins(e: Event, s: Id) {
    e.s == s && (e.Recount? || e.Relimit? || KindOf(e) == Membership)
  }

  /** Where in the history the count of s last began. */
  ghost function CountFrom(tr: seq<Event>, s: Id): (m: nat)
    ensures m <= |tr| && (m > 0 ==> Begins(tr[m - 1], s))
    ensures forall j {:trigger tr[j]} :: m <= j < |tr| ==> !Begins(tr[j], s)
  {
    if tr == [] then 0
    else if Begins(tr[|tr| - 1], s) then |tr|
    else
      var before := tr[..|tr| - 1];
      assert forall j {:trigger tr[j]} :: 0 <= j < |before| ==> tr[j] == before[j];
      CountFrom(before, s)
  }

  /** The calls of Start made of the provider of s since its count last began: by time. */
  ghost function StartsSince(tr: seq<Event>, s: Id): seq<int> {
    StartsOf(tr[CountFrom(tr, s)..], s)
  }

  /** The attempts the limiter has on record are exactly these calls, after those the service brought
      along if it has been added since. */
  lemma {:induction false} RecordIsOfCalls(tr: seq<Event>, s: Id)
    ensures var m := CountFrom(tr, s);
            Recall(tr, s).times ==
              (if m > 0 && tr[m - 1].Joined? then tr[m - 1].brought.times else []) + StartsSince(tr, s)
  {
    if tr != [] && !Begins(tr[|tr| - 1], s) {
      var before, m := tr[..|tr| - 1], CountFrom(tr, s);
      RecordIsOfCalls(before, s);
      OneMoreStart(tr, m, s);
      assert m > 0 ==> before[m - 1] == tr[m - 1];
    }
  }

  // ---------------------------------------------------------------- when nothing goes wrong

  /** A failed start, a fault, a refusal, or a service added with the mark of a failure. */
  ghost predicate Trouble(e: Event) {
    e.Refused? || Blames(e, e.s)
  }

  /** No provider has failed since, and the limiter has turned nobody down. */
  ghost predicate Untroubled(tr: seq<Event>, tr': seq<Event>) {
    tr <= tr' && forall k {:trigger tr'[k]} :: |tr| <= k < |tr'| ==> !Trouble(tr'[k])
  }

  /** Nobody is marked failed or refused without a cause on record. */
  lemma {:induction false} NoTroubleNoMark(tr: seq<Event>, tr': seq<Event>, s: Id)
    requires Untroubled(tr, tr')
    ensures Recall(tr', s).failed ==> Recall(tr, s).failed
    ensures Recall(tr', s).refused ==> Recall(tr, s).refused
    decreases |tr'|
  {
    if |tr| < |tr'| {
      var before := tr'[..|tr'| - 1];
      assert tr <= before;
      assert !Trouble(tr'[|tr'| - 1]);
      NoTroubleNoMark(tr, before, s);
    } else {
      assert tr == tr';
    }
  }

  /** No provider has failed since. */
  ghost predicate Blameless(tr: seq<Event>, tr': seq<Event>) {
    tr <= tr' && forall k {:trigger tr'[k]} :: |tr| <= k < |tr'| ==> !Blames(tr'[k], tr'[k].s)
  }

  lemma BlamelessOn(tr0: seq<Event>, tr1: seq<Event>, tr2: seq<Event>)
    requires tr0 <= tr1 <= tr2
    ensures Blameless(tr0, tr2) <==> Blameless(tr0, tr1) && Blameless(tr1, tr2)
    ensures Untroubled(tr0, tr2) <==> Untroubled(tr0, tr1) && Untroubled(tr1, tr2)
  {
    assert forall k :: 0 <= k < |tr1| ==> tr1[k] == tr2[k];
  }

  /** There is no limit, or the quota is not used up. */
  ghost predicate UnderQuota(p: Past) {
    p.rate == 0 || |p.times| < p.rate
  }

  /** While services are only started and no start fails, one with some of its quota left is never
      refused: it is up, or still has some left. */
  lemma {:induction false} QuotaLasts(tr: seq<Event>, n: nat, s: Id)
    requires SafeTrace(tr) && n <= |tr| && UnderQuota(Recall(tr[..n], s))
    requires forall k {:trigger tr[k]} :: n <= k < |tr| ==>
               KindOf(tr[k]) in {Kind.Starting, Kind.Pardoning} && !Blames(tr[k], tr[k].s)
    ensures s in Up(tr) || UnderQuota(Recall(tr, s))
    ensures forall k {:trigger tr[k]} :: n <= k < |tr| && tr[k].s == s ==> !tr[k].Refused?
  {
    if n == |tr| {
      assert tr[..n] == tr;
    } else {
      var before := tr[..|tr| - 1];
      assert before[..n] == tr[..n];
      QuotaLasts(before, n, s);
    }
  }

  /** If services are only stopped, every quota lasts. */
  lemma {:induction false} StopsKeepQuota(tr: seq<Event>, n: nat, s: Id)
    requires n <= |tr| && UnderQuota(Recall(tr[..n], s))
    requires forall k {:trigger tr[k]} :: n <= k < |tr| ==> KindOf(tr[k]) in {Kind.Stopping, Kind.Pardoning}
    ensures UnderQuota(Recall(tr, s))
  {
    if n == |tr| {
      assert tr[..n] == tr;
    } else {
      var before := tr[..|tr| - 1];
      assert before[..n] == tr[..n];
      StopsKeepQuota(before, n, s);
    }
  }

  lemma {:induction false} SameParents(tr: seq<Event>, n: nat)
    requires n <= |tr| && forall k {:trigger tr[k]} :: n <= k < |tr| ==> KindOf(tr[k]) != Membership
    ensures Parents(tr) == Parents(tr[..n])
  {
    if n == |tr| {
      assert tr[..n] == tr;
    } else {
      var before := tr[..|tr| - 1];
      assert before[..n] == tr[..n];
      SameParents(before, n);
    }
  }

  /** Only services that have a place in the graph are ever refused. */
  lemma RefusedIsManaged(tr: seq<Event>, n: nat, k: nat)
    requires SafeTrace(tr) && n <= k < |tr| && tr[k].Refused?
    requires forall i {:trigger tr[i]} :: n <= i < k ==> KindOf(tr[i]) != Membership
    ensures tr[k].s in Parents(tr[..n])
  {
    SafePrefix(tr, k + 1);
    assert tr[..k + 1][..k] == tr[..k] && tr[..k][..n] == tr[..n];
    SameParents(tr[..k], n);
  }

  /** Within their quotas services can be started without trouble, unless a provider fails. */
  lemma StartsWithoutTrouble(tr: seq<Event>, tr': seq<Event>)
    requires SafeTrace(tr') && OnlyKinds(tr, tr', {Kind.Starting, Kind.Pardoning}) && Blameless(tr, tr')
    requires forall t :: t in Parents(tr) ==> UnderQuota(Recall(tr, t))
    ensures Untroubled(tr, tr')
  {
    assert tr'[..|tr|] == tr;
    forall k | |tr| <= k < |tr'| ensures !Trouble(tr'[k]) {
      if tr'[k].Refused? {
        RefusedIsManaged(tr', |tr|, k);
        QuotaLasts(tr', |tr|, tr'[k].s);
      }
    }
  }
}
