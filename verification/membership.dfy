/** Services joining and leaving a manager. */
module Membership {
  import opened Linkage
  import opened Names
  import opened Indexing
  import opened RateLimits
  import opened Traces
  import opened Supervision

  /** The links of t are the same in g and g' except for links with s. */
  ghost predicate SameBut(g: Links, g': Links, s: Id, t: Id) {
    && t in g.parents && t in g'.parents && g.parents[t].Keys == g'.parents[t].Keys
    && t in g.incompat && t in g'.incompat
    && (forall k {:trigger g.parents[t][k]} {:trigger g'.parents[t][k]} :: k in g.parents[t] ==>
        g.parents[t][k] - {s} == g'.parents[t][k] - {s})
    && g.incompat[t] - {s} == g'.incompat[t] - {s}
  }

  lemma BackedWithoutStranger(g: Links, g': Links, live: set<Id>, s: Id, t: Id)
    requires SameBut(g, g', s, t) && s !in live
    ensures Backed(g.parents, live, t) <==> Backed(g'.parents, live, t)
  {
    forall k | k in g.parents[t] ensures HasProvider(g.parents, live, t, k) <==> HasProvider(g'.parents, live, t, k) {
      assert forall d :: d != s ==> (d in g.parents[t][k] <==> d in g.parents[t][k] - {s});
      assert forall d :: d != s ==> (d in g'.parents[t][k] <==> d in g'.parents[t][k] - {s});
    }
  }

  ghost predicate OthersLinkedAlike(g: Links, g': Links, s: Id, nodes: set<Id>) {
    forall t {:trigger SameBut(g, g', s, t)} :: t in nodes && t != s ==> SameBut(g, g', s, t)
  }

  lemma WithoutLinksAlike(g: Links, s: Id)
    requires g.parents.Keys == g.children.Keys == g.incompat.Keys
    ensures OthersLinkedAlike(g, Without(g, s), s, g.parents.Keys)
    ensures OthersLinkedAlike(Without(g, s), g, s, g.parents.Keys - {s})
  {
    var h := Without(g, s);
    forall t | t in g.parents && t != s ensures SameBut(g, h, s, t) && SameBut(h, g, s, t) {
    }
  }

  lemma AddedLinks(attrs: map<Id, Attr>, s: Id, a: Attr)
    requires s !in attrs
    ensures WellLinked(Index(attrs[s := a]))
    ensures OthersLinkedAlike(Index(attrs), Index(attrs[s := a]), s, attrs.Keys)
  {
    IndexIsWellLinked(attrs[s := a]);
    AddThenDelete(attrs, s, a);
    WithoutLinksAlike(Index(attrs[s := a]), s);
    assert attrs[s := a].Keys - {s} == attrs.Keys;
  }

  lemma RemovedLinks(attrs: map<Id, Attr>, s: Id)
    requires s in attrs
    ensures WellLinked(Index(attrs - {s}))
    ensures OthersLinkedAlike(Index(attrs), Index(attrs - {s}), s, attrs.Keys)
  {
    IndexIsWellLinked(attrs - {s});
    IndexWithout(attrs, s);
    WithoutLinksAlike(Index(attrs), s);
  }

  // ---------------------------------------------------------------- the change of state

  lemma RelinkIsSafe(v: SoundView, s: Id, g: Graph)
    requires OthersLinkedAlike(v.g, g, s, v.st.Keys) && s !in Running(v.st)
    ensures Relinks(v.g.parents, g.parents, Running(v.st))
  {
    var up := Running(v.st);
    forall t | t in up && Backed(v.g.parents, up, t) ensures Backed(g.parents, up, t) {
      assert SameBut(v.g, g, s, t);
      BackedWithoutStranger(v.g, g, up, s, t);
    }
  }

  /** The state with s added. */
  ghost function Joint(v: SoundView, s: Id, a: Attr, g: Graph, f: Flags, tag: Tag, p: Policy, times: seq<int>): View {
    View(g, v.attrs[s := a], v.st[s := f], v.tags[s := tag], v.policies[s := p], tag.serial,
         v.trace + [Joined(s, g.parents, Past(f.failed, false, p.rate, p.period, times))])
  }

  /** s may be added: it is new, and down; its serial is new, and its ring holds its attempts. */
  ghost predicate MayJoin(v: SoundView, s: Id, a: Attr, g: Graph, f: Flags, tag: Tag, p: Policy, times: seq<int>) {
    && s !in v.st && Indexing.IsIndex(g, v.attrs[s := a]) && OthersLinkedAlike(v.g, g, s, v.st.Keys)
    && !f.running && !f.refused && v.serial < tag.serial && InRing(p, times)
  }

  lemma JoinStands(v: SoundView, s: Id, a: Attr, g: Graph, f: Flags, tag: Tag, p: Policy, times: seq<int>)
    requires MayJoin(v, s, a, g, f, tag, p, times)
    ensures Standing(v.st[s := f], v.policies[s := p], Joint(v, s, a, g, f, tag, p, times).trace)
  {
    var v' := Joint(v, s, a, g, f, tag, p, times);
    forall t | t in v'.st ensures StandsAt(v'.st, v'.policies, v'.trace, t) {
      OneMoreEvent(v.trace, Joined(s, g.parents, Past(f.failed, false, p.rate, p.period, times)), t);
      if t != s {
        Flagged(v, t);
      }
    }
  }

  lemma JoinIsNumbered(v: SoundView, s: Id, tag: Tag)
    requires s !in v.tags && v.serial < tag.serial
    ensures Numbered(v.tags[s := tag], tag.serial)
  {
    var tags := v.tags[s := tag];
    Serials(v);
    forall t | t in tags ensures NotAbove(tags, tag.serial, t) {
      assert NotAbove(v.tags, v.serial, t);
    }
    forall t, u | t in tags && u in tags ensures Apart(tags, t, u) {
      assert Apart(v.tags, t, u) && NotAbove(v.tags, v.serial, t) && NotAbove(v.tags, v.serial, u);
    }
  }

  lemma JoinIsRecorded(v: SoundView, s: Id, a: Attr, g: Graph, f: Flags, tag: Tag, p: Policy, times: seq<int>)
    requires MayJoin(v, s, a, g, f, tag, p, times)
    ensures Recorded(g, v.st[s := f], Joint(v, s, a, g, f, tag, p, times).trace)
  {
    Called(v);
    RelinkIsSafe(v, s, g);
    OneMoreEvent(v.trace, Joined(s, g.parents, Past(f.failed, false, p.rate, p.period, times)), s);
    assert Running(v.st[s := f]) == Running(v.st);
  }

  lemma JoinIsSound(v: SoundView, s: Id, a: Attr, g: Graph, f: Flags, tag: Tag, p: Policy, times: seq<int>)
    requires MayJoin(v, s, a, g, f, tag, p, times)
    ensures Sound(Joint(v, s, a, g, f, tag, p, times))
  {
    JoinStands(v, s, a, g, f, tag, p, times);
    JoinIsNumbered(v, s, tag);
    JoinIsRecorded(v, s, a, g, f, tag, p, times);
    AllAspects(Joint(v, s, a, g, f, tag, p, times));
  }

  /** The state with s taken away. */
  ghost function Parted(v: SoundView, s: Id, g: Graph): View {
    View(g, v.attrs - {s}, v.st - {s}, v.tags - {s}, v.policies - {s}, v.serial, v.trace + [Left(s, g.parents)])
  }

  ghost predicate MayLeave(v: SoundView, s: Id, g: Graph) {
    && s in v.st && Indexing.IsIndex(g, v.attrs - {s}) && OthersLinkedAlike(v.g, g, s, v.st.Keys)
    && !v.st[s].running
  }

  lemma LeaveStands(v: SoundView, s: Id, g: Graph)
    requires MayLeave(v, s, g)
    ensures Standing(v.st - {s}, v.policies - {s}, v.trace + [Left(s, g.parents)])
  {
    var v' := Parted(v, s, g);
    forall t | t in v'.st ensures StandsAt(v'.st, v'.policies, v'.trace, t) {
      OneMoreEvent(v.trace, Left(s, g.parents), t);
      Flagged(v, t);
    }
  }

  lemma LeaveIsNumbered(v: SoundView, s: Id)
    ensures Numbered(v.tags - {s}, v.serial)
  {
    var tags := v.tags - {s};
    Serials(v);
    forall t | t in tags ensures NotAbove(tags, v.serial, t) {
      assert NotAbove(v.tags, v.serial, t);
    }
    forall t, u | t in tags && u in tags ensures Apart(tags, t, u) {
      assert Apart(v.tags, t, u);
    }
  }

  lemma LeaveIsRecorded(v: SoundView, s: Id, g: Graph)
    requires MayLeave(v, s, g)
    ensures Recorded(g, v.st - {s}, v.trace + [Left(s, g.parents)])
  {
    Called(v);
    RelinkIsSafe(v, s, g);
    OneMoreEvent(v.trace, Left(s, g.parents), s);
    assert Running(v.st - {s}) == Running(v.st);
  }

  lemma LeaveIsSound(v: SoundView, s: Id, g: Graph)
    requires MayLeave(v, s, g)
    ensures Sound(Parted(v, s, g))
  {
    LeaveStands(v, s, g);
    LeaveIsNumbered(v, s);
    LeaveIsRecorded(v, s, g);
    AllAspects(Parted(v, s, g));
  }

  /** The state of a manager with no services. */
  ghost function EmptyView(serial: int): (v: SoundView)
    ensures Settled(v)
  {
    var v := View(Links(map[], map[], map[]), map[], map[], map[], map[], serial, []);
    AllAspects(v);
    v
  }

  /** The manager's serial moves on and no service's state changes. */
  ghost function Skip(v: SoundView, serial: int): SoundView
    requires v.serial <= serial
  {
    SkipIsSound(v, serial);
    v.(serial := serial)
  }

  lemma SkipIsSound(v: SoundView, serial: int)
    requires v.serial <= serial
    ensures Sound(v.(serial := serial))
  {
    Serials(v);
    forall t | t in v.tags ensures NotAbove(v.tags, serial, t) {
      assert NotAbove(v.tags, v.serial, t);
    }
    assert SoundAt(v, OfLinks) && SoundAt(v, OfFlags) && SoundAt(v, OfCalls);
    AllAspects(v.(serial := serial));
  }

  lemma SkipIsOnward(v: SoundView, serial: int)
    requires v.serial <= serial
    ensures Newer(v, Skip(v, serial)) && (Settled(v) ==> Settled(Skip(v, serial)))
  {
    forall t ensures OnwardAt(v, Skip(v, serial), t) {}
  }

  // ---------------------------------------------------------------- settled stays settled

  /** Nobody's standing hangs on a service that is neither enabled nor running. */
  lemma StandingWithout(g: Graph, st: map<Id, Flags>, g': Graph, st': map<Id, Flags>, s: Id, t: Id)
    requires t != s && t in st && t in st' && st[t] == st'[t] && SameBut(g, g', s, t)
    requires LiveSet(st) == LiveSet(st') && s !in LiveSet(st)
    requires forall c {:trigger st[c]} {:trigger st'[c]} ::
               c != s ==> (c in st <==> c in st') && (c in st ==> st[c] == st'[c])
    requires (s in st ==> !st[s].enabled) && (s in st' ==> !st'[s].enabled)
    ensures CanRun(g, st, t) <==> CanRun(g', st', t)
    ensures NoConflict(g, st, t) <==> NoConflict(g', st', t)
  {
    BackedWithoutStranger(g, g', LiveSet(st), s, t);
    assert forall c :: c != s ==> (c in g.incompat[t] <==> c in g.incompat[t] - {s});
    assert forall c :: c != s ==> (c in g'.incompat[t] <==> c in g'.incompat[t] - {s});
  }

  lemma JoinSettles(v: SoundView, s: Id, g: Graph, f: Flags)
    requires s !in v.st && OthersLinkedAlike(v.g, g, s, v.st.Keys)
    requires !f.running && !f.enabled && !f.stopping && Settled(v) && s in g.incompat
    ensures Closed(g, v.st[s := f]) && ConflictFree(g, v.st[s := f]) && NoneWaits(g, v.st[s := f])
  {
    var st := v.st[s := f];
    assert LiveSet(st) == LiveSet(v.st);
    forall t | t in st ensures Steady(g, st, t) && Unopposed(g, st, t) && !Waits(g, st, t) {
      if t != s {
        assert Steady(v.g, v.st, t) && Unopposed(v.g, v.st, t) && !Waits(v.g, v.st, t);
        assert SameBut(v.g, g, s, t);
        StandingWithout(v.g, v.st, g, st, s, t);
      }
    }
  }

  lemma LeaveSettles(v: SoundView, s: Id, g: Graph)
    requires s in v.st && OthersLinkedAlike(v.g, g, s, v.st.Keys)
    requires !v.st[s].running && !v.st[s].enabled && Settled(v)
    ensures Closed(g, v.st - {s}) && ConflictFree(g, v.st - {s}) && NoneWaits(g, v.st - {s})
  {
    var st := v.st - {s};
    assert LiveSet(st) == LiveSet(v.st);
    forall t | t in st ensures Steady(g, st, t) && Unopposed(g, st, t) && !Waits(g, st, t) {
      assert Steady(v.g, v.st, t) && Unopposed(v.g, v.st, t) && !Waits(v.g, v.st, t);
      assert SameBut(v.g, g, s, t);
      StandingWithout(v.g, v.st, g, st, s, t);
    }
  }

  /** Nothing is changed of any service but s. */
  ghost predicate OthersKept(v: SoundView, v': SoundView, s: Id) {
    forall t {:trigger v.st[t]} {:trigger v'.st[t]} {:trigger v'.tags[t]} :: t in v.st && t != s ==>
      t in v'.st && v'.st[t] == v.st[t] && v'.tags[t] == v.tags[t] && v'.policies[t] == v.policies[t]
  }

  // ---------------------------------------------------------------- both together

  /** A disabled service is added: the links become the index of all, and everything stays settled. */
  lemma Joining(v: SoundView, s: Id, a: Attr, g: Links, f: Flags, tag: Tag, p: Policy, times: seq<int>)
    returns (w: SoundView)
    requires s !in v.st && Settled(v) && Indexing.IsIndex(g, v.attrs[s := a])
    requires !f.running && !f.enabled && !f.stopping && !f.refused && v.serial < tag.serial && InRing(p, times)
    ensures w.g == g && w.attrs == v.attrs[s := a] && w.st == v.st[s := f] && w.tags == v.tags[s := tag]
    ensures w.policies == v.policies[s := p] && w.serial == tag.serial
    ensures w.trace == v.trace + [Joined(s, g.parents, Past(f.failed, false, p.rate, p.period, times))]
    ensures Settled(w) && OthersKept(v, w, s) && Onward(v, w)
  {
    var h := NewLinks(v, s, a, g);
    JoinIsSound(v, s, a, h, f, tag, p, times);
    w := Joint(v, s, a, h, f, tag, p, times);
    JoinSettles(v, s, h, f);
    forall t ensures OnwardAt(v, w, t) {}
  }

  lemma NewLinks(v: SoundView, s: Id, a: Attr, g: Links) returns (h: Graph)
    requires s !in v.st && Indexing.IsIndex(g, v.attrs[s := a])
    ensures h == g && OthersLinkedAlike(v.g, h, s, v.st.Keys) && s in h.incompat
  {
    assert SoundAt(v, OfLinks);
    OnlyOneIndex(v.g, v.attrs);
    OnlyOneIndex(g, v.attrs[s := a]);
    AddedLinks(v.attrs, s, a);
    h := g;
  }

  /** A disabled service is removed. */
  lemma Parting(v: SoundView, s: Id, g: Links) returns (w: SoundView)
    requires s in v.st && !v.st[s].enabled && Settled(v) && Indexing.IsIndex(g, v.attrs - {s})
    ensures w.g == g && w.attrs == v.attrs - {s} && w.st == v.st - {s} && w.tags == v.tags - {s}
    ensures w.policies == v.policies - {s} && w.serial == v.serial
    ensures w.trace == v.trace + [Left(s, g.parents)]
    ensures Settled(w) && OthersKept(v, w, s) && Onward(v, w)
  {
    var h := FewerLinks(v, s, g);
    assert Steady(v.g, v.st, s);
    LeaveIsSound(v, s, h);
    w := Parted(v, s, h);
    LeaveSettles(v, s, h);
    forall t ensures OnwardAt(v, w, t) {}
  }

  lemma FewerLinks(v: SoundView, s: Id, g: Links) returns (h: Graph)
    requires s in v.st && Indexing.IsIndex(g, v.attrs - {s})
    ensures h == g && OthersLinkedAlike(v.g, h, s, v.st.Keys)
  {
    assert SoundAt(v, OfLinks);
    OnlyOneIndex(v.g, v.attrs);
    OnlyOneIndex(g, v.attrs - {s});
    RemovedLinks(v.attrs, s);
    h := g;
  }
}
