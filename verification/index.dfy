/** The links between services, defined from what the services declare, and the incremental
    updates that keep them so. */
module Indexing {
  import opened Linkage
  import opened Names

  /** The first entry of t's dependencies that u answers to is d. */
  ghost predicate Answers(t: Attr, u: Attr, d: string) {
    AnyMatch(t.depends, u) && t.depends[FirstMatch(t.depends, u)] == d
  }

  ghost predicate Refuses(a: Attr, b: Attr) {
    exists i :: 0 <= i < |a.conflicts| && Matches(b, a.conflicts[i])
  }

  ghost predicate Clash(a: Attr, b: Attr) {
    Refuses(a, b) || Refuses(b, a)
  }

  ghost predicate Taken(attrs: map<Id, Attr>, name: string) {
    exists i :: i in attrs && attrs[i].name == name
  }

  // ---------------------------------------------------------------- from scratch

  /** Services t and u are to be linked: they differ, and if one is s the other is in `done`. */
  ghost predicate Met(s: Id, done: set<Id>, t: Id, u: Id) {
    t != u && (t == s ==> u in done) && (u == s ==> t in done)
  }

  ghost function Suppliers(attrs: map<Id, Attr>, s: Id, done: set<Id>, t: Id, d: string): set<Id>
    requires t in attrs
  {
    set u | u in attrs && Met(s, done, t, u) && Answers(attrs[t], attrs[u], d)
  }

  ghost function ParentsOf(attrs: map<Id, Attr>, s: Id, done: set<Id>, t: Id): map<string, set<Id>>
    requires t in attrs
  {
    map d | d in attrs[t].depends :: Suppliers(attrs, s, done, t, d)
  }

  ghost function ChildrenOf(attrs: map<Id, Attr>, s: Id, done: set<Id>, t: Id): set<Id>
    requires t in attrs
  {
    set u | u in attrs && Met(s, done, t, u) && AnyMatch(attrs[u].depends, attrs[t])
  }

  ghost function IncompatOf(attrs: map<Id, Attr>, s: Id, done: set<Id>, t: Id): set<Id>
    requires t in attrs
  {
    set u | u in attrs && Met(s, done, t, u) && Clash(attrs[t], attrs[u])
  }

  /** The links among all services, where s is linked with those in `done` only. */
  ghost function IndexOn(attrs: map<Id, Attr>, s: Id, done: set<Id>): (g: Links)
    ensures g.parents.Keys == g.children.Keys == g.incompat.Keys == attrs.Keys
  {
    Links(map t | t in attrs :: ParentsOf(attrs, s, done, t),
          map t | t in attrs :: ChildrenOf(attrs, s, done, t),
          map t | t in attrs :: IncompatOf(attrs, s, done, t))
  }

  ghost function AllSuppliers(attrs: map<Id, Attr>, t: Id, d: string): set<Id>
    requires t in attrs
  {
    set u | u in attrs && u != t && Answers(attrs[t], attrs[u], d)
  }

  ghost function AllParents(attrs: map<Id, Attr>, t: Id): map<string, set<Id>>
    requires t in attrs
  {
    map d | d in attrs[t].depends :: AllSuppliers(attrs, t, d)
  }

  ghost function AllChildren(attrs: map<Id, Attr>, t: Id): set<Id>
    requires t in attrs
  {
    set u | u in attrs && u != t && AnyMatch(attrs[u].depends, attrs[t])
  }

  ghost function AllIncompat(attrs: map<Id, Attr>, t: Id): set<Id>
    requires t in attrs
  {
    set u | u in attrs && u != t && Clash(attrs[t], attrs[u])
  }

  /** The links as the declarations alone determine them: u is a parent of t under d when d is
      the first dependency of t that u answers to. */
  ghost function Index(attrs: map<Id, Attr>): (g: Links)
    ensures g.parents.Keys == g.children.Keys == g.incompat.Keys == attrs.Keys
  {
    Links(map t | t in attrs :: AllParents(attrs, t),
          map t | t in attrs :: AllChildren(attrs, t),
          map t | t in attrs :: AllIncompat(attrs, t))
  }

  lemma IndexIsWellLinked(attrs: map<Id, Attr>)
    ensures WellLinked(Index(attrs))
  {
    var g := Index(attrs);
    forall s, t | s in g.children && t in g.children[s] ensures DependsOn(g.parents, t, s) {
      var d := attrs[t].depends[FirstMatch(attrs[t].depends, attrs[s])];
      assert d in g.parents[t] && s in g.parents[t][d];
    }
  }

  // ---------------------------------------------------------------- adding one service

  /** u becomes a parent of t under d, and t a child of u. */
  function Attach(g: Links, t: Id, d: string, u: Id): Links
    requires t in g.parents && d in g.parents[t] && u in g.children
  {
    g.(parents := g.parents[t := g.parents[t][d := g.parents[t][d] + {u}]],
       children := g.children[u := g.children[u] + {t}])
  }

  function Oppose(g: Links, t: Id, u: Id): Links
    requires t in g.incompat && u in g.incompat
  {
    var i1 := g.incompat[t := g.incompat[t] + {u}];
    g.(incompat := i1[u := i1[u] + {t}])
  }

  /** The dependency of t that u is linked under, if u answers to any. */
  function Slot(t: Attr, u: Attr): string
    requires AnyMatch(t.depends, u)
  {
    t.depends[FirstMatch(t.depends, u)]
  }

  /** The providers of one service once u has been considered. */
  ghost function Grow(p: map<string, set<Id>>, ta: Attr, u: Id, ua: Attr): map<string, set<Id>>
    requires forall d :: d in ta.depends ==> d in p
  {
    if AnyMatch(ta.depends, ua) then p[Slot(ta, ua) := p[Slot(ta, ua)] + {u}] else p
  }

  ghost function If(b: bool, x: Id): set<Id> {
    if b then {x} else {}
  }

  ghost predicate Between(s: Id, t: Id, x: Id, y: Id) {
    s != t && ((x == s && y == t) || (x == t && y == s))
  }

  lemma ParentsGrow(attrs: map<Id, Attr>, s: Id, done: set<Id>, t: Id, x: Id, y: Id)
    requires s in attrs && t in attrs && t !in done && Between(s, t, x, y)
    ensures ParentsOf(attrs, s, done + {t}, x) == Grow(ParentsOf(attrs, s, done, x), attrs[x], y, attrs[y])
  {
    forall d | d in attrs[x].depends
      ensures Suppliers(attrs, s, done + {t}, x, d) ==
          Suppliers(attrs, s, done, x, d) + If(Answers(attrs[x], attrs[y], d), y)
      ensures !Answers(attrs[x], attrs[y], d) ==>
          Suppliers(attrs, s, done + {t}, x, d) == Suppliers(attrs, s, done, x, d)
    {
    }
  }

  lemma OthersKeepLinks(attrs: map<Id, Attr>, s: Id, done: set<Id>, t: Id, x: Id)
    requires s in attrs && t in attrs && x in attrs && x != s && x != t
    ensures ParentsOf(attrs, s, done + {t}, x) == ParentsOf(attrs, s, done, x)
    ensures ChildrenOf(attrs, s, done + {t}, x) == ChildrenOf(attrs, s, done, x)
    ensures IncompatOf(attrs, s, done + {t}, x) == IncompatOf(attrs, s, done, x)
  {
    forall d | d in attrs[x].depends ensures Suppliers(attrs, s, done + {t}, x, d) == Suppliers(attrs, s, done, x, d) {
    }
  }

  lemma ChildrenGrow(attrs: map<Id, Attr>, s: Id, done: set<Id>, t: Id, x: Id, y: Id)
    requires s in attrs && t in attrs && t !in done && Between(s, t, x, y)
    ensures ChildrenOf(attrs, s, done + {t}, x) ==
            ChildrenOf(attrs, s, done, x) + If(AnyMatch(attrs[y].depends, attrs[x]), y)
    ensures IncompatOf(attrs, s, done + {t}, x) ==
            IncompatOf(attrs, s, done, x) + If(Clash(attrs[x], attrs[y]), y)
  {
  }

  /** One round of the loop in `setManager`: s and t are linked in every way they call for. */
  ghost function Link(g: Links, s: Id, sa: Attr, t: Id, ta: Attr): (g': Links)
    requires s in g.parents && s in g.children && s in g.incompat && forall d :: d in sa.depends ==> d in g.parents[s]
    requires t in g.parents && t in g.children && t in g.incompat && forall d :: d in ta.depends ==> d in g.parents[t]
    requires s != t
    ensures g'.parents.Keys == g.parents.Keys && g'.children.Keys == g.children.Keys &&
        g'.incompat.Keys == g.incompat.Keys
  {
    Links(g.parents[t := Grow(g.parents[t], ta, s, sa)][s := Grow(g.parents[s], sa, t, ta)],
          g.children[s := g.children[s] + If(AnyMatch(ta.depends, sa), t)]
                    [t := g.children[t] + If(AnyMatch(sa.depends, ta), s)],
          g.incompat[s := g.incompat[s] + If(Clash(sa, ta), t)][t := g.incompat[t] + If(Clash(sa, ta), s)])
  }

  ghost predicate SameAt(g: Links, h: Links, x: Id) {
    && x in g.parents && x in h.parents && g.parents[x] == h.parents[x]
    && x in g.children && x in h.children && g.children[x] == h.children[x]
    && x in g.incompat && x in h.incompat && g.incompat[x] == h.incompat[x]
  }

  lemma SameLinks(g: Links, h: Links, nodes: set<Id>)
    requires nodes == g.parents.Keys == g.children.Keys == g.incompat.Keys
    requires nodes == h.parents.Keys == h.children.Keys == h.incompat.Keys
    requires forall x {:trigger SameAt(g, h, x)} :: x in nodes ==> SameAt(g, h, x)
    ensures g == h
  {
    forall x | x in nodes
      ensures g.parents[x] == h.parents[x] && g.children[x] == h.children[x] && g.incompat[x] == h.incompat[x]
    {
      assert SameAt(g, h, x);
    }
    assert g.parents == h.parents && g.children == h.children && g.incompat == h.incompat;
  }

  lemma LinkedEnds(attrs: map<Id, Attr>, s: Id, done: set<Id>, t: Id)
    requires s in attrs && t in attrs && t !in done && s != t
    ensures var g := Link(IndexOn(attrs, s, done), s, attrs[s], t, attrs[t]);
            var h := IndexOn(attrs, s, done + {t});
            g.parents[s] == h.parents[s] && g.parents[t] == h.parents[t]
  {
    ParentsGrow(attrs, s, done, t, s, t);
    ParentsGrow(attrs, s, done, t, t, s);
  }

  lemma LinkedAt(attrs: map<Id, Attr>, s: Id, done: set<Id>, t: Id, x: Id)
    requires s in attrs && t in attrs && t !in done && s != t && x in attrs
    ensures SameAt(Link(IndexOn(attrs, s, done), s, attrs[s], t, attrs[t]), IndexOn(attrs, s, done + {t}), x)
  {
    if x == s {
      LinkedEnds(attrs, s, done, t);
      ChildrenGrow(attrs, s, done, t, s, t);
    } else if x == t {
      LinkedEnds(attrs, s, done, t);
      ChildrenGrow(attrs, s, done, t, t, s);
    } else {
      OthersKeepLinks(attrs, s, done, t, x);
    }
  }

  lemma LinkIsNextRound(attrs: map<Id, Attr>, s: Id, done: set<Id>, t: Id)
    requires s in attrs && t in attrs && t !in done && s != t
    ensures Link(IndexOn(attrs, s, done), s, attrs[s], t, attrs[t]) == IndexOn(attrs, s, done + {t})
  {
    var g, h := Link(IndexOn(attrs, s, done), s, attrs[s], t, attrs[t]), IndexOn(attrs, s, done + {t});
    forall x | x in attrs ensures SameAt(g, h, x) {
      LinkedAt(attrs, s, done, t, x);
    }
    SameLinks(g, h, attrs.Keys);
  }

  /** The dependency names of a service with no provider yet. */
  function NoParents(depends: seq<string>): map<string, set<Id>> {
    map d | d in depends :: {}
  }

  /** Before the loop: the links among the others, and none for s. */
  lemma IndexBefore(attrs: map<Id, Attr>, s: Id)
    requires s in attrs
    ensures var g := Index(attrs - {s});
            IndexOn(attrs, s, {}) ==
              Links(g.parents[s := NoParents(attrs[s].depends)], g.children[s := {}], g.incompat[s := {}])
  {
    var g := Index(attrs - {s});
    var h := Links(g.parents[s := NoParents(attrs[s].depends)], g.children[s := {}], g.incompat[s := {}]);
    var i := IndexOn(attrs, s, {});
    forall x | x in attrs ensures SameAt(i, h, x) {
      FreshAt(attrs, s, x);
    }
    SameLinks(i, h, attrs.Keys);
  }

  lemma FreshAt(attrs: map<Id, Attr>, s: Id, x: Id)
    requires s in attrs && x in attrs
    ensures var g := Index(attrs - {s});
            SameAt(IndexOn(attrs, s, {}),
                   Links(g.parents[s := NoParents(attrs[s].depends)], g.children[s := {}], g.incompat[s := {}]), x)
  {
    var others := attrs - {s};
    if x == s {
      forall d | d in attrs[s].depends ensures Suppliers(attrs, s, {}, s, d) == {} {}
      assert ParentsOf(attrs, s, {}, s) == NoParents(attrs[s].depends);
      assert ChildrenOf(attrs, s, {}, s) == {} && IncompatOf(attrs, s, {}, s) == {};
    } else {
      forall d | d in attrs[x].depends ensures Suppliers(attrs, s, {}, x, d) == AllSuppliers(others, x, d) {}
      assert ParentsOf(attrs, s, {}, x) == AllParents(others, x);
      assert ChildrenOf(attrs, s, {}, x) == AllChildren(others, x);
      assert IncompatOf(attrs, s, {}, x) == AllIncompat(others, x);
    }
  }

  /** After the loop: s is linked with everyone. */
  lemma IndexAfter(attrs: map<Id, Attr>, s: Id)
    ensures IndexOn(attrs, s, attrs.Keys - {s}) == Index(attrs)
  {
    var g, h := IndexOn(attrs, s, attrs.Keys - {s}), Index(attrs);
    forall x | x in attrs ensures SameAt(g, h, x) {
      CompleteAt(attrs, s, x);
    }
    SameLinks(g, h, attrs.Keys);
  }

  lemma CompleteAt(attrs: map<Id, Attr>, s: Id, x: Id)
    requires x in attrs
    ensures ParentsOf(attrs, s, attrs.Keys - {s}, x) == AllParents(attrs, x)
    ensures ChildrenOf(attrs, s, attrs.Keys - {s}, x) == AllChildren(attrs, x)
    ensures IncompatOf(attrs, s, attrs.Keys - {s}, x) == AllIncompat(attrs, x)
  {
    forall d | d in attrs[x].depends
      ensures Suppliers(attrs, s, attrs.Keys - {s}, x, d) == AllSuppliers(attrs, x, d)
    {
    }
  }

  lemma IndexBegins(attrs: map<Id, Attr>, s: Id, a: Attr)
    requires s !in attrs
    ensures var g := Index(attrs);
            IndexOn(attrs[s := a], s, {}) ==
              Links(g.parents[s := NoParents(a.depends)], g.children[s := {}], g.incompat[s := {}])
  {
    assert attrs[s := a] - {s} == attrs;
    IndexBefore(attrs[s := a], s);
  }

  lemma IndexEnds(attrs: map<Id, Attr>, s: Id, a: Attr)
    requires s !in attrs
    ensures IndexOn(attrs[s := a], s, attrs.Keys) == Index(attrs[s := a])
  {
    assert attrs[s := a].Keys - {s} == attrs.Keys;
    IndexAfter(attrs[s := a], s);
  }

  /** Whether one of a's conflicts names b: the loop over a's conflict list. */
  method FindConflict(a: Attr, b: Attr) returns (found: bool)
    ensures found <==> Refuses(a, b)
  {
    found := false;
    for i := 0 to |a.conflicts|
      invariant found <==> exists j :: 0 <= j < i && Matches(b, a.conflicts[j])
    {
      if Matches(b, a.conflicts[i]) {
        found := true;
      }
    }
  }

  ghost predicate Declared(g: Links, s: Id, sa: Attr) {
    s in g.parents && s in g.children && s in g.incompat && forall d :: d in sa.depends ==> d in g.parents[s]
  }

  /** t's dependency, if u answers to one, is linked to u. */
  method SupplyFirst(g: Links, t: Id, ta: Attr, u: Id, ua: Attr) returns (g': Links)
    requires Declared(g, t, ta) && u in g.children
    ensures g'.parents == g.parents[t := Grow(g.parents[t], ta, u, ua)]
    ensures g'.children == g.children[u := g.children[u] + If(AnyMatch(ta.depends, ua), t)]
    ensures g'.incompat == g.incompat
  {
    var i := FindMatch(ta.depends, ua);
    if i < |ta.depends| {
      g' := Attach(g, t, ta.depends[i], u);
    } else {
      assert g.children[u] + {} == g.children[u];
      g' := g;
    }
  }

  lemma IndexDeclares(attrs: map<Id, Attr>, s: Id, done: set<Id>, t: Id)
    requires t in attrs
    ensures Declared(IndexOn(attrs, s, done), t, attrs[t])
  {
    assert IndexOn(attrs, s, done).parents[t] == ParentsOf(attrs, s, done, t);
  }

  /** The body of the loop in `setManager`, for one service t already there. */
  method LinkPair(g: Links, s: Id, sa: Attr, t: Id, ta: Attr) returns (g': Links)
    requires Declared(g, s, sa) && Declared(g, t, ta) && s != t
    ensures g' == Link(g, s, sa, t, ta)
  {
    g' := SupplyFirst(g, t, ta, s, sa);
    g' := SupplyFirst(g', s, sa, t, ta);
    g' := OpposePair(g', s, sa, t, ta);
  }

  /** Both conflict lists are gone through; either may set the link, in both directions. */
  method OpposePair(g: Links, s: Id, sa: Attr, t: Id, ta: Attr) returns (g': Links)
    requires s in g.incompat && t in g.incompat && s != t
    ensures g'.parents == g.parents && g'.children == g.children
    ensures g'.incompat == g.incompat[s := g.incompat[s] + If(Clash(sa, ta), t)]
                                     [t := g.incompat[t] + If(Clash(sa, ta), s)]
  {
    g' := g;
    var found := FindConflict(ta, sa);
    if found {
      g' := Oppose(g', s, t);
    }
    ghost var g1 := g';
    found := FindConflict(sa, ta);
    if found {
      g' := Oppose(g', s, t);
    }
    assert g.incompat[s] + {} == g.incompat[s] && g.incompat[t] + {} == g.incompat[t];
    assert g1.incompat[s] + {t} == g.incompat[s] + {t} && g1.incompat[t] + {s} == g.incompat[t] + {s};
  }

  ghost predicate LinkedRight(g: Links, attrs: map<Id, Attr>, t: Id) {
    t in attrs && SameAt(g, Index(attrs), t)
  }

  /** The links of every service are those the declarations call for. */
  ghost predicate IsIndex(g: Links, attrs: map<Id, Attr>) {
    && g.parents.Keys == g.children.Keys == g.incompat.Keys == attrs.Keys
    && forall t {:trigger LinkedRight(g, attrs, t)} :: t in attrs ==> LinkedRight(g, attrs, t)
  }

  lemma OnlyOneIndex(g: Links, attrs: map<Id, Attr>)
    ensures IsIndex(g, attrs) <==> g == Index(attrs)
  {
    if IsIndex(g, attrs) {
      forall t | t in attrs ensures SameAt(g, Index(attrs), t) {
        assert LinkedRight(g, attrs, t);
      }
      SameLinks(g, Index(attrs), attrs.Keys);
    }
  }

  // ---------------------------------------------------------------- removing one service

  /** s is gone from every link. */
  ghost function Without(g: Links, s: Id): Links {
    Links(map t | t in g.parents && t != s :: Dropped(g.parents[t], s),
          map t | t in g.children && t != s :: g.children[t] - {s},
          map t | t in g.incompat && t != s :: g.incompat[t] - {s})
  }

  ghost function Dropped(p: map<string, set<Id>>, s: Id): map<string, set<Id>> {
    map k | k in p :: p[k] - {s}
  }

  /** Nobody conflicts with s any more: going through its own conflicts reaches all of them. */
  method DropConflicts(g: Graph, s: Id) returns (incompat: map<Id, set<Id>>)
    requires s in g.incompat
    ensures incompat.Keys == g.incompat.Keys
    ensures forall t {:trigger incompat[t]} :: t in g.incompat && t != s ==> incompat[t] == g.incompat[t] - {s}
  {
    incompat := g.incompat;
    var todo := g.incompat[s];
    while todo != {}
      invariant todo <= g.incompat[s] && incompat.Keys == g.incompat.Keys
      invariant forall t {:trigger incompat[t]} :: t in g.incompat && t != s ==>
                  incompat[t] == g.incompat[t] - If(t in g.incompat[s] && t !in todo, s)
    {
      var c := Next(todo);
      assert c in g.incompat[s];
      incompat := incompat[c := incompat[c] - {s}];
      incompat := incompat[s := incompat[s] - {c}];
      todo := todo - {c};
    }
    forall t | t in g.incompat && t != s ensures incompat[t] == g.incompat[t] - {s} {
      assert s in g.incompat[t] ==> t in g.incompat[s];
    }
  }

  method DropProvider(p: map<string, set<Id>>, s: Id) returns (p': map<string, set<Id>>)
    ensures p' == Dropped(p, s)
  {
    p' := p;
    var todo := p.Keys;
    while todo != {}
      invariant todo <= p.Keys && p'.Keys == p.Keys
      invariant forall k {:trigger p'[k]} :: k in p ==> p'[k] == p[k] - If(k !in todo, s)
    {
      var k := NextName(todo);
      p' := p'[k := p'[k] - {s}];
      todo := todo - {k};
    }
  }

  /** Nobody has s as a provider any more: going through its children reaches all who had. */
  method DropFromChildren(g: Graph, s: Id) returns (parents: map<Id, map<string, set<Id>>>)
    requires s in g.children
    ensures parents.Keys == g.parents.Keys
    ensures forall t {:trigger parents[t]} :: t in g.parents && t != s ==> parents[t] == Dropped(g.parents[t], s)
  {
    parents := g.parents;
    var todo := g.children[s];
    while todo != {}
      invariant todo <= g.children[s] && parents.Keys == g.parents.Keys
      invariant forall t {:trigger parents[t]} :: t in g.parents && t != s ==>
                  parents[t] == if t in g.children[s] && t !in todo then Dropped(g.parents[t], s) else g.parents[t]
    {
      var c := Next(todo);
      assert c in g.children[s];
      var p := DropProvider(parents[c], s);
      parents := parents[c := p];
      todo := todo - {c};
    }
    forall t | t in g.parents && t != s ensures parents[t] == Dropped(g.parents[t], s) {
      if t !in g.children[s] {
        StrangerHasNone(g, s, t);
      }
    }
  }

  lemma StrangerHasNone(g: Graph, s: Id, t: Id)
    requires s in g.children && t in g.parents && t !in g.children[s]
    ensures Dropped(g.parents[t], s) == g.parents[t]
  {
    forall k | k in g.parents[t] ensures g.parents[t][k] - {s} == g.parents[t][k] {
      assert s !in g.parents[t][k];
    }
  }

  /** Nobody has s as a child any more: going through its providers reaches all who had. */
  method DropFromParents(g: Graph, s: Id) returns (children: map<Id, set<Id>>)
    requires s in g.parents
    ensures children.Keys == g.children.Keys
    ensures forall t {:trigger children[t]} :: t in g.children && t != s ==> children[t] == g.children[t] - {s}
  {
    children := g.children;
    var names := g.parents[s].Keys;
    while names != {}
      invariant names <= g.parents[s].Keys && children.Keys == g.children.Keys
      invariant forall t {:trigger children[t]} :: t in g.children && t != s ==>
                  children[t] <= g.children[t] && g.children[t] <= children[t] + {s}
      invariant forall d, t {:trigger t in g.parents[s][d]} ::
                  d in g.parents[s] && d !in names && t in g.parents[s][d] ==> s !in children[t]
    {
      var d := NextName(names);
      children := DropChild(g, children, s, d);
      names := names - {d};
    }
    forall t | t in g.children && t != s ensures children[t] == g.children[t] - {s} {
      if s in g.children[t] {
        assert DependsOn(g.parents, s, t);
        var d :| d in g.parents[s] && t in g.parents[s][d];
      }
    }
  }

  method DropChild(g: Graph, children: map<Id, set<Id>>, s: Id, d: string) returns (children': map<Id, set<Id>>)
    requires s in g.parents && d in g.parents[s] && children.Keys == g.children.Keys
    ensures children'.Keys == children.Keys
    ensures forall t {:trigger children'[t]} :: t in children ==>
        children'[t] == children[t] - If(t in g.parents[s][d], s)
  {
    children' := children;
    var todo := g.parents[s][d];
    while todo != {}
      invariant todo <= g.parents[s][d] && children'.Keys == children.Keys
      invariant forall t {:trigger children'[t]} :: t in children ==>
                  children'[t] == children[t] - If(t in g.parents[s][d] && t !in todo, s)
    {
      var t := Next(todo);
      assert t in g.parents[s][d];
      children' := children'[t := children'[t] - {s}];
      todo := todo - {t};
    }
  }

  /** The whole of `delManager`'s unlinking. */
  method Unlink(g: Graph, s: Id) returns (g': Links)
    requires s in g.parents
    ensures g' == Without(g, s)
  {
    var incompat := DropConflicts(g, s);
    var parents := DropFromChildren(g, s);
    var children := DropFromParents(g, s);
    g' := Links(parents - {s}, children - {s}, incompat - {s});
    ghost var h := Without(g, s);
    forall x | x in g.parents && x != s ensures SameAt(g', h, x) {}
    SameLinks(g', h, g.parents.Keys - {s});
  }

  lemma IndexWithout(attrs: map<Id, Attr>, s: Id)
    ensures Without(Index(attrs), s) == Index(attrs - {s})
  {
    var g, h := Without(Index(attrs), s), Index(attrs - {s});
    forall x | x in attrs && x != s ensures SameAt(g, h, x) {
      WithoutAt(attrs, s, x);
    }
    SameLinks(g, h, attrs.Keys - {s});
  }

  lemma WithoutAt(attrs: map<Id, Attr>, s: Id, x: Id)
    requires x in attrs && x != s
    ensures Dropped(AllParents(attrs, x), s) == AllParents(attrs - {s}, x)
    ensures AllChildren(attrs, x) - {s} == AllChildren(attrs - {s}, x)
    ensures AllIncompat(attrs, x) - {s} == AllIncompat(attrs - {s}, x)
  {
    forall d | d in attrs[x].depends
      ensures AllSuppliers(attrs, x, d) - {s} == AllSuppliers(attrs - {s}, x, d)
    {
    }
  }

  /** A service that is added and deleted again leaves the links of the others as they were. */
  lemma AddThenDelete(attrs: map<Id, Attr>, s: Id, a: Attr)
    requires s !in attrs
    ensures Without(Index(attrs[s := a]), s) == Index(attrs)
  {
    IndexWithout(attrs[s := a], s);
    assert attrs[s := a] - {s} == attrs;
  }

  lemma UnlinkedIsIndex(g: Links, attrs: map<Id, Attr>, s: Id)
    requires IsIndex(g, attrs)
    ensures IsIndex(Without(g, s), attrs - {s})
  {
    OnlyOneIndex(g, attrs);
    IndexWithout(attrs, s);
    OnlyOneIndex(Without(g, s), attrs - {s});
  }
}
