/** Service names and the rule by which a name satisfies a dependency or a conflict. */
module Names {

  /** What a service declares about itself. */
  datatype Attr = Attr(name: string, provided: seq<string>, depends: seq<string>, conflicts: seq<string>)

  /** The position of the first colon, or the length if there is none. */
  function Colon(s: string): (i: nat)
    ensures i <= |s| && (i < |s| ==> s[i] == ':')
    ensures forall j :: 0 <= j < i ==> s[j] != ':'
  {
    if s == [] || s[0] == ':' then 0 else 1 + Colon(s[1..])
  }

  /** The name cut at its first colon: the base, then the variant if there is one. */
  function Split(s: string): seq<string> {
    if Colon(s) == |s| then [s] else [s[..Colon(s)], s[Colon(s) + 1..]]
  }

  /** Whether `check`, a dependency or a conflict, is met by `name`. */
  predicate ServiceMatches(check: string, name: string) {
    var a1, a2 := Split(check), Split(name);
    if a1[0] != a2[0] then false
    else if |a1| == 1 then true
    else if |a2| == 1 then false
    else a1[1] == a2[1]
  }

  lemma ColonUnique(s: string, i: nat)
    requires i <= |s| && (i < |s| ==> s[i] == ':') && forall j :: 0 <= j < i ==> s[j] != ':'
    ensures Colon(s) == i
  {
  }

  /** A full name is met by itself only; a base name by itself and by each of its variants. */
  lemma MatchMeaning(check: string, name: string)
    ensures ServiceMatches(check, name) <==> name == check || (':' !in check && check + ":" <= name)
  {
    var c, n := Colon(check), Colon(name);
    assert c == |check| ==> check[..c] == check;
    assert n == |name| ==> name[..n] == name;
    assert c < |check| ==> check == check[..c] + ":" + check[c + 1..];
    assert n < |name| ==> name == name[..n] + ":" + name[n + 1..];
    if ':' !in check && check + ":" <= name {
      assert name[..|check|] == check && name[|check|] == ':';
      ColonUnique(name, |check|);
      ColonUnique(check, |check|);
    }
    if ':' in check {
      assert c < |check|;
    }
  }

  /** The service answers to `check` by its name or by something it provides. */
  predicate Matches(a: Attr, check: string) {
    ServiceMatches(check, a.name) || exists i :: 0 <= i < |a.provided| && ServiceMatches(check, a.provided[i])
  }

  /** The position of the first entry of `checks` the service answers to, or the length. */
  function FirstMatch(checks: seq<string>, a: Attr): (i: nat)
    ensures i <= |checks|
    ensures i < |checks| ==> Matches(a, checks[i])
    ensures forall j :: 0 <= j < i ==> !Matches(a, checks[j])
  {
    if checks == [] || Matches(a, checks[0]) then 0 else 1 + FirstMatch(checks[1..], a)
  }

  lemma FirstMatchUnique(checks: seq<string>, a: Attr, i: nat)
    requires i <= |checks| && (i < |checks| ==> Matches(a, checks[i]))
    requires forall j :: 0 <= j < i ==> !Matches(a, checks[j])
    ensures FirstMatch(checks, a) == i
  {
  }

  predicate AnyMatch(checks: seq<string>, a: Attr) {
    FirstMatch(checks, a) < |checks|
  }

  /** The search both loops of `setManager` make: it stops at the first match. */
  method FindMatch(checks: seq<string>, a: Attr) returns (i: nat)
    ensures i == FirstMatch(checks, a)
  {
    i := 0;
    while i < |checks|
      invariant i <= |checks|
      invariant forall j :: 0 <= j < i ==> !Matches(a, checks[j])
    {
      if Matches(a, checks[i]) {
        break;
      }
      i := i + 1;
    }
    FirstMatchUnique(checks, a, i);
  }
}
