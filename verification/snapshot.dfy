/** Reading a service over the wire: the loop of `getService` reads the fields one by one, giving
    the lock back after each, and starts again until the serial has held still. */
module Snapshots {
  import opened Linkage
  import opened Supervision

  // ---------------------------------------------------------------- what may happen between two reads

  /** Any locked operation, or any number of them, after which service t is in the manager still. */
  ghost predicate Moves(v: SoundView, v': SoundView, t: Id) {
    Onward(v, v') && t in v.st && t in v'.st
  }

  // ---------------------------------------------------------------- the reader

  /** Where the reader is in its loop: the next thing it will read. */
  datatype Next = AtSerial | AtEnabled | AtRunning | AtFailed | AtStatus | AtCheck | Left

  /** The manager's state, and the reader's: `info` as far as it is filled in, `sn` the serial that
      will be its Etag. `first` is the state at the top of the current round. */
  datatype Reading = Reading(v: SoundView, next: Next, sn: int, info: Visible, first: SoundView)

  /** An operation by somebody else, leading to v; or the reader's next step. */
  datatype Action = Operate(v: SoundView) | Read

  ghost predicate Can(r: Reading, t: Id, a: Action) {
    t in r.v.st && match a
    case Operate(v) => Moves(r.v, v, t)
    case Read => r.next != Left
  }

  ghost function After(r: Reading, t: Id, a: Action): Reading
    requires Can(r, t, a)
  {
    match a
    case Operate(v) => r.(v := v)
    case Read =>
      var now := Seen(r.v, t);
      match r.next
      case AtSerial => r.(next := AtEnabled, sn := r.v.tags[t].serial, first := r.v)
      case AtEnabled => r.(next := AtRunning, info := r.info.(enabled := now.enabled))
      case AtRunning => r.(next := AtFailed, info := r.info.(running := now.running))
      case AtFailed => r.(next := AtStatus, info := r.info.(failed := now.failed))
      case AtStatus => r.(next := AtCheck, info := r.info.(reason := now.reason, stamp := now.stamp))
      case AtCheck => r.(next := if r.v.tags[t].serial == r.sn then Left else AtSerial)
      case Left => r
  }

  ghost predicate Possible(r: Reading, t: Id, run: seq<Action>)
    decreases |run|
  {
    run == [] || (Can(r, t, run[0]) && Possible(After(r, t, run[0]), t, run[1..]))
  }

  ghost function End(r: Reading, t: Id, run: seq<Action>): Reading
    requires Possible(r, t, run)
    decreases |run|
  {
    if run == [] then r else End(After(r, t, run[0]), t, run[1..])
  }

  // ---------------------------------------------------------------- the invariant

  /** The service has changed since the top of the round, and its serial tells. */
  ghost predicate Stale(r: Reading, t: Id)
    requires t in r.v.tags
  {
    r.first.serial < r.v.tags[t].serial
  }

  function Rank(n: Next): nat {
    match n
    case AtSerial => 0
    case AtEnabled => 1
    case AtRunning => 2
    case AtFailed => 3
    case AtStatus => 4
    case AtCheck => 5
    case Left => 6
  }

  /** What has been read in this round is what was there at its top, unless the serial has moved. */
  ghost predicate ReadSoFar(r: Reading, t: Id)
    requires t in r.first.st && t in r.v.st
  {
    var top := Seen(r.first, t);
    Stale(r, t) || (
      && (Rank(r.next) > 1 ==> r.info.enabled == top.enabled)
      && (Rank(r.next) > 2 ==> r.info.running == top.running)
      && (Rank(r.next) > 3 ==> r.info.failed == top.failed)
      && (Rank(r.next) > 4 ==> r.info.reason == top.reason && r.info.stamp == top.stamp))
  }

  ghost predicate InRound(r: Reading, t: Id) {
    && t in r.first.st && r.sn == r.first.tags[t].serial
    && Moves(r.first, r.v, t)
    && ReadSoFar(r, t)
  }

  ghost predicate Inv(r: Reading, t: Id) {
    t in r.v.st && match r.next
    case AtSerial => true
    case Left => true
    case _ => InRound(r, t)
  }

  lemma OperateKeepsInv(r: Reading, t: Id, v: SoundView)
    requires Inv(r, t) && Moves(r.v, v, t)
    ensures Inv(r.(v := v), t)
  {
    if r.next != AtSerial && r.next != Left {
      OnwardIsTransitive(r.first, r.v, v);
      Serials(r.v);
      assert OnwardAt(r.first, r.v, t) && OnwardAt(r.v, v, t) && NotAbove(r.v.tags, r.v.serial, t);
    }
  }

  lemma ReadKeepsInv(r: Reading, t: Id)
    requires Inv(r, t) && Can(r, t, Read)
    ensures Inv(After(r, t, Read), t)
  {
    if r.next != AtSerial {
      Serials(r.first);
      assert OnwardAt(r.first, r.v, t) && NotAbove(r.first.tags, r.first.serial, t);
    }
  }

  lemma StepKeepsInv(r: Reading, t: Id, a: Action)
    requires Inv(r, t) && Can(r, t, a)
    ensures Inv(After(r, t, a), t)
  {
    match a
    case Operate(v) => OperateKeepsInv(r, t, v);
    case Read => ReadKeepsInv(r, t);
  }

  lemma {:induction false} RunKeepsInv(r: Reading, t: Id, run: seq<Action>)
    requires Inv(r, t) && Possible(r, t, run)
    ensures Inv(End(r, t, run), t)
    decreases |run|
  {
    if run != [] {
      StepKeepsInv(r, t, run[0]);
      RunKeepsInv(After(r, t, run[0]), t, run[1..]);
    }
  }

  // ---------------------------------------------------------------- what the client gets

  /** The reader's next step is the last: the serial has held still. */
  ghost predicate Leaves(r: Reading, t: Id) {
    r.next == AtCheck && Can(r, t, Read) && After(r, t, Read).next == Left
  }

  lemma LeavesWithTheState(r: Reading, t: Id)
    requires Inv(r, t) && Leaves(r, t)
    ensures After(r, t, Read).info == Seen(r.v, t) && After(r, t, Read).sn == r.v.tags[t].serial
  {
    Serials(r.first);
    assert OnwardAt(r.first, r.v, t) && NotAbove(r.first.tags, r.first.serial, t);
  }

  /** However the reader's steps interleave with operations, at the moment its loop is left all it
      has read, field by field, is the state the service is in, and the Etag is its serial. */
  lemma {:induction false} OneCommittedState(r: Reading, t: Id, run: seq<Action>)
    requires t in r.v.st && r.next == AtSerial && Possible(r, t, run) && Leaves(End(r, t, run), t)
    ensures var e := After(End(r, t, run), t, Read);
            e.info == Seen(e.v, t) && e.sn == e.v.tags[t].serial
  {
    RunKeepsInv(r, t, run);
    LeavesWithTheState(End(r, t, run), t);
  }

  // ---------------------------------------------------------------- the Etag

  const DIGITS: string := "0123456789abcdef"

  /** strconv.FormatInt(n, 16), for n >= 0 */
  function Hex(n: nat): (s: string)
    ensures |s| > 0
  {
    (if n < 16 then "" else Hex(n / 16)) + [DIGITS[n % 16]]
  }

  function FormatInt(n: int): string {
    if n < 0 then "-" + Hex(-n) else Hex(n)
  }

  function Etag(n: int): string {
    "\"" + FormatInt(n) + "\""
  }

  lemma DigitsDiffer(i: nat, j: nat)
    requires i < 16 && j < 16 && DIGITS[i] == DIGITS[j]
    ensures i == j
  {
  }

  lemma HexEnds(n: nat)
    ensures var h := Hex(n);
            h[|h| - 1] == DIGITS[n % 16] && h[..|h| - 1] == if n < 16 then "" else Hex(n / 16)
  {
  }

  lemma {:induction false} HexTells(m: nat, n: nat)
    requires Hex(m) == Hex(n)
    ensures m == n
  {
    HexEnds(m);
    HexEnds(n);
    DigitsDiffer(m % 16, n % 16);
    if m >= 16 && n >= 16 {
      HexTells(m / 16, n / 16);
    }
  }

  lemma {:induction false} HexHasNoSign(n: nat)
    ensures '-' !in Hex(n)
  {
    if n >= 16 {
      HexHasNoSign(n / 16);
    }
  }

  lemma EtagsTell(m: int, n: int)
    ensures Etag(m) == Etag(n) <==> m == n
  {
    var a, b := FormatInt(m), FormatInt(n);
    assert Etag(m)[1..|a| + 1] == a && Etag(n)[1..|b| + 1] == b;
    if a == b {
      HexHasNoSign(if m < 0 then -m else m);
      HexHasNoSign(if n < 0 then -n else n);
      assert m < 0 <==> '-' in a;
      assert m < 0 ==> a[1..] == Hex(-m);
      assert n < 0 ==> b[1..] == Hex(-n);
      HexTells(if m < 0 then -m else m, if n < 0 then -n else n);
    }
  }

  /** A client that shows the Etag of an earlier answer is told "not modified" only if the service
      is as it was then. */
  lemma NotModifiedIsTrue(v: SoundView, v': SoundView, t: Id)
    requires Moves(v, v', t) && Etag(v'.tags[t].serial) == Etag(v.tags[t].serial)
    ensures Seen(v', t) == Seen(v, t)
  {
    EtagsTell(v'.tags[t].serial, v.tags[t].serial);
    assert OnwardAt(v, v', t);
  }
}
