/** The log of a manager or a service: a ring of records written in place. */
module Logs {
  import opened Rings

  datatype Record = Record(id: int, time: int, text: string)

  // ---------------------------------------------------------------- lines

  /** strings.Trim(s, "\n") */
  function Trim(s: string): (r: string)
    ensures r == "" || (r[0] != '\n' && r[|r| - 1] != '\n')
    ensures |r| <= |s|
  {
    if s == "" then ""
    else if s[0] == '\n' then Trim(s[1..])
    else if s[|s| - 1] == '\n' then Trim(s[..|s| - 1])
    else s
  }

  function Newlines(n: nat): string {
    seq(n, _ => '\n')
  }

  lemma OneMoreNewline(n: nat)
    ensures "\n" + Newlines(n) == Newlines(n) + "\n" == Newlines(n + 1)
  {
  }

  /** Only newlines are trimmed, and only at the ends. */
  lemma {:induction false} TrimDropsNewlines(s: string) returns (a: nat, b: nat)
    ensures s == Newlines(a) + Trim(s) + Newlines(b)
  {
    a, b := 0, 0;
    if s != "" && s[0] == '\n' {
      a, b := TrimDropsNewlines(s[1..]);
      OneMoreNewline(a);
      assert s == "\n" + s[1..] == "\n" + Newlines(a) + Trim(s) + Newlines(b);
      a := a + 1;
    } else if s != "" && s[|s| - 1] == '\n' {
      a, b := TrimDropsNewlines(s[..|s| - 1]);
      OneMoreNewline(b);
      assert s == s[..|s| - 1] + "\n" == Newlines(a) + Trim(s) + (Newlines(b) + "\n");
      b := b + 1;
    }
  }

  /** strings.Split(s, "\n") */
  function Lines(s: string): (lines: seq<string>)
    ensures |lines| > 0
  {
    if s == "" then [""]
    else
      var rest := Lines(s[1..]);
      if s[0] == '\n' then [""] + rest else [[s[0]] + rest[0]] + rest[1..]
  }

  function Join(lines: seq<string>): string
    requires |lines| > 0
  {
    if |lines| == 1 then lines[0] else lines[0] + "\n" + Join(lines[1..])
  }

  /** Splitting loses nothing, and no line has a newline in it. */
  lemma {:induction false} LinesJoin(s: string)
    ensures Join(Lines(s)) == s
    ensures forall i :: 0 <= i < |Lines(s)| ==> '\n' !in Lines(s)[i]
  {
    if s != "" {
      LinesJoin(s[1..]);
      var rest := Lines(s[1..]);
      if s[0] == '\n' {
        assert ([""] + rest)[1..] == rest;
      } else {
        assert ([[s[0]] + rest[0]] + rest[1..])[1..] == rest[1..];
      }
    }
  }

  // ---------------------------------------------------------------- what a log stands for

  /** The lines written since the last clear, and the id of the latest. */
  datatype Content = Content(lines: seq<string>, id: int)

  datatype Op = Write(b: string) | Clear(now: int)

  function Texts(records: seq<Record>): (texts: seq<string>)
    ensures |texts| == |records|
  {
    seq(|records|, i requires 0 <= i < |records| => records[i].text)
  }

  function Written(c: Content, b: string): Content {
    Content(c.lines + Lines(Trim(b)), c.id + |Lines(Trim(b))|)
  }

  function Apply(c: Content, op: Op): Content {
    match op
    case Write(b) => Written(c, b)
    case Clear(now) => Content([], now)
  }

  function ApplyAll(c: Content, ops: seq<Op>): Content
    decreases |ops|
  {
    if ops == [] then c else ApplyAll(Apply(c, ops[0]), ops[1..])
  }

  /** Every clear is stamped with a time greater than the id there is. */
  predicate ClearsAreLate(c: Content, ops: seq<Op>)
    decreases |ops|
  {
    ops == [] || ((ops[0].Clear? ==> ops[0].now > c.id) && ClearsAreLate(Apply(c, ops[0]), ops[1..]))
  }

  lemma {:induction false} IdsOnlyGrow(c: Content, ops: seq<Op>)
    requires ClearsAreLate(c, ops)
    ensures if ops == [] then ApplyAll(c, ops) == c else c.id < ApplyAll(c, ops).id
    decreases |ops|
  {
    if ops != [] {
      IdsOnlyGrow(Apply(c, ops[0]), ops[1..]);
    }
  }

  /** As long as clears are late, a log with the same id is the same log. */
  lemma SameIdSameLog(c: Content, ops: seq<Op>)
    requires ClearsAreLate(c, ops) && ApplyAll(c, ops).id == c.id
    ensures ApplyAll(c, ops) == c
  {
    IdsOnlyGrow(c, ops);
  }

  /** n empty lines, one write each. */
  function Blanks(n: nat): (ops: seq<Op>)
    ensures |ops| == n
  {
    seq(n, _ => Write(""))
  }

  lemma {:induction false} BlanksCount(c: Content, n: nat)
    ensures ApplyAll(c, Blanks(n)).id == c.id + n
    decreases n
  {
    if n > 0 {
      assert Blanks(n)[1..] == Blanks(n - 1);
      BlanksCount(Apply(c, Write("")), n - 1);
    }
  }

  /** A clear is noticed by everyone who has read the log exactly if it is late: otherwise some
      writes after it bring back the id the reader knows. */
  lemma ClearNoticedOnlyIfLate(c: Content, now: int)
    ensures (forall ops :: Writes(ops) ==> ApplyAll(c, [Clear(now)] + ops).id != c.id) <==> now > c.id
  {
    forall ops | Writes(ops) && now > c.id ensures ApplyAll(c, [Clear(now)] + ops).id != c.id {
      WritesAreLate(Content([], now), ops);
      assert ([Clear(now)] + ops)[1..] == ops;
      IdsOnlyGrow(Content([], now), ops);
    }
    if now <= c.id {
      var ops := Blanks(c.id - now);
      assert ([Clear(now)] + ops)[1..] == ops;
      BlanksCount(Content([], now), c.id - now);
      assert Writes(ops);
    }
  }

  predicate Writes(ops: seq<Op>) {
    forall i {:trigger ops[i]} :: 0 <= i < |ops| ==> ops[i].Write?
  }

  lemma {:induction false} WritesAreLate(c: Content, ops: seq<Op>)
    requires Writes(ops)
    ensures ClearsAreLate(c, ops)
    decreases |ops|
  {
    if ops != [] {
      assert ops[0].Write?;
      assert Writes(ops[1..]);
      WritesAreLate(Apply(c, ops[0]), ops[1..]);
    }
  }

  // ---------------------------------------------------------------- the ring

  method Now() returns (t: int)
  {
    t := *;
  }

  class Log {
    const maxRecords: int
    const records: array<Record>
    var numRecords: nat
    var id: int
    ghost var history: seq<Record>  // every record since the last clear

    constructor (max: int, now: int)
      requires max > 0
      ensures Valid() && maxRecords == max && Contents() == Content([], now) && fresh(records)
    {
      maxRecords := max;
      records := new Record[max](_ => Record(0, 0, ""));
      numRecords, id, history := 0, now, [];
    }

    /** The records that can still be read have consecutive ids, the last one the id of the log. */
    ghost predicate Valid()
      reads this, records
    {
      && records.Length == maxRecords > 0
      && |history| == numRecords && Holds(records[..], history)
      && forall i {:trigger history[i]} :: 0 <= i < numRecords ==> history[i].id == id - numRecords + 1 + i
    }

    ghost function Contents(): Content
      reads this
    {
      Content(Texts(history), id)
    }

    method WriteLine(line: string)
      requires Valid()
      modifies this, records
      ensures Valid() && Contents() == Content(old(Contents()).lines + [line], old(id) + 1)
    {
      var idx := numRecords % maxRecords;
      id := id + 1;
      var now := Now();
      var r := Record(id, now, line);
      PutKeeps(records[..], history, r);
      ghost var ring := records[..][idx := r];
      records[idx] := r;
      assert records[..] == ring;
      history := history + [r];
      numRecords := numRecords + 1;
      assert Texts(history) == old(Contents()).lines + [line];
    }

    method Write(b: string) returns (n: nat)
      requires Valid()
      modifies this, records
      ensures Valid() && Contents() == Apply(old(Contents()), Op.Write(b)) && n == |b|
    {
      var lines := Lines(Trim(b));
      for i := 0 to |lines|
        invariant Valid() && Contents() == Content(old(Contents()).lines + lines[..i], old(id) + i)
      {
        WriteLine(lines[i]);
      }
      assert lines[..|lines|] == lines;
      n := |b|;
    }

    method Clear(now: int)
      requires Valid()
      modifies this
      ensures Valid() && Contents() == Apply(old(Contents()), Op.Clear(now))
    {
      numRecords := 0;
      id := now;
      history := [];
    }

    /** The latest `maxRecords` of the lines since the last clear, oldest first; or nothing, if the
        caller has seen them. */
    method GetRecords(last: int) returns (recs: seq<Record>, seen: int)
      requires Valid()
      ensures seen == id
      ensures last == id ==> recs == []
      ensures last != id ==> Texts(recs) == Tail(Contents().lines, maxRecords)
      ensures forall i {:trigger recs[i]} :: 0 <= i < |recs| ==> recs[i].id == id - |recs| + 1 + i
    {
      recs := [];
      if id == last {
        return recs, last;
      }
      var cnt := if numRecords > maxRecords then maxRecords else numRecords;
      var index := numRecords - cnt;
      for j := 0 to cnt
        invariant index == numRecords - cnt + j
        invariant recs == history[numRecords - cnt..index]
      {
        assert history[index] == records[..][index % maxRecords];
        recs := recs + [records[index % maxRecords]];
        index := index + 1;
      }
      assert Texts(recs) == Texts(history)[numRecords - cnt..];
      return recs, id;
    }
  }

  /** The last n elements, or all there are. */
  function Tail(lines: seq<string>, n: nat): seq<string> {
    if |lines| <= n then lines else lines[|lines| - n..]
  }
}
