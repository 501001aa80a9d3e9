/** The agent's disk spool: an append-only line file with a cap.  The file is
    the field `lines`; a line the JSON parser refuses (blank, or torn by a
    power cut) is `Junk`. */
module DiskSpool {

  datatype Line<+T> = Rec(r: T) | Junk

  const MIN_CAP: nat := 1000
  const DEFAULT_CAP: nat := 50000

  /** The records a reader gets from the file, oldest first. */
  function Records<T>(lines: seq<Line<T>>): (rs: seq<T>) {
    if lines == [] then []
    else (if lines[0].Rec? then [lines[0].r] else []) + Records(lines[1..])
  }

  function Written<T>(rs: seq<T>): (ls: seq<Line<T>>) {
    seq(|rs|, i requires 0 <= i < |rs| => Rec(rs[i]))
  }

  ghost predicate Readable<T>(lines: seq<Line<T>>) {
    forall i :: 0 <= i < |lines| ==> lines[i].Rec?
  }

  /** `s` without its `n` oldest elements. */
  function Without<T>(s: seq<T>, n: nat): seq<T> {
    if n >= |s| then [] else s[n..]
  }

  function AtMost<T>(s: seq<T>, n: nat): seq<T> {
    if n >= |s| then s else s[..n]
  }

  /** How many of `total` lines the cap drops. */
  function Excess(total: nat, cap: nat): nat {
    if total > cap then total - cap else 0
  }

  /** The file after `append(rs)`: the newest `cap` lines of old and new. */
  function Appended<T>(lines: seq<Line<T>>, rs: seq<T>, cap: nat): seq<Line<T>> {
    if rs == [] then lines
    else Without(lines + Written(rs), Excess(|lines| + |rs|, cap))
  }

  /** The lines it drops for that. */
  function DroppedLines<T>(lines: seq<Line<T>>, rs: seq<T>, cap: nat): seq<Line<T>> {
    if rs == [] then [] else AtMost(lines + Written(rs), Excess(|lines| + |rs|, cap))
  }

  /** One acknowledged spool check-in: `peek(n)`, then `remove_oldest` of as
      many lines as records were sent. */
  function AckRound<T>(lines: seq<Line<T>>, n: nat): seq<Line<T>> {
    Without(lines, |AtMost(Records(lines), n)|)
  }

  function AckRounds<T>(lines: seq<Line<T>>, n: nat, rounds: nat): seq<Line<T>>
    decreases rounds
  {
    if rounds == 0 then lines else AckRounds(AckRound(lines, n), n, rounds - 1)
  }

  // ---------------------------------------------------------------- lemmas

  lemma {:induction false} RecordsConcat<T>(a: seq<Line<T>>, b: seq<Line<T>>)
    ensures Records(a + b) == Records(a) + Records(b)
  {
    hide Records;
    if a == [] {
      assert a + b == b;
      RecordsOfNone<T>();
    } else {
      var rest, head := a[1..], if a[0].Rec? then [a[0].r] else [];
      assert (a + b)[0] == a[0] && (a + b)[1..] == rest + b;
      RecordsConcat(rest, b);
      RecordsOfFirst(a);
      RecordsOfFirst(a + b);
      Grouped(head, Records(rest), Records(b));
    }
  }

  lemma Grouped<T>(a: seq<T>, b: seq<T>, c: seq<T>)
    ensures (a + b) + c == a + (b + c)
  {
  }

  lemma RecordsOfFirst<T>(a: seq<Line<T>>)
    requires a != []
    ensures Records(a) == (if a[0].Rec? then [a[0].r] else []) + Records(a[1..])
  {
  }

  lemma {:induction false} RecordsOfWritten<T>(rs: seq<T>)
    ensures Records(Written(rs)) == rs && Readable(Written(rs))
  {
    if rs != [] {
      RecordsOfWritten(rs[1..]);
      assert Written(rs)[1..] == Written(rs[1..]);
    }
  }

  lemma {:induction false} RecordsBound<T>(lines: seq<Line<T>>)
    ensures |Records(lines)| <= |lines|
    ensures |Records(lines)| == |lines| <==> Readable(lines)
  {
    if lines != [] {
      RecordsBound(lines[1..]);
      assert lines == [lines[0]] + lines[1..];
      assert Readable(lines) <==> lines[0].Rec? && Readable(lines[1..]);
    }
  }

  /** On a clean file, lines and records are the same sequence, so dropping
      lines drops exactly the records peeked. */
  lemma {:induction false} CleanRecords<T>(lines: seq<Line<T>>)
    requires Readable(lines)
    ensures lines == Written(Records(lines)) && |Records(lines)| == |lines|
  {
    if lines != [] {
      CleanRecords(lines[1..]);
      assert lines == [lines[0]] + lines[1..];
      assert lines == Written(Records(lines));
    }
  }

  lemma CleanDrop<T>(lines: seq<Line<T>>, n: nat)
    requires Readable(lines)
    ensures Readable(Without(lines, n))
    ensures Records(Without(lines, n)) == Without(Records(lines), n)
  {
    CleanRecords(lines);
    if n < |lines| {
      assert Readable(lines[n..]);
      CleanRecords(lines[n..]);
      var a, b := Records(lines[n..]), Records(lines)[n..];
      assert |a| == |b|;
      forall i | 0 <= i < |a| ensures a[i] == b[i] {
        assert Written(Records(lines))[n + i] == lines[n + i];
        assert Written(Records(lines[n..]))[i] == lines[n..][i];
      }
    }
  }

  lemma Halves<T>(s: seq<T>, n: nat)
    ensures AtMost(s, n) + Without(s, n) == s
  {
  }

  /** `append`, to any file, never leaves more than `cap` lines, keeps the newest
      ones and drops only from the oldest end; it adds no unreadable line. */
  lemma AppendedRecords<T>(lines: seq<Line<T>>, rs: seq<T>, cap: nat)
    ensures Readable(lines) ==> Readable(Appended(lines, rs, cap))
    ensures rs != [] ==> |Appended(lines, rs, cap)| <= cap
    ensures Records(lines) + rs == Records(DroppedLines(lines, rs, cap)) + Records(Appended(lines, rs, cap))
  {
    if rs == [] {
      assert Records(lines) + rs == [] + Records(lines);
    } else {
      var all, e := lines + Written(rs), Excess(|lines| + |rs|, cap);
      RecordsOfWritten(rs);
      RecordsConcat(lines, Written(rs));
      Halves(all, e);
      RecordsConcat(AtMost(all, e), Without(all, e));
    }
  }

  /** Exactly how much an append keeps: everything if it fits, else the newest
      `cap` lines of old and new together. */
  lemma AppendKeepsNewest<T>(lines: seq<Line<T>>, rs: seq<T>, cap: nat)
    ensures rs == [] ==> Appended(lines, rs, cap) == lines
    ensures rs != [] ==>
              var all := lines + Written(rs);
              var kept := if |lines| + |rs| <= cap then |lines| + |rs| else cap;
              Appended(lines, rs, cap) == all[|all| - kept..] && DroppedLines(lines, rs, cap) == all[..|all| - kept]
  {
  }

  lemma OldestOfReadable<T>(lines: seq<Line<T>>, n: nat)
    requires Readable(lines)
    ensures Records(AtMost(lines, n)) == AtMost(Records(lines), n)
  {
    hide Records;
    CleanRecords(lines);
    var rs := Records(lines);
    assert AtMost(lines, n) == AtMost(Written(rs), n) == Written(AtMost(rs, n));
    RecordsOfWritten(AtMost(rs, n));
  }

  /** On a readable file the records dropped are the oldest ones, one a line. */
  lemma DroppedRecords<T>(lines: seq<Line<T>>, rs: seq<T>, cap: nat)
    requires Readable(lines)
    ensures Records(DroppedLines(lines, rs, cap))
         == AtMost(Records(lines) + rs, if rs != [] && |lines| + |rs| > cap then |lines| + |rs| - cap else 0)
  {
    hide Records;
    RecordsOfWritten(rs);
    RecordsConcat(lines, Written(rs));
    AllReadable(lines, Written(rs));
    if rs == [] {
      RecordsOfNone<T>();
      NoneOf(Records(lines) + rs);
    } else {
      OldestOfReadable(lines + Written(rs), Excess(|lines| + |rs|, cap));
      hide Readable, AtMost;
    }
  }

  lemma RecordsOfNone<T>()
    ensures Records<T>([]) == []
  {
  }

  lemma NoneOf<T>(s: seq<T>)
    ensures AtMost(s, 0) == []
  {
  }

  lemma AllReadable<T>(a: seq<Line<T>>, b: seq<Line<T>>)
    requires Readable(a) && Readable(b)
    ensures Readable(a + b)
  {
  }

  lemma PartsReadable<T>(lines: seq<Line<T>>, n: nat)
    requires Readable(lines)
    ensures Readable(AtMost(lines, n)) && Readable(Without(lines, n))
  {
  }

  /** Dropping only unreadable lines of a readable file is dropping none. */
  lemma ReadableDrop<T>(lines: seq<Line<T>>, rs: seq<T>, cap: nat)
    requires Readable(lines)
    ensures Records(DroppedLines(lines, rs, cap)) == [] <==> DroppedLines(lines, rs, cap) == []
    ensures DroppedLines(lines, rs, cap) == [] <==> (rs == [] || |lines| + |rs| <= cap)
  {
    RecordsOfWritten(rs);
    AllReadable(lines, Written(rs));
    if rs != [] { PartsReadable(lines + Written(rs), Excess(|lines| + |rs|, cap)); }
    hide Records;
    RecordsBound(DroppedLines(lines, rs, cap));
  }

  /** Acknowledging one batch removes from the file exactly the records that
      were sent if and only if no unparsable line precedes the last of them. */
  lemma AckIsExactIffPrefixClean<T>(lines: seq<Line<T>>, n: nat)
    ensures var k := |AtMost(Records(lines), n)|;
            k <= |lines| &&
            (Records(AckRound(lines, n)) == Without(Records(lines), k) <==> Readable(lines[..k]))
  {
    var k := |AtMost(Records(lines), n)|;
    RecordsBound(lines);
    RecordsConcat(lines[..k], lines[k..]);
    assert lines[..k] + lines[k..] == lines;
    RecordsBound(lines[..k]);
    assert AckRound(lines, n) == lines[k..];
    var front, back := Records(lines[..k]), Records(lines[k..]);
    assert Records(lines) == front + back;
    if Readable(lines[..k]) {
      assert |front| == k;
      assert Without(Records(lines), k) == back;
    } else {
      assert |front| < k;
      assert |back| != |Without(Records(lines), k)|;
    }
  }

  ghost predicate EndsReadable<T>(lines: seq<Line<T>>) {
    lines == [] || lines[|lines| - 1].Rec?
  }

  /** While the last line is readable, every acknowledged round shrinks the
      file and leaves its last line readable. */
  lemma AckRoundProgress<T>(lines: seq<Line<T>>, n: nat)
    requires n > 0 && lines != [] && EndsReadable(lines)
    ensures |AckRound(lines, n)| < |lines| && EndsReadable(AckRound(lines, n))
  {
    RecordsBound(lines);
    var last := |lines| - 1;
    RecordsConcat(lines[..last], lines[last..]);
    assert lines[..last] + lines[last..] == lines;
    assert Records(lines[last..]) == [lines[last].r];
  }

  /** If the last line is unparsable, no number of acknowledged rounds ever
      empties the file. */
  lemma {:induction false} JunkTailNeverDrains<T>(lines: seq<Line<T>>, n: nat, rounds: nat)
    requires !EndsReadable(lines)
    ensures AckRounds(lines, n, rounds) != []
    decreases rounds
  {
    hide AckRound, EndsReadable, Records;
    if rounds == 0 {
      JunkTailIsSomething(lines);
    } else {
      JunkTailStays(lines, n);
      JunkTailNeverDrains(AckRound(lines, n), n, rounds - 1);
    }
  }

  lemma JunkTailIsSomething<T>(lines: seq<Line<T>>)
    requires !EndsReadable(lines)
    ensures lines != []
  {
  }

  lemma JunkTailStays<T>(lines: seq<Line<T>>, n: nat)
    requires !EndsReadable(lines)
    ensures !EndsReadable(AckRound(lines, n))
  {
    RecordsBound(lines);
    assert !Readable(lines);
    hide Records, Readable;
  }

  lemma {:induction false} ReadableTailDrains<T>(lines: seq<Line<T>>, n: nat)
    requires n > 0 && EndsReadable(lines)
    ensures AckRounds(lines, n, |lines|) == []
    decreases |lines|
  {
    if lines != [] {
      var rest := AckRound(lines, n);
      AckRoundProgress(lines, n);
      ReadableTailDrains(rest, n);
      AckRoundsFixedAtEmpty(rest, n, |rest|, |lines| - 1);
    }
  }

  lemma {:induction false} AckRoundsFixedAtEmpty<T>(lines: seq<Line<T>>, n: nat, a: nat, b: nat)
    requires a <= b && AckRounds(lines, n, a) == []
    ensures AckRounds(lines, n, b) == []
    decreases b
  {
    if b > 0 {
      var rest := AckRound(lines, n);
      if a > 0 {
        AckRoundsFixedAtEmpty(rest, n, a - 1, b - 1);
      } else {
        assert rest == [];
        AckRoundsFixedAtEmpty(rest, n, 0, b - 1);
      }
    }
  }

  /** The reconnect loop empties the spool of an answering server if and only
      if the file's last line parses. */
  lemma BacklogDrainsIffLastLineParses<T>(lines: seq<Line<T>>, n: nat)
    requires n > 0
    ensures (exists rounds: nat :: AckRounds(lines, n, rounds) == []) <==> EndsReadable(lines)
  {
    if EndsReadable(lines) {
      ReadableTailDrains(lines, n);
    } else {
      forall rounds: nat ensures AckRounds(lines, n, rounds) != [] {
        JunkTailNeverDrains(lines, n, rounds);
      }
    }
  }

  // ------------------------------------------------------------- the class

  class Spool<T> {
    var lines: seq<Line<T>>
    var count: nat
    const cap: nat

    ghost predicate Valid() reads this {
      count == |lines| && cap >= MIN_CAP
    }

    /** `configured` is 0 when the configuration names no limit. */
    constructor (existing: seq<Line<T>>, configured: int)
      ensures Valid() && lines == existing
      ensures cap == (if configured == 0 then 50000 else if configured < 1000 then 1000 else configured)
    {
      var wanted := if configured == 0 then DEFAULT_CAP else configured;
      cap := if wanted < MIN_CAP then MIN_CAP else wanted;
      lines := existing;
      new;
      count := CountLines();
    }

    method CountLines() returns (n: nat)
      ensures n == |lines|
    {
      n := 0;
      for i := 0 to |lines|
        invariant n == i
      {
        n := n + 1;
      }
    }

    /** The rewrite loop shared by both trims. */
    method TrimOldest(n: nat)
      modifies this
      ensures lines == Without(old(lines), n) && count == |lines|
    {
      var dst := [];
      var kept := 0;
      for i := 0 to |lines|
        invariant dst == (if i <= n then [] else lines[n..i]) && kept == |dst|
        invariant lines == old(lines)
      {
        if i >= n {
          dst := dst + [lines[i]];
          kept := kept + 1;
        }
      }
      lines, count := dst, kept;
    }

    method Append(results: seq<T>)
      requires Valid()
      modifies this
      ensures Valid() && lines == Appended(old(lines), results, cap)
      ensures results == [] ==> lines == old(lines)
      ensures results != [] ==> |lines| == if |old(lines)| + |results| <= cap then |old(lines)| + |results| else cap
      ensures lines == (old(lines) + Written(results))[|old(lines)| + |results| - |lines|..]
    {
      if results == [] { return; }
      for i := 0 to |results|
        invariant lines == old(lines) + Written(results[..i])
        invariant count == old(count)
      {
        lines := lines + [Rec(results[i])];
        assert Written(results[..i + 1]) == Written(results[..i]) + [Rec(results[i])];
      }
      assert results[..|results|] == results;
      count := count + |results|;
      if count > cap {
        TrimOldest(count - cap);
      }
    }

    method Peek(n: nat) returns (out: seq<T>)
      ensures out == AtMost(Records(lines), n)
      ensures out <= Records(lines) && |out| == if |Records(lines)| <= n then |Records(lines)| else n
    {
      out := [];
      var i := 0;
      while i < |lines|
        invariant 0 <= i <= |lines| && |out| <= n
        invariant out + Records(lines[i..]) == Records(lines)
      {
        if |out| >= n { break; }
        if lines[i].Rec? {
          out := out + [lines[i].r];
        }
        assert lines[i..][1..] == lines[i + 1..];
        i := i + 1;
      }
    }

    /** `diskOk` is false when the rewrite fails; the file then stays as it was. */
    method RemoveOldest(n: nat, diskOk: bool)
      requires Valid()
      modifies this
      ensures Valid()
      ensures lines == if diskOk then Without(old(lines), n) else old(lines)
      ensures diskOk ==> lines == if n <= |old(lines)| then old(lines)[n..] else []
    {
      if n == 0 { return; }
      if diskOk {
        TrimOldest(n);
      } else {
        count := CountLines();
      }
    }
  }
}
