/** How probe results travel from the live buffer to the server, with the disk
    spool in between.  `Pipe` is the state the check-in thread, the probe
    threads and the task thread share; each function below is one atomic region
    of `agent.py`. */
module ResultPipeline {
  import opened DiskSpool
  import opened Results
  import opened Turns

  const BATCH: nat := 4000
  const OVERFLOW: nat := 2000

  /** The batch a check-in has taken and not yet settled. */
  datatype Flight = Idle | PostingSpool(batch: seq<Result>) | PostingLive(batch: seq<Result>)

  /** What finally became of a result, from the agent's point of view. */
  datatype Fate = Acked(r: Result) | Dropped(r: Result)

  /** What became of a check-in's batch: accepted, no answer at all, status 401,
      any other status, or an exception while the batch was in hand (a full
      disk under `spool.append`, say), which loses a live one. */
  datatype Outcome = Accepted | Unreachable | Unauthorized | Refused | Abandoned

  datatype Pipe = Pipe(lines: seq<Line<Result>>, flight: Flight, buf: seq<Result>, gone: seq<Fate>)

  // ----------------------------------------------------- the atomic regions

  function Store(p: Pipe, r: Result): Pipe {
    p.(buf := p.buf + [r])
  }

  /** Spool before live. */
  function Drain(p: Pipe): Pipe {
    if p.lines != [] then
      p.(flight := PostingSpool(AtMost(Records(p.lines), BATCH)))
    else
      p.(flight := PostingLive(AtMost(p.buf, BATCH)), buf := Without(p.buf, BATCH))
  }

  function Spill(p: Pipe, rs: seq<Result>, cap: nat): Pipe {
    var lost := Records(DroppedLines(p.lines, rs, cap));
    p.(lines := Appended(p.lines, rs, cap), gone := p.gone + Fates(lost, false))
  }

  function Overflow(p: Pipe, cap: nat): Pipe {
    if |p.buf| < OVERFLOW then p else Spill(p.(buf := []), p.buf, cap)
  }

  function Flush(p: Pipe, cap: nat): Pipe {
    Spill(p.(buf := []), p.buf, cap)
  }

  function Settle(p: Pipe, outcome: Outcome, cap: nat): Pipe {
    var q := p.(flight := Idle);
    match (p.flight, outcome)
    case (Idle, _) => p
    case (PostingSpool(b), Accepted) => q.(lines := Without(q.lines, |b|), gone := q.gone + Fates(b, true))
    case (PostingLive(b), Accepted) => q.(gone := q.gone + Fates(b, true))
    case (PostingSpool(_), Unreachable) => Overflow(q, cap)
    case (PostingLive(b), Unreachable) => Overflow(Spill(q, b, cap), cap)
    case (PostingLive(b), Abandoned) => q.(gone := q.gone + Fates(b, false))
    case (PostingSpool(_), _) => q
    case (PostingLive(b), _) => Spill(q, b, cap)
  }

  function Fates(rs: seq<Result>, acked: bool): (fs: seq<Fate>) {
    seq(|rs|, i requires 0 <= i < |rs| => if acked then Acked(rs[i]) else Dropped(rs[i]))
  }

  // ------------------------------------------------------------- histories

  function ResultsOf(fs: seq<Fate>): (rs: seq<Result>)
    ensures |rs| == |fs| && forall i :: 0 <= i < |fs| ==> rs[i] == fs[i].r
  {
    seq(|fs|, i requires 0 <= i < |fs| => fs[i].r)
  }

  function AckedOf(fs: seq<Fate>): seq<Result> {
    if fs == [] then []
    else AckedOf(fs[..|fs| - 1]) + (if fs[|fs| - 1].Acked? then [fs[|fs| - 1].r] else [])
  }

  function Live(f: Flight): seq<Result> {
    if f.PostingLive? then f.batch else []
  }

  /** Everything the agent still owes the server, oldest first. */
  function Queue(p: Pipe): seq<Result> {
    Records(p.lines) + Live(p.flight) + p.buf
  }

  /** Everything ever measured: first what is settled, then what is queued. */
  function History(p: Pipe): seq<Result> {
    ResultsOf(p.gone) + Queue(p)
  }

  /** The documented contract: a live batch is only ever taken from an empty
      spool; a spool batch is its oldest part. */
  ghost predicate InOrder(p: Pipe) {
    && (p.flight.PostingLive? ==> p.lines == [])
    && (p.flight.PostingSpool? ==> p.flight.batch <= Records(p.lines))
  }

  lemma Assoc<T>(a: seq<T>, b: seq<T>, c: seq<T>)
    ensures (a + b) + c == a + (b + c)
  {
  }

  lemma FatesAdd(fs: seq<Fate>, rs: seq<Result>, acked: bool)
    ensures ResultsOf(fs + Fates(rs, acked)) == ResultsOf(fs) + rs
  {
  }

  lemma SplitAt<T>(s: seq<T>, n: nat)
    ensures AtMost(s, n) + Without(s, n) == s
    ensures n <= |s| ==> AtMost(s, n) == s[..n]
  {
  }

  lemma SpillKeepsHistory(p: Pipe, rs: seq<Result>, cap: nat)
    ensures var q := Spill(p, rs, cap);
            (Readable(p.lines) ==> Readable(q.lines)) && q.flight == p.flight && q.buf == p.buf &&
            ResultsOf(q.gone) + Records(q.lines) == ResultsOf(p.gone) + (Records(p.lines) + rs)
  {
    AppendedRecords(p.lines, rs, cap);
    var lost := Records(DroppedLines(p.lines, rs, cap));
    FatesAdd(p.gone, lost, false);
    Assoc(ResultsOf(p.gone), lost, Records(Appended(p.lines, rs, cap)));
  }

  lemma FlushKeepsHistory(p: Pipe, cap: nat)
    requires InOrder(p) && p.flight.Idle?
    ensures var q := Flush(p, cap);
            InOrder(q) && q.flight == Idle && History(q) == History(p)
  {
    var q := Flush(p, cap);
    SpillKeepsHistory(p.(buf := []), p.buf, cap);
    assert Queue(q) == Records(q.lines);
    assert Queue(p) == Records(p.lines) + p.buf;
  }

  lemma DrainKeepsHistory(p: Pipe)
    requires InOrder(p) && p.flight.Idle?
    ensures InOrder(Drain(p)) && History(Drain(p)) == History(p)
  {
    if p.lines == [] {
      SplitAt(p.buf, BATCH);
      assert Queue(Drain(p)) == p.buf;
      assert Queue(p) == p.buf;
    }
  }

  /** An accepted spool batch leaves the accounts as they were exactly when the
      lines deleted for it, as many as there are results in it, all parse.
      Otherwise some of its results stay in the spool and are sent again. */
  lemma SpoolAckKeepsHistoryIff(p: Pipe, cap: nat)
    requires InOrder(p) && p.flight.PostingSpool?
    ensures |p.flight.batch| <= |p.lines|
    ensures var q := Settle(p, Accepted, cap);
            InOrder(q) && q.flight == Idle && (History(q) == History(p) <==> Readable(p.lines[..|p.flight.batch|]))
  {
    hide Records, Fates, ResultsOf;
    var q, b, all := Settle(p, Accepted, cap), p.flight.batch, Records(p.lines);
    AckIsExactIffPrefixClean(p.lines, |b|);
    assert |AtMost(all, |b|)| == |b|;
    FatesAdd(p.gone, b, true);
    SplitAt(all, |b|);
    assert all == b + Without(all, |b|);
    Assoc(b, Without(all, |b|), p.buf);
    Assoc(ResultsOf(p.gone), b, Records(q.lines) + p.buf);
    assert Queue(q) == Records(q.lines) + p.buf && Queue(p) == all + p.buf;
    SamePrefix(ResultsOf(p.gone), b + (Records(q.lines) + p.buf), b + (Without(all, |b|) + p.buf));
    SamePrefix(b, Records(q.lines) + p.buf, Without(all, |b|) + p.buf);
    SameSuffix(Records(q.lines), Without(all, |b|), p.buf);
  }

  lemma SameSuffix<T>(x: seq<T>, y: seq<T>, tail: seq<T>)
    ensures x + tail == y + tail <==> x == y
  {
    if x + tail == y + tail {
      assert |x| == |y|;
      assert x == (x + tail)[..|x|] == (y + tail)[..|y|] == y;
    }
  }

  /** Acknowledged or lost, a live batch leaves from the old end. */
  lemma LiveDoneKeepsHistory(p: Pipe, outcome: Outcome, cap: nat)
    requires InOrder(p) && p.flight.PostingLive? && (outcome.Accepted? || outcome.Abandoned?)
    ensures var q := Settle(p, outcome, cap);
            InOrder(q) && q.flight == Idle && History(q) == History(p)
  {
    hide Fates, ResultsOf;
    var q, b := Settle(p, outcome, cap), p.flight.batch;
    FatesAdd(p.gone, b, outcome.Accepted?);
    assert Queue(p) == b + Queue(q);
    Assoc(ResultsOf(p.gone), b, Queue(q));
  }

  /** A refused batch goes behind whatever is spooled, so the order holds. */
  lemma RefusalKeepsHistory(p: Pipe, cap: nat)
    requires InOrder(p) && !p.flight.Idle?
    ensures var q := Settle(p, Refused, cap);
            InOrder(q) && q.flight == Idle && History(q) == History(p)
  {
    var q := Settle(p, Refused, cap);
    if p.flight.PostingLive? {
      var b := p.flight.batch;
      SpillKeepsHistory(p.(flight := Idle), b, cap);
      assert Queue(q) == Records(q.lines) + p.buf;
      assert Queue(p) == (Records(p.lines) + b) + p.buf;
      Assoc(ResultsOf(q.gone), Records(q.lines), p.buf);
      Assoc(ResultsOf(p.gone), Records(p.lines) + b, p.buf);
    }
  }

  /** The event is an accepted spool batch for which a line that does not parse
      would be deleted. */
  ghost predicate TornAck(p: Pipe, outcome: Outcome) {
    && p.flight.PostingSpool? && outcome.Accepted? && |p.flight.batch| <= |p.lines|
    && !Readable(p.lines[..|p.flight.batch|])
  }

  /** Every settlement keeps order and accounts, but for such an acknowledgement,
      and that one never does. */
  lemma SettleKeepsHistory(p: Pipe, outcome: Outcome, cap: nat)
    requires InOrder(p) && !p.flight.Idle?
    ensures var q := Settle(p, outcome, cap);
            InOrder(q) && q.flight == Idle && (History(q) == History(p) <==> !TornAck(p, outcome))
  {
    if p.flight.PostingLive? && (outcome.Accepted? || outcome.Abandoned?) {
      LiveDoneKeepsHistory(p, outcome, cap);
    } else if outcome.Accepted? {
      SpoolAckKeepsHistoryIff(p, cap);
    } else {
      RefusalKeepsHistory(p, cap);
      FlushKeepsHistory(Settle(p, Refused, cap), cap);
    }
  }

  function Least(a: nat, b: nat): nat { if a <= b then a else b }

  /** What the server gets credit for: the batch if it accepted it, else nothing. */
  lemma SettleAcknowledges(p: Pipe, outcome: Outcome, cap: nat)
    requires !p.flight.Idle?
    ensures AckedOf(Settle(p, outcome, cap).gone) == AckedOf(p.gone) + if outcome == Accepted then p.flight.batch else []
  {
    var b, q := p.flight.batch, p.(flight := Idle);
    AckedOfMore(p.gone, b, true);
    AckedOfMore(p.gone, b, false);
    SpillAcksNothing(q, b, cap);
    SpillAcksNothing(q.(buf := []), q.buf, cap);
    SpillAcksNothing(Spill(q, b, cap).(buf := []), q.buf, cap);
    assert AckedOf(p.gone) + [] == AckedOf(p.gone);
    hide AckedOf, Spill, Fates;
  }

  lemma SpillAcksNothing(p: Pipe, rs: seq<Result>, cap: nat)
    ensures AckedOf(Spill(p, rs, cap).gone) == AckedOf(p.gone)
  {
    AckedOfMore(p.gone, Records(DroppedLines(p.lines, rs, cap)), false);
    assert AckedOf(p.gone) + [] == AckedOf(p.gone);
  }

  lemma {:induction false} AckedOfMore(fs: seq<Fate>, rs: seq<Result>, acked: bool)
    ensures AckedOf(fs + Fates(rs, acked)) == AckedOf(fs) + if acked then rs else []
    decreases |rs|
  {
    if rs == [] {
      assert fs + Fates(rs, acked) == fs && AckedOf(fs) + [] == AckedOf(fs);
    } else {
      var n := |rs| - 1;
      AckedOfMore(fs, rs[..n], acked);
      var all := fs + Fates(rs, acked);
      assert all[..|all| - 1] == fs + Fates(rs[..n], acked);
      assert rs == rs[..n] + [rs[n]];
      assert AckedOf(fs) + rs[..n] + [rs[n]] == AckedOf(fs) + rs;
    }
  }

  /** After a check-in that did not reach the server fewer than 2000 results
      stay in memory. */
  lemma FailureBoundsBuffer(p: Pipe, cap: nat)
    requires !p.flight.Idle?
    ensures |Settle(p, Unreachable, cap).buf| < 2000
  {
  }

  // ------------------------------------------------------------------ runs

  datatype Event = StoreEv(r: Result) | DrainEv | SettleEv(outcome: Outcome) | FlushEv

  function Step(p: Pipe, e: Event, cap: nat): Pipe {
    match e
    case StoreEv(r) => Store(p, r)
    case DrainEv => if p.flight.Idle? then Drain(p) else p
    case SettleEv(o) => Settle(p, o, cap)
    case FlushEv => Flush(p, cap)
  }

  function Run(p: Pipe, es: seq<Event>, cap: nat): Pipe {
    if es == [] then p else Step(Run(p, es[..|es| - 1], cap), es[|es| - 1], cap)
  }

  function Stored(es: seq<Event>): seq<Result> {
    if es == [] then []
    else Stored(es[..|es| - 1]) + (if es[|es| - 1].StoreEv? then [es[|es| - 1].r] else [])
  }

  /** Update hand-offs flush the buffer between check-ins, never during one. */
  ghost predicate FlushesBetween(p: Pipe, es: seq<Event>, cap: nat) {
    es != [] ==>
      && FlushesBetween(p, es[..|es| - 1], cap)
      && (es[|es| - 1].FlushEv? ==> Run(p, es[..|es| - 1], cap).flight.Idle?)
  }

  ghost predicate TornEvent(p: Pipe, e: Event) { e.SettleEv? && TornAck(p, e.outcome) }

  function Measured(e: Event): seq<Result> { if e.StoreEv? then [e.r] else [] }

  lemma StepKeepsHistory(p: Pipe, e: Event, cap: nat)
    requires InOrder(p) && (e.FlushEv? ==> p.flight.Idle?)
    ensures InOrder(Step(p, e, cap))
    ensures History(Step(p, e, cap)) == History(p) + Measured(e) <==> !TornEvent(p, e)
  {
    assert History(p) + [] == History(p);
    match e
    case StoreEv(r) =>
      assert History(Store(p, r)) == History(p) + [r];
    case DrainEv =>
      if p.flight.Idle? { DrainKeepsHistory(p); }
    case SettleEv(o) =>
      if !p.flight.Idle? { SettleKeepsHistory(p, o, cap); }
    case FlushEv =>
      FlushKeepsHistory(p, cap);
  }

  /** No acknowledgement in the run deletes a line that does not parse. */
  ghost predicate CleanAcks(p: Pipe, es: seq<Event>, cap: nat) {
    es != [] ==> CleanAcks(p, es[..|es| - 1], cap) && !TornEvent(Run(p, es[..|es| - 1], cap), es[|es| - 1])
  }

  /** After every event of the run all that was measured is accounted for. */
  ghost predicate Conserved(p: Pipe, es: seq<Event>, cap: nat) {
    && (es != [] ==> Conserved(p, es[..|es| - 1], cap))
    && History(Run(p, es, cap)) == History(p) + Stored(es)
  }

  /** Conservation, exactly: throughout a run, what was measured is what was
      acknowledged or dropped, then what is spooled, in flight and buffered, in
      the order it was measured, if and only if no acknowledgement deletes a
      line that does not parse. */
  lemma {:induction false} ConservedIffCleanAcks(p: Pipe, es: seq<Event>, cap: nat)
    requires InOrder(p) && FlushesBetween(p, es, cap)
    ensures InOrder(Run(p, es, cap))
    ensures Conserved(p, es, cap) <==> CleanAcks(p, es, cap)
    decreases |es|
  {
    hide Step, History, InOrder, TornEvent;
    if es == [] {
      assert History(p) + [] == History(p);
    } else {
      var front, e := es[..|es| - 1], es[|es| - 1];
      ConservedIffCleanAcks(p, front, cap);
      StepKeepsHistory(Run(p, front, cap), e, cap);
      Assoc(History(p), Stored(front), Measured(e));
    }
  }

  lemma Conservation(p: Pipe, es: seq<Event>, cap: nat)
    requires InOrder(p) && FlushesBetween(p, es, cap) && CleanAcks(p, es, cap)
    ensures InOrder(Run(p, es, cap))
    ensures History(Run(p, es, cap)) == History(p) + Stored(es)
  {
    ConservedIffCleanAcks(p, es, cap);
  }

  lemma StaysReadable(p: Pipe, e: Event, cap: nat)
    requires Readable(p.lines)
    ensures Readable(Step(p, e, cap).lines) && !TornEvent(p, e)
  {
    if e.FlushEv? { AppendedRecords(p.lines, p.buf, cap); }
    if e.SettleEv? { SettlesReadable(p, e.outcome, cap); }
  }

  lemma SettlesReadable(p: Pipe, outcome: Outcome, cap: nat)
    requires Readable(p.lines)
    ensures Readable(Settle(p, outcome, cap).lines)
  {
    if p.flight.PostingLive? {
      var b := p.flight.batch;
      var q := p.(flight := Idle);
      SpillKeepsHistory(q, b, cap);
      SpillKeepsHistory(Spill(q, b, cap).(buf := []), p.buf, cap);
    } else if p.flight.PostingSpool? {
      SpillKeepsHistory(p.(flight := Idle, buf := []), p.buf, cap);
    }
  }

  /** A spool whose lines all parse stays so, and every acknowledgement of the
      run is clean. */
  lemma {:induction false} ReadableSpoolAcksCleanly(p: Pipe, es: seq<Event>, cap: nat)
    requires Readable(p.lines)
    ensures Readable(Run(p, es, cap).lines) && CleanAcks(p, es, cap)
    decreases |es|
  {
    hide Step, Readable, TornEvent;
    if es != [] {
      ReadableSpoolAcksCleanly(p, es[..|es| - 1], cap);
      StaysReadable(Run(p, es[..|es| - 1], cap), es[|es| - 1], cap);
    }
  }

  /** It matters: two unreadable lines before three results of one sensor, two
      check-ins the server accepts, and it has got the last two results twice,
      the second time after the third result. */
  lemma TornLinesResend(a: Result, b: Result, c: Result, cap: nat)
    requires a.key == b.key == c.key && a.ts < b.ts < c.ts
    ensures var p := Pipe([Junk, Junk, Rec(a), Rec(b), Rec(c)], Idle, [], []);
            var v := Run(p, [DrainEv, SettleEv(Accepted), DrainEv, SettleEv(Accepted)], cap);
            && InOrder(p) && PerSensorSorted(History(p)) && NoRepeats(History(p))
            && AckedOf(v.gone) == [a, b, c, b, c]
            && !PerSensorSorted(AckedOf(v.gone)) && !NoRepeats(AckedOf(v.gone))
  {
    var p := Pipe([Junk, Junk, Rec(a), Rec(b), Rec(c)], Idle, [], []);
    var d, s := DrainEv, SettleEv(Accepted);
    RecordsOf2Junk(a, b, c);
    RecordsOfTwo(b, c);
    assert History(p) == [a, b, c] by { assert Queue(p) == [a, b, c]; }
    assert InOrder(p);
    var u := Pipe([Rec(b), Rec(c)], Idle, [], Fates([a, b, c], true));
    AcceptedRound(p, [a, b, c], cap);
    AcceptedRound(u, [b, c], cap);
    RunFour(p, d, s, d, s, cap);
    hide *;
    assert p.lines[3..] == u.lines && p.gone + Fates([a, b, c], true) == u.gone;
    var v := Run(p, [d, s, d, s], cap);
    assert v.gone == Fates([a, b, c], true) + Fates([b, c], true);
    FiveAcked(a, b, c);
  }

  lemma FiveAcked(a: Result, b: Result, c: Result)
    requires a.key == b.key == c.key && a.ts < b.ts < c.ts
    ensures var acked := AckedOf(Fates([a, b, c], true) + Fates([b, c], true));
            acked == [a, b, c, b, c] && !PerSensorSorted(acked) && !NoRepeats(acked)
    ensures PerSensorSorted([a, b, c]) && NoRepeats([a, b, c])
  {
    var gone := Fates([a, b, c], true) + Fates([b, c], true);
    assert gone == [Acked(a), Acked(b), Acked(c), Acked(b), Acked(c)];
    AckedOfFive(a, b, c, b, c);
    var acked := [a, b, c, b, c];
    assert acked[1] == acked[3] && acked[2].key == acked[3].key && acked[2].ts > acked[3].ts;
  }

  /** A whole spool sent and accepted. */
  lemma AcceptedRound(p: Pipe, rs: seq<Result>, cap: nat)
    requires p.flight.Idle? && p.lines != [] && Records(p.lines) == rs && |rs| <= BATCH && |rs| <= |p.lines|
    ensures Step(Step(p, DrainEv, cap), SettleEv(Accepted), cap)
         == p.(lines := p.lines[|rs|..], gone := p.gone + Fates(rs, true))
  {
  }

  lemma RecordsOfTwo(b: Result, c: Result)
    ensures Records([Rec(b), Rec(c)]) == [b, c]
  {
    assert [Rec(b), Rec(c)] == Written([b, c]);
    RecordsOfWritten([b, c]);
  }

  lemma RecordsOf2Junk(a: Result, b: Result, c: Result)
    ensures Records([Junk, Junk, Rec(a), Rec(b), Rec(c)]) == [a, b, c]
  {
    assert [Rec(a), Rec(b), Rec(c)] == Written([a, b, c]);
    RecordsOfWritten([a, b, c]);
    var junk: seq<Line<Result>> := [Junk, Junk];
    assert junk[1..] == [Junk] && junk[1..][1..] == [];
    assert Records(junk) == [];
    RecordsConcat(junk, [Rec(a), Rec(b), Rec(c)]);
    assert junk + [Rec(a), Rec(b), Rec(c)] == [Junk, Junk, Rec(a), Rec(b), Rec(c)];
  }

  lemma RunFour(p: Pipe, a: Event, b: Event, c: Event, d: Event, cap: nat)
    ensures Run(p, [a, b, c, d], cap) == Step(Step(Step(Step(p, a, cap), b, cap), c, cap), d, cap)
  {
    hide Step;
    assert [a, b, c, d][..3] == [a, b, c] && [a, b, c][..2] == [a, b] && [a, b][..1] == [a] && [a][..0] == [];
    assert Run(p, [a], cap) == Step(Run(p, [], cap), a, cap);
    assert Run(p, [a, b], cap) == Step(Run(p, [a], cap), b, cap);
    assert Run(p, [a, b, c], cap) == Step(Run(p, [a, b], cap), c, cap);
  }

  lemma AckedOfFive(a: Result, b: Result, c: Result, d: Result, e: Result)
    ensures AckedOf([Acked(a), Acked(b), Acked(c), Acked(d), Acked(e)]) == [a, b, c, d, e]
  {
    var f := [Acked(a), Acked(b), Acked(c), Acked(d), Acked(e)];
    assert f[..4][..3] == f[..3] && f[..3][..2] == f[..2] && f[..2][..1] == f[..1] && f[..1][..0] == [];
    assert AckedOf(f[..1]) == [a];
    assert AckedOf(f[..2]) == [a, b];
    assert AckedOf(f[..3]) == [a, b, c];
    assert AckedOf(f[..4]) == [a, b, c, d];
  }

  /** The spool never outgrows its cap. */
  lemma {:induction false} SpoolStaysBounded(p: Pipe, es: seq<Event>, cap: nat)
    requires |p.lines| <= cap
    ensures |Run(p, es, cap).lines| <= cap
    decreases |es|
  {
    if es != [] {
      SpoolStaysBounded(p, es[..|es| - 1], cap);
      StepBounded(Run(p, es[..|es| - 1], cap), es[|es| - 1], cap);
    }
  }

  lemma StepBounded(p: Pipe, e: Event, cap: nat)
    requires |p.lines| <= cap
    ensures |Step(p, e, cap).lines| <= cap
  {
  }

  /** Something was given up between two states. */
  ghost predicate Gives(p: Pipe, q: Pipe) {
    exists i :: |p.gone| <= i < |q.gone| && q.gone[i].Dropped?
  }

  /** Every result given up was in the hands of an exception, or made room in a
      spool that is then exactly full. */
  ghost predicate GivesUpOnlyWhenFull(p: Pipe, es: seq<Event>, cap: nat) {
    es != [] ==>
      var front, e := es[..|es| - 1], es[|es| - 1];
      && GivesUpOnlyWhenFull(p, front, cap)
      && (Gives(Run(p, front, cap), Run(p, es, cap)) && e != SettleEv(Abandoned) ==> |Run(p, es, cap).lines| == cap)
  }

  /** In every run nothing is dropped for the cap unless the file then holds
      exactly `cap` lines. */
  lemma {:induction false} NothingGivenUpEarly(p: Pipe, es: seq<Event>, cap: nat)
    requires |p.lines| <= cap
    ensures GivesUpOnlyWhenFull(p, es, cap)
    decreases |es|
  {
    hide Step, Gives;
    if es != [] {
      var front := es[..|es| - 1];
      NothingGivenUpEarly(p, front, cap);
      SpoolStaysBounded(p, front, cap);
      StepGivesOnlyWhenFull(Run(p, front, cap), es[|es| - 1], cap);
    }
  }

  lemma SpillGivesOnlyWhenFull(p: Pipe, rs: seq<Result>, cap: nat)
    requires |p.lines| <= cap
    ensures var q := Spill(p, rs, cap);
            p.gone <= q.gone && |p.lines| <= |q.lines| <= cap && (|q.gone| > |p.gone| ==> |q.lines| == cap)
  {
    AppendKeepsNewest(p.lines, rs, cap);
    RecordsBound(DroppedLines(p.lines, rs, cap));
  }

  lemma StepGivesOnlyWhenFull(p: Pipe, e: Event, cap: nat)
    requires |p.lines| <= cap
    ensures Gives(p, Step(p, e, cap)) && e != SettleEv(Abandoned) ==> |Step(p, e, cap).lines| == cap
  {
    if e.FlushEv? { SpillGivesOnlyWhenFull(p.(buf := []), p.buf, cap); }
    if e.SettleEv? && e.outcome != Abandoned && !p.flight.Idle? { SettleGivesOnlyWhenFull(p, e.outcome, cap); }
    hide Records, Appended, DroppedLines, Settle, Fates;
  }

  lemma SettleGivesOnlyWhenFull(p: Pipe, outcome: Outcome, cap: nat)
    requires |p.lines| <= cap && outcome != Abandoned && !p.flight.Idle?
    ensures Gives(p, Settle(p, outcome, cap)) ==> |Settle(p, outcome, cap).lines| == cap
  {
    var q, b := p.(flight := Idle), p.flight.batch;
    if outcome.Accepted? {
      assert forall i | |p.gone| <= i < |p.gone| + |b| :: (p.gone + Fates(b, true))[i] == Acked(b[i - |p.gone|]);
    } else {
      var r := if p.flight.PostingLive? then Spill(q, b, cap) else q;
      SpillGivesOnlyWhenFull(q, b, cap);
      SpillGivesOnlyWhenFull(r.(buf := []), r.buf, cap);
      hide Spill, Records, Appended, DroppedLines, Fates;
    }
  }

  /** Where each acknowledged result sits in the settled history. */
  ghost function AckedAt(fs: seq<Fate>): seq<nat> {
    if fs == [] then []
    else AckedAt(fs[..|fs| - 1]) + (if fs[|fs| - 1].Acked? then [|fs| - 1] else [])
  }

  lemma {:induction false} AckedAtPlaces(fs: seq<Fate>)
    ensures |AckedAt(fs)| == |AckedOf(fs)|
    ensures forall i :: 0 <= i < |AckedAt(fs)| ==> AckedAt(fs)[i] < |fs| && AckedOf(fs)[i] == fs[AckedAt(fs)[i]].r
    ensures forall i, j :: 0 <= i < j < |AckedAt(fs)| ==> AckedAt(fs)[i] < AckedAt(fs)[j]
  {
    if fs != [] {
      AckedAtPlaces(fs[..|fs| - 1]);
    }
  }

  lemma AckedPartInOrder(p: Pipe)
    ensures PerSensorSorted(History(p)) ==> PerSensorSorted(AckedOf(p.gone))
    ensures NoRepeats(History(p)) ==> NoRepeats(AckedOf(p.gone))
  {
    var at := AckedAt(p.gone);
    AckedAtPlaces(p.gone);
    forall i | 0 <= i < |at| ensures History(p)[at[i]] == AckedOf(p.gone)[i] {
    }
  }

  /** What the server acknowledged is in measuring order per sensor and holds
      no result twice, whatever mixture of failures, refusals, drops and
      flushes the run contained, as long as no acknowledgement deletes a line
      that does not parse. */
  lemma AckedInOrder(p: Pipe, es: seq<Event>, cap: nat)
    requires InOrder(p) && FlushesBetween(p, es, cap) && CleanAcks(p, es, cap)
    ensures PerSensorSorted(History(p) + Stored(es)) ==> PerSensorSorted(AckedOf(Run(p, es, cap).gone))
    ensures NoRepeats(History(p) + Stored(es)) ==> NoRepeats(AckedOf(Run(p, es, cap).gone))
  {
    Conservation(p, es, cap);
    AckedPartInOrder(Run(p, es, cap));
  }

  // -------------------------------------------- what a flush in flight does

  /** A flush taken while a live batch is being posted.  Once the post is
      settled the order and the accounts are as they were exactly when one of
      batch and buffer is empty, or the batch does not come back (it was
      accepted, or lost) and the buffer fits in the spool: a batch that comes
      back is put behind younger results. */
  lemma FlushDuringLivePost(p: Pipe, outcome: Outcome, cap: nat)
    requires InOrder(p) && p.flight.PostingLive? && NoRepeats(p.flight.batch + p.buf)
    ensures History(Settle(Flush(p, cap), outcome, cap)) == History(p)
       <==> p.flight.batch == [] || p.buf == [] || ((outcome.Accepted? || outcome.Abandoned?) && |p.buf| <= cap)
  {
    var a, b, e := p.flight.batch, p.buf, Excess(|p.buf|, cap);
    assert History(p) == ResultsOf(p.gone) + (a + b) by { assert Queue(p) == a + b; }
    assert b != [] ==> (e == 0 <==> |b| <= cap);
    hide *;
    if outcome.Accepted? || outcome.Abandoned? {
      FlushThenDone(p, outcome, cap);
      InsertedIff(a, b, e);
      SamePrefix(ResultsOf(p.gone), a + b, Inserted(a, b, e));
    } else {
      FlushThenReturned(p, outcome, cap);
      SwapIffEmpty(a, b);
      SamePrefix(ResultsOf(p.gone), a + b, b + a);
    }
  }

  /** `b` with `a` put behind its first `n` elements. */
  function Inserted<T>(a: seq<T>, b: seq<T>, n: nat): seq<T> {
    AtMost(b, n) + (a + Without(b, n))
  }

  lemma SamePrefix<T>(was: seq<T>, x: seq<T>, y: seq<T>)
    ensures was + x == was + y <==> x == y
  {
    assert (was + x)[|was|..] == x && (was + y)[|was|..] == y;
  }

  lemma FlushThenDone(p: Pipe, outcome: Outcome, cap: nat)
    requires InOrder(p) && p.flight.PostingLive? && (outcome.Accepted? || outcome.Abandoned?)
    ensures History(Settle(Flush(p, cap), outcome, cap))
         == ResultsOf(p.gone) + Inserted(p.flight.batch, p.buf, Excess(|p.buf|, cap))
  {
    hide Fates, ResultsOf;
    var f, a, b, e := Flush(p, cap), p.flight.batch, p.buf, Excess(|p.buf|, cap);
    FlushedToEmpty(p, cap);
    var s := Settle(f, outcome, cap);
    FatesAdd(f.gone, a, outcome.Accepted?);
    assert Queue(s) == Without(b, e);
    Assoc(ResultsOf(p.gone), AtMost(b, e), a);
    Assoc(ResultsOf(p.gone), AtMost(b, e) + a, Without(b, e));
    Assoc(AtMost(b, e), a, Without(b, e));
  }

  lemma FlushedToEmpty(p: Pipe, cap: nat)
    requires InOrder(p) && p.flight.PostingLive?
    ensures var f, e := Flush(p, cap), Excess(|p.buf|, cap);
            && f.flight == p.flight && f.buf == []
            && ResultsOf(f.gone) == ResultsOf(p.gone) + AtMost(p.buf, e) && Records(f.lines) == Without(p.buf, e)
  {
    var b, e := p.buf, Excess(|p.buf|, cap);
    AppendedRecords([], b, cap);
    DroppedRecords([], b, cap);
    assert Records<Result>([]) + b == b;
    assert b == [] ==> AtMost(b, e) == [];
    SplitAt(b, e);
    var kept := Records(Appended([], b, cap));
    assert AtMost(b, e) + kept == AtMost(b, e) + Without(b, e);
    SamePrefix(AtMost(b, e), kept, Without(b, e));
    FatesAdd(p.gone, AtMost(b, e), false);
  }

  lemma FlushThenReturned(p: Pipe, outcome: Outcome, cap: nat)
    requires InOrder(p) && p.flight.PostingLive? && !outcome.Accepted? && !outcome.Abandoned?
    ensures History(Settle(Flush(p, cap), outcome, cap)) == ResultsOf(p.gone) + (p.buf + p.flight.batch)
  {
    hide Fates, ResultsOf;
    var f, a, b, e := Flush(p, cap), p.flight.batch, p.buf, Excess(|p.buf|, cap);
    FlushedToEmpty(p, cap);
    var s := Settle(f, outcome, cap);
    SpillKeepsHistory(f.(flight := Idle), a, cap);
    assert Queue(s) == Records(s.lines);
    Assoc(ResultsOf(p.gone), AtMost(b, e), Without(b, e) + a);
    Assoc(AtMost(b, e), Without(b, e), a);
    SplitAt(b, e);
  }

  lemma SwapIffEmpty<T(!new)>(a: seq<T>, b: seq<T>)
    requires NoRepeats(a + b)
    ensures a + b == b + a <==> a == [] || b == []
  {
    if a != [] && b != [] {
      assert (a + b)[0] == a[0] && (a + b)[|a|] == b[0];
      assert (b + a)[0] == b[0];
    }
  }

  lemma InsertedIff<T(!new)>(a: seq<T>, b: seq<T>, n: nat)
    requires NoRepeats(a + b)
    ensures Inserted(a, b, n) == a + b <==> a == [] || b == [] || n == 0
  {
    SplitAt(b, n);
    if a != [] && b != [] && n != 0 {
      assert Inserted(a, b, n)[0] == b[0] && (a + b)[0] == a[0] && (a + b)[|a|] == b[0];
    }
  }

  /** The lines of the spool with the buffer behind them, before the cap. */
  function Full(p: Pipe): seq<Line<Result>> { p.lines + Written(p.buf) }

  /** How many lines a flush drops for the cap. */
  function Overflowing(p: Pipe, cap: nat): nat { |DroppedLines(p.lines, p.buf, cap)| }

  /** A flush taken while a spool batch is being posted, over any file.
      Settled, everything is as it was exactly when the batch was not accepted
      or was empty, or the flush dropped only lines that do not parse and the
      lines then deleted for the batch all parse: an overflow shifts the lines
      an acknowledgement deletes. */
  lemma FlushDuringSpoolPost(p: Pipe, outcome: Outcome, cap: nat)
    requires InOrder(p) && p.flight.PostingSpool? && NoRepeats(Queue(p))
    ensures History(Settle(Flush(p, cap), outcome, cap)) == History(p) <==>
              (!outcome.Accepted? || p.flight.batch == []
               || (Records(DroppedLines(p.lines, p.buf, cap)) == []
                   && Readable(AtMost(Without(Full(p), Overflowing(p, cap)), |p.flight.batch|))))
  {
    if outcome.Accepted? && p.flight.batch != [] {
      FlushThenSpoolAck(p, cap);
    } else {
      SpillKeepsHistory(p.(buf := []), p.buf, cap);
      var f := Flush(p, cap);
      var s := Settle(f, outcome, cap);
      if outcome.Accepted? { assert Fates([], true) == []; }
      assert s.lines == f.lines && ResultsOf(s.gone) == ResultsOf(f.gone);
      assert Queue(s) == Records(f.lines) && Queue(p) == Records(p.lines) + p.buf;
    }
  }

  lemma FlushThenSpoolAck(p: Pipe, cap: nat)
    requires InOrder(p) && p.flight.PostingSpool? && p.flight.batch != [] && NoRepeats(Queue(p))
    ensures History(Settle(Flush(p, cap), Accepted, cap)) == History(p) <==>
              (Records(DroppedLines(p.lines, p.buf, cap)) == []
               && Readable(AtMost(Without(Full(p), Overflowing(p, cap)), |p.flight.batch|)))
  {
    var was, b, k := ResultsOf(p.gone), p.flight.batch, |p.flight.batch|;
    var dropped, rest := DroppedLines(p.lines, p.buf, cap), Appended(p.lines, p.buf, cap);
    var x, y, z := Records(dropped), Records(AtMost(rest, k)), Records(Without(rest, k));
    FlushThenAckHistory(p, cap);
    AppendedRecords(p.lines, p.buf, cap);
    Halves(rest, k);
    RecordsConcat(AtMost(rest, k), Without(rest, k));
    assert Queue(p) == Records(p.lines) + p.buf == x + (y + z);
    SamePrefix(was, x + (b + z), x + (y + z));
    SamePrefix(x, b + z, y + z);
    SameSuffix(b, y, z);
    assert rest == Without(Full(p), Overflowing(p, cap)) by { DroppedThenKept(p.lines, p.buf, cap); }
    RecordsBound(AtMost(rest, k));
    RecordsBound(rest);
    hide Records, AtMost, Without, Appended, DroppedLines;
    BatchIs(b, x, y, z);
    assert |rest| >= |y + z|;
    if x == [] { assert |y + z| >= k; }
    AtMostLength(rest, k);
  }

  lemma AtMostLength<T>(s: seq<T>, n: nat)
    ensures |AtMost(s, n)| == if n >= |s| then |s| else n
  {
  }

  lemma DroppedThenKept(lines: seq<Line<Result>>, rs: seq<Result>, cap: nat)
    ensures Appended(lines, rs, cap) == Without(lines + Written(rs), |DroppedLines(lines, rs, cap)|)
  {
  }

  /** The batch is the oldest part of all; it equals the part after the dropped
      ones exactly when nothing was dropped and that part is as long. */
  lemma BatchIs<T(!new)>(b: seq<T>, x: seq<T>, y: seq<T>, z: seq<T>)
    requires b != [] && b <= x + (y + z) && NoRepeats(x + (y + z)) && |y| <= |b|
    ensures b == y <==> x == [] && |y| == |b|
  {
    var all := x + (y + z);
    assert all[0] == b[0];
    if x == [] {
      assert all == y + z;
    } else {
      assert y != [] ==> all[|x|] == y[0];
    }
  }

  lemma FlushThenAckHistory(p: Pipe, cap: nat)
    requires InOrder(p) && p.flight.PostingSpool?
    ensures var k := |p.flight.batch|;
            History(Settle(Flush(p, cap), Accepted, cap))
              == ResultsOf(p.gone) + (Records(DroppedLines(p.lines, p.buf, cap))
                                      + (p.flight.batch + Records(Without(Appended(p.lines, p.buf, cap), k))))
  {
    hide Records, Fates, ResultsOf, Appended, DroppedLines;
    var f, b := Flush(p, cap), p.flight.batch;
    var x := Records(DroppedLines(p.lines, p.buf, cap));
    var s := Settle(f, Accepted, cap);
    FatesAdd(p.gone, x, false);
    FatesAdd(f.gone, b, true);
    var z := Records(Without(Appended(p.lines, p.buf, cap), |b|));
    assert Queue(s) == z;
    Assoc(ResultsOf(p.gone), x, b);
    Assoc(ResultsOf(p.gone), x + b, z);
    Assoc(x, b, z);
  }

  /** Over a readable file: exactly when the flush does not overflow. */
  lemma FlushDuringReadableSpoolPost(p: Pipe, outcome: Outcome, cap: nat)
    requires InOrder(p) && p.flight.PostingSpool? && NoRepeats(Queue(p)) && Readable(p.lines)
    ensures History(Settle(Flush(p, cap), outcome, cap)) == History(p)
       <==> !outcome.Accepted? || p.flight.batch == [] || p.buf == [] || |p.lines| + |p.buf| <= cap
  {
    FlushDuringSpoolPost(p, outcome, cap);
    ReadableDrop(p.lines, p.buf, cap);
    RecordsOfWritten(p.buf);
    AllReadable(p.lines, Written(p.buf));
    PartsReadable(Full(p), Overflowing(p, cap));
    PartsReadable(Without(Full(p), Overflowing(p, cap)), |p.flight.batch|);
    hide *;
  }

  // ------------------------------------------------------------- the class

  class Shipper {
    const spool: Spool<Result>
    var buf: seq<Result>
    var token: bool
    var consecutiveGood: nat
    ghost var flight: Flight
    ghost var gone: seq<Fate>

    ghost predicate Valid() reads this, spool {
      spool.Valid()
    }

    ghost function View(): Pipe reads this, spool {
      Pipe(spool.lines, flight, buf, gone)
    }

    ghost function Here(): Side reads this, spool { Side(View(), token) }

    constructor (spool: Spool<Result>, token: bool)
      requires spool.Valid()
      ensures Valid() && this.spool == spool && this.token == token
      ensures View() == Pipe(spool.lines, Idle, [], []) && consecutiveGood == 0
    {
      this.spool, this.token := spool, token;
      buf, consecutiveGood, flight, gone := [], 0, Idle, [];
    }

    method StoreResult(r: Result)
      requires Valid()
      modifies this`buf
      ensures Valid() && View() == Store(old(View()), r)
    {
      buf := buf + [r];
    }

    method DrainBatch() returns (batch: seq<Result>, fromSpool: bool)
      requires Valid()
      modifies this`buf, this`flight
      ensures Valid() && View() == Drain(old(View()))
      ensures flight == if fromSpool then PostingSpool(batch) else PostingLive(batch)
      ensures fromSpool <==> spool.lines != []
      ensures fromSpool ==> batch == Records(spool.lines)[..|batch|] && |batch| == Least(4000, |Records(spool.lines)|) && buf == old(buf)
      ensures !fromSpool ==> batch + buf == old(buf) && |batch| == Least(4000, |old(buf)|)
    {
      if spool.count > 0 {
        batch := spool.Peek(BATCH);
        fromSpool := true;
        flight := PostingSpool(batch);
        return;
      }
      batch, fromSpool := [], false;
      while buf != [] && |batch| < BATCH
        invariant |batch| <= BATCH && batch + buf == old(buf)
        invariant spool.lines == [] && flight == old(flight)
        decreases |buf|
      {
        batch, buf := batch + [buf[0]], buf[1..];
      }
      assert batch == AtMost(old(buf), BATCH) && buf == Without(old(buf), BATCH);
      flight := PostingLive(batch);
    }

    /** `spool.append` with its bookkeeping of what the cap dropped. */
    method ToSpool(rs: seq<Result>)
      requires Valid()
      modifies this`gone, spool
      ensures Valid() && View() == Spill(old(View()), rs, spool.cap)
    {
      gone := Spill(View(), rs, spool.cap).gone;
      spool.Append(rs);
    }

    method OverflowToSpool()
      requires Valid()
      modifies this`buf, this`gone, spool
      ensures Valid() && View() == Overflow(old(View()), spool.cap)
      ensures |old(buf)| < 2000 ==> View() == old(View())
      ensures |old(buf)| >= 2000 ==> buf == [] && View() == Spill(old(View()).(buf := []), old(buf), spool.cap)
    {
      if |buf| < OVERFLOW { return; }
      var moved := buf;
      buf := [];
      ToSpool(moved);
    }

    method FlushBufferToSpool()
      requires Valid()
      modifies this`buf, this`gone, spool
      ensures Valid() && View() == Flush(old(View()), spool.cap)
    {
      var moved := buf;
      buf := [];
      if moved != [] {
        ToSpool(moved);
      } else {
        assert Fates([], false) == [];
        assert gone + [] == gone;
      }
    }

    /** The part of a check-in after the server's answer. */
    method SettleBatch(batch: seq<Result>, fromSpool: bool, outcome: Outcome)
      requires Valid() && flight == (if fromSpool then PostingSpool(batch) else PostingLive(batch))
      modifies this`buf, this`flight, this`gone, spool
      ensures Valid() && View() == Settle(old(View()), outcome, spool.cap)
    {
      flight := Idle;
      match outcome {
        case Accepted =>
          gone := gone + Fates(batch, true);
          if fromSpool {
            spool.RemoveOldest(|batch|, true);
          }
        case Unreachable =>
          Return(batch, fromSpool);
          OverflowToSpool();
        case Unauthorized =>
          Return(batch, fromSpool);
        case Refused =>
          Return(batch, fromSpool);
        case Abandoned =>
          if !fromSpool { gone := gone + Fates(batch, false); }
      }
    }

    /** A live batch that was not accepted goes behind the spool. */
    method Return(batch: seq<Result>, fromSpool: bool)
      requires Valid() && flight == Idle
      modifies this`gone, spool
      ensures Valid() && View() == if fromSpool then old(View()) else Spill(old(View()), batch, spool.cap)
    {
      if !fromSpool && batch != [] {
        ToSpool(batch);
      } else {
        assert gone + Fates([], false) == gone;
      }
    }

    /** One check-in.  Without a token the agent enrols first; if that fails
        nothing is drained.  Status 401 costs it the token. */
    method CheckinOnce(r: Reply) returns (end: End)
      requires Valid()
      modifies this`buf, this`flight, this`gone, this`token, spool
      ensures Valid() && Here() == Round(old(Here()), r, spool.cap) && end == EndOf(old(token), r)
      ensures end == Good <==> (old(token) || r.enrols) && r.outcome == Accepted && !r.raises
      ensures end == Raised <==> r.raises || ((old(token) || r.enrols) && r.outcome == Abandoned)
      ensures token <==> (old(token) || r.enrols) && r.outcome != Unauthorized
      ensures !old(token) && !r.enrols ==> View() == old(View())
    {
      if !token {
        if !r.enrols { return if r.raises then Raised else Bad; }
        token := true;
      }
      var batch, fromSpool := DrainBatch();
      SettleBatch(batch, fromSpool, r.outcome);
      if r.outcome.Unauthorized? { token := false; }
      end := if r.raises || r.outcome.Abandoned? then Raised else if r.outcome.Accepted? then Good else Bad;
    }

    /** The reconnect loop after a first good check-in.  `replies` are those it
        could get before the agent is told to stop. */
    method DrainBacklog(replies: seq<Reply>, ghost start: Side) returns (ok: bool, used: nat)
      requires Valid() && replies != [] && Here() == Rounds(start, replies[..1], spool.cap)
      requires EndOf(start.token, replies[0]).Good?
      modifies this`buf, this`flight, this`gone, this`token, spool
      ensures Valid() && 0 < used <= |replies| && Here() == Rounds(start, replies[..used], spool.cap)
      ensures TurnDone(start, replies, used, spool.cap, ok)
    {
      hide Round, EndOf;
      ok, used := true, 1;
      OneRound(start, replies[0], spool.cap);
      assert replies[..1] == [replies[0]];
      while ok && spool.count > 0 && used < |replies|
        invariant Valid() && 0 < used <= |replies| && Here() == Rounds(start, replies[..used], spool.cap)
        invariant IsTurn(Ends(start, replies[..used], spool.cap))
        invariant ok <==> Ends(start, replies[..used], spool.cap)[used - 1].Good?
        invariant !ok ==> !Ends(start, replies[..used], spool.cap)[used - 1].Raised?
        invariant EndsReadable(start.pipe.lines) ==> Progress(start, used, Here(), ok)
        decreases |replies| - used
      {
        ghost var before := Here();
        NextRound(start, replies, used, spool.cap);
        var end := CheckinOnce(replies[used]);
        used := used + 1;
        if end.Raised? { break; }
        ok := end.Good?;
      }
    }

    /** One turn of the main loop: a check-in, the reconnect loop, then the
        streak the supervisor's beacon reports. */
    method MainIteration(replies: seq<Reply>) returns (ok: bool, used: nat)
      requires Valid() && replies != []
      modifies this, spool
      ensures Valid() && 0 < used <= |replies| && Here() == Rounds(old(Here()), replies[..used], spool.cap)
      ensures TurnDone(old(Here()), replies, used, spool.cap, ok)
      ensures consecutiveGood == if ok then old(consecutiveGood) + 1 else 0
    {
      hide Round, EndOf;
      ghost var start := Here();
      OneRound(start, replies[0], spool.cap);
      assert replies[..1] == [replies[0]];
      var end := CheckinOnce(replies[0]);
      ok, used := end.Good?, 1;
      if ok {
        ok, used := DrainBacklog(replies, start);
      }
      consecutiveGood := if ok then consecutiveGood + 1 else 0;
    }
  }

  // ---------------------------------------------------- turns of the main loop

  /** What a check-in meets: whether enrolling would work, what becomes of the
      batch, and whether an exception then escapes (a malformed task list, say). */
  datatype Reply = Reply(enrols: bool, outcome: Outcome, raises: bool)

  datatype Side = Side(pipe: Pipe, token: bool)

  function EndOf(token: bool, r: Reply): End {
    if !token && !r.enrols then if r.raises then Raised else Bad
    else if r.raises || r.outcome.Abandoned? then Raised
    else if r.outcome.Accepted? then Good
    else Bad
  }

  function Round(s: Side, r: Reply, cap: nat): Side {
    if !s.token && !r.enrols then s
    else Side(Settle(Drain(s.pipe), r.outcome, cap), !r.outcome.Unauthorized?)
  }

  function Rounds(s: Side, rs: seq<Reply>, cap: nat): Side {
    if rs == [] then s else Round(Rounds(s, rs[..|rs| - 1], cap), rs[|rs| - 1], cap)
  }

  function Ends(s: Side, rs: seq<Reply>, cap: nat): (es: seq<End>)
    ensures |es| == |rs|
  {
    if rs == [] then []
    else Ends(s, rs[..|rs| - 1], cap) + [EndOf(Rounds(s, rs[..|rs| - 1], cap).token, rs[|rs| - 1])]
  }

  /** A turn that used `used` replies.  It stops only for a check-in that is not
      good, an empty spool, or the order to stop; and if the spool's last line
      parses it takes at most one check-in more than the spool has lines. */
  ghost predicate TurnDone(s: Side, replies: seq<Reply>, used: nat, cap: nat, ok: bool)
    requires 0 < used <= |replies|
  {
    var ends, last := Ends(s, replies[..used], cap), used - 1;
    && IsTurn(ends) && (ok <==> CalledGood(ends))
    && (ends[last].Good? && used < |replies| ==> Rounds(s, replies[..used], cap).pipe.lines == [])
    && (EndsReadable(s.pipe.lines) ==> used <= |s.pipe.lines| + 1)
  }

  /** The reconnect loop's measure, while all check-ins were good. */
  ghost predicate Progress(start: Side, used: nat, now: Side, ok: bool) {
    && used <= |start.pipe.lines| + 1
    && (ok ==> EndsReadable(now.pipe.lines) && (now.pipe.lines != [] ==> |now.pipe.lines| + used <= |start.pipe.lines|))
  }

  lemma OneRound(s: Side, r: Reply, cap: nat)
    ensures Rounds(s, [r], cap) == Round(s, r, cap) && Ends(s, [r], cap) == [EndOf(s.token, r)]
    ensures EndOf(s.token, r).Good? && EndsReadable(s.pipe.lines) ==> Progress(s, 1, Round(s, r, cap), true)
  {
    assert [r][..0] == [];
    hide Ends, Rounds;
    if EndsReadable(s.pipe.lines) { DrainedTailReadable(s.pipe, r.outcome, cap); }
    hide Settle, Drain;
    assert s.pipe.lines == [] && r.outcome.Accepted? ==> Settle(Drain(s.pipe), r.outcome, cap).lines == [] by { EmptyStaysEmpty(s.pipe, cap); }
  }

  lemma EmptyStaysEmpty(p: Pipe, cap: nat)
    ensures p.lines == [] ==> Settle(Drain(p), Accepted, cap).lines == []
  {
  }

  lemma NextRound(start: Side, replies: seq<Reply>, used: nat, cap: nat)
    requires 0 < used < |replies|
    ensures var here, next := Rounds(start, replies[..used], cap), Rounds(start, replies[..used + 1], cap);
            && next == Round(here, replies[used], cap)
            && Ends(start, replies[..used + 1], cap) == Ends(start, replies[..used], cap) + [EndOf(here.token, replies[used])]
            && (Progress(start, used, here, true) && here.pipe.lines != [] ==>
                  Progress(start, used + 1, next, EndOf(here.token, replies[used]).Good?))
  {
    assert replies[..used + 1][..used] == replies[..used];
    var here, r := Rounds(start, replies[..used], cap), replies[used];
    assert Rounds(start, replies[..used + 1], cap) == Round(here, r, cap);
    hide Rounds, Ends;
    if EndsReadable(here.pipe.lines) { DrainedTailReadable(here.pipe, r.outcome, cap); }
    hide Settle, Drain;
  }

  /** Every turn that is called good got an acknowledgement at its first
      check-in, and at its last exactly if that did not raise. */
  lemma GoodTurnIsAcknowledged(s: Side, replies: seq<Reply>, used: nat, cap: nat, ok: bool)
    requires 0 < used <= |replies| && TurnDone(s, replies, used, cap, ok) && ok
    ensures replies[0].outcome.Accepted? && (s.token || replies[0].enrols)
    ensures var before, last := Rounds(s, replies[..used - 1], cap), replies[used - 1];
            EndOf(before.token, last).Good? <==> !EndOf(before.token, last).Raised?
  {
    GoodTurn(Ends(s, replies[..used], cap));
    assert replies[..used][..used - 1] == replies[..used - 1];
    FirstEnd(s, replies[..used], cap);
  }

  lemma {:induction false} FirstEnd(s: Side, rs: seq<Reply>, cap: nat)
    requires rs != []
    ensures Ends(s, rs, cap)[0] == EndOf(s.token, rs[0])
  {
    if |rs| > 1 { FirstEnd(s, rs[..|rs| - 1], cap); }
  }

  lemma DrainedTailReadable(p: Pipe, o: Outcome, cap: nat)
    requires EndsReadable(p.lines)
    ensures o.Accepted? ==> EndsReadable(Settle(Drain(p), o, cap).lines)
    ensures o.Accepted? && p.lines != [] ==> |Settle(Drain(p), o, cap).lines| < |p.lines|
  {
    if p.lines != [] {
      AckRoundProgress(p.lines, BATCH);
    }
  }
}
