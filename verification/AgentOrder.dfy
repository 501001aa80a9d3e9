/** The scheduler and the result pipeline run together: the append a probe
    thread performs is at once the scheduler's `Store` and the pipeline's.  The
    process may end at any moment and be started again over the same spool. */
module AgentOrder {
  import P = ResultPipeline
  import Q = ProbeScheduler
  import DiskSpool
  import opened Options
  import opened Results

  datatype Agent = Agent(sched: Q.Sched, pipe: P.Pipe)

  datatype Event = Sched(q: Q.Event) | Checkin(p: P.Event) | Restart(saved: map<Q.Key, int>, mono: real)

  /** Flushes come between check-ins; results enter the buffer only from a
      probe thread. */
  ghost predicate Enabled(a: Agent, ev: Event) {
    match ev
    case Sched(q) => Q.Enabled(a.sched, q)
    case Checkin(p) => !p.StoreEv? && (p.FlushEv? ==> a.pipe.flight.Idle?)
    case Restart(_, _) => true
  }

  /** What a new process finds: the spool, and nothing of what was in memory. */
  function Reborn(p: P.Pipe): P.Pipe { p.(flight := P.Idle, buf := []) }

  function Step(a: Agent, ev: Event, cap: nat): Agent
    requires Enabled(a, ev)
  {
    match ev
    case Sched(q) =>
      var t := Q.Step(a.sched, q);
      if q.Store? then
        Agent(t, P.Store(a.pipe, Result(a.sched.cycles[q.id].key, a.sched.cycles[q.id].phase.ts, q.ok)))
      else a.(sched := t)
    case Checkin(p) => a.(pipe := P.Step(a.pipe, p, cap))
    case Restart(saved, mono) =>
      var kept := Reborn(a.pipe);
      Agent(Q.Sched(mono, a.sched.wall, saved, {}, 0, None, {}, map[], saved.Keys, P.History(kept), {}, map[], map[]), kept)
  }

  ghost predicate Legal(a: Agent, evs: seq<Event>, cap: nat)
    decreases |evs|
  {
    evs != [] ==> Enabled(a, evs[0]) && Legal(Step(a, evs[0], cap), evs[1..], cap)
  }

  function Run(a: Agent, evs: seq<Event>, cap: nat): Agent
    requires Legal(a, evs, cap)
    decreases |evs|
  {
    if evs == [] then a else Run(Step(a, evs[0], cap), evs[1..], cap)
  }

  /** A start-up: an idle check-in thread, an empty buffer and a spool, of any
      lines, whose results, left by an earlier process, are in order and not
      from the future. */
  ghost predicate Init(a: Agent) {
    && Q.Init(a.sched)
    && a.pipe.flight.Idle? && a.pipe.buf == [] && a.pipe.gone == []
    && a.sched.output == DiskSpool.Records(a.pipe.lines)
  }

  ghost predicate Inv(a: Agent) {
    Q.Inv(a.sched) && P.InOrder(a.pipe) && P.History(a.pipe) == a.sched.output
  }

  ghost predicate Torn(a: Agent, ev: Event) { ev.Checkin? && P.TornEvent(a.pipe, ev.p) }

  /** No acknowledgement of the run deletes a spool line that does not parse. */
  ghost predicate CleanAcks(a: Agent, evs: seq<Event>, cap: nat)
    requires Legal(a, evs, cap)
    decreases |evs|
  {
    evs != [] ==> !Torn(a, evs[0]) && CleanAcks(Step(a, evs[0], cap), evs[1..], cap)
  }

  lemma {:induction false} RunInv(a: Agent, evs: seq<Event>, cap: nat)
    requires Inv(a) && Legal(a, evs, cap) && CleanAcks(a, evs, cap)
    ensures Inv(Run(a, evs, cap))
    decreases |evs|
  {
    if evs != [] {
      StepInv(a, evs[0], cap);
      RunInv(Step(a, evs[0], cap), evs[1..], cap);
    }
  }

  lemma StepInv(a: Agent, ev: Event, cap: nat)
    requires Inv(a) && Enabled(a, ev) && !Torn(a, ev)
    ensures Inv(Step(a, ev, cap))
  {
    match ev
    case Sched(q) =>
      Q.StepInv(a.sched, q);
      if q.Store? {
        P.StepKeepsHistory(a.pipe, P.StoreEv(Result(a.sched.cycles[q.id].key, a.sched.cycles[q.id].phase.ts, q.ok)), cap);
      }
    case Checkin(p) =>
      P.StepKeepsHistory(a.pipe, p, cap);
    case Restart(_, _) =>
      RestartInv(a, ev, cap);
  }

  lemma RestartInv(a: Agent, ev: Event, cap: nat)
    requires Inv(a) && ev.Restart?
    ensures Inv(Step(a, ev, cap))
  {
    var kept, t := Reborn(a.pipe), Step(a, ev, cap).sched;
    assert P.Queue(kept) <= P.Queue(a.pipe);
    assert P.History(kept) <= a.sched.output;
    Q.InitInv(t);
  }

  /** The promise at the head of the spool: over every interleaving of the
      scheduler, the probe threads, config syncs, check-ins with any outcome,
      overflows and update flushes, and across restarts, the results the agent
      saw acknowledged are in non-decreasing time-stamp order per sensor; and
      all that was measured, but for what a process had in memory when it
      ended, is accounted for in measuring order: as long as no acknowledgement
      deletes a spool line that does not parse. */
  lemma AcknowledgedInOrder(a: Agent, evs: seq<Event>, cap: nat)
    requires Init(a) && Legal(a, evs, cap) && CleanAcks(a, evs, cap)
    ensures PerSensorSorted(P.AckedOf(Run(a, evs, cap).pipe.gone))
    ensures P.History(Run(a, evs, cap).pipe) == Run(a, evs, cap).sched.output
  {
    Q.InitInv(a.sched);
    assert P.History(a.pipe) == DiskSpool.Records(a.pipe.lines);
    RunInv(a, evs, cap);
    P.AckedPartInOrder(Run(a, evs, cap).pipe);
  }

  /** Of a spool whose lines all parse at start-up that is no condition: no run
      of the agent writes any other line. */
  lemma {:induction false} ReadableSpoolAcksCleanly(a: Agent, evs: seq<Event>, cap: nat)
    requires Legal(a, evs, cap) && DiskSpool.Readable(a.pipe.lines)
    ensures CleanAcks(a, evs, cap)
    decreases |evs|
  {
    hide Step, Enabled, Torn;
    if evs != [] {
      StaysReadable(a, evs[0], cap);
      ReadableSpoolAcksCleanly(Step(a, evs[0], cap), evs[1..], cap);
    }
  }

  lemma StaysReadable(a: Agent, ev: Event, cap: nat)
    requires Enabled(a, ev) && DiskSpool.Readable(a.pipe.lines)
    ensures DiskSpool.Readable(Step(a, ev, cap).pipe.lines) && !Torn(a, ev)
  {
    if ev.Checkin? { P.StaysReadable(a.pipe, ev.p, cap); }
  }

  /** A probe's result enters history and buffer as it was measured. */
  lemma StoredAsMeasured(a: Agent, id: nat, ok: bool, cap: nat)
    requires Enabled(a, Sched(Q.Store(id, ok)))
    ensures var r := Result(a.sched.cycles[id].key, a.sched.cycles[id].phase.ts, ok);
            var b := Step(a, Sched(Q.Store(id, ok)), cap);
            b.sched.output == a.sched.output + [r] && b.pipe.buf == a.pipe.buf + [r]
  {
  }
}
