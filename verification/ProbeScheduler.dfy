/** The agent's probe scheduler: a heap of due entries, a set of keys with a
    probe running, worker threads that re-queue their own sensor, and a
    check-in thread that replaces the sensor table.  `Sched` is the shared
    state; every event is one atomic action of one of those threads. */
module ProbeScheduler {
  import opened Options
  import opened Results

  type Key = string

  datatype Entry = Entry(due: real, seqNo: nat, key: Key)

  /** Where a probe thread is: running the probe, holding a time stamp, past
      `buf.append`, past the in-flight discard, or about to re-queue. */
  datatype Phase = Probing | Stamped(ts: real) | Stored | Released | Waiting(delay: real)

  datatype Cycle = Cycle(key: Key, phase: Phase) {
    predicate Active() { phase.Probing? || phase.Stamped? || phase.Stored? }
  }

  /** `hand` is the key the scheduler thread has popped and not yet judged,
      `adding` the keys a config sync still has to schedule.  The last three
      fields only record history: keys some sync removed, the last time each
      key left the in-flight set, and the delay then chosen. */
  datatype Sched = Sched(
    mono: real, wall: real,
    sensors: map<Key, int>, heap: set<Entry>, nextSeq: nat, hand: Option<Key>,
    inflight: set<Key>, cycles: map<nat, Cycle>, adding: set<Key>,
    output: seq<Result>,
    removed: set<Key>, released: map<Key, real>, delays: map<Key, real>)

  datatype Event =
    | Tick(dm: real, dw: real)
    | Pop(e: Entry)
    | Judge(id: nat)
    | Stamp(id: nat)
    | Store(id: nat, ok: bool)
    | Discard(id: nat)
    | Reread(id: nat)
    | Requeue(id: nat)
    | SyncSwap(table: map<Key, int>)
    | SyncAdd(key: Key, delay: real)

  /** `max(1, int(interval or 5))` seconds. */
  function Delay(interval: int): real {
    if interval == 0 then 5.0 else if interval < 1 then 1.0 else interval as real
  }

  predicate Before(a: Entry, b: Entry) {
    a.due < b.due || (a.due == b.due && a.seqNo <= b.seqNo)
  }

  ghost predicate IsFirst(e: Entry, heap: set<Entry>) {
    e in heap && forall x :: x in heap ==> Before(e, x)
  }

  function Push(s: Sched, key: Key, delay: real): Sched {
    s.(heap := s.heap + {Entry(s.mono + delay, s.nextSeq, key)}, nextSeq := s.nextSeq + 1)
  }

  function SetPhase(s: Sched, id: nat, phase: Phase): Sched
    requires id in s.cycles
  {
    s.(cycles := s.cycles[id := s.cycles[id].(phase := phase)])
  }

  ghost predicate Enabled(s: Sched, ev: Event) {
    match ev
    case Tick(dm, dw) => dm >= 0.0 && dw >= 0.0
    case Pop(e) => s.hand.None? && IsFirst(e, s.heap) && e.due <= s.mono
    case Judge(id) => s.hand.Some? && id !in s.cycles
    case Stamp(id) => id in s.cycles && s.cycles[id].phase.Probing?
    case Store(id, _) => id in s.cycles && s.cycles[id].phase.Stamped?
    case Discard(id) => id in s.cycles && s.cycles[id].Active()
    case Reread(id) => id in s.cycles && s.cycles[id].phase.Released?
    case Requeue(id) => id in s.cycles && s.cycles[id].phase.Waiting?
    case SyncSwap(_) => s.adding == {}
    case SyncAdd(k, delay) => k in s.adding && delay >= 0.0
  }

  function Step(s: Sched, ev: Event): Sched
    requires Enabled(s, ev)
  {
    match ev
    case Tick(dm, dw) => s.(mono := s.mono + dm, wall := s.wall + dw)
    case Pop(e) => s.(heap := s.heap - {e}, hand := Some(e.key))
    case Judge(id) =>
      var k, t := s.hand.value, s.(hand := None);
      if k !in s.sensors || k in s.inflight then t
      else t.(inflight := s.inflight + {k}, cycles := s.cycles[id := Cycle(k, Probing)])
    case Stamp(id) => SetPhase(s, id, Stamped(s.wall))
    case Store(id, ok) =>
      SetPhase(s, id, Stored).(output := s.output + [Result(s.cycles[id].key, s.cycles[id].phase.ts, ok)])
    case Discard(id) =>
      var k := s.cycles[id].key;
      SetPhase(s, id, Released).(inflight := s.inflight - {k}, released := s.released[k := s.mono])
    case Reread(id) =>
      var k := s.cycles[id].key;
      if k in s.sensors then
        SetPhase(s, id, Waiting(Delay(s.sensors[k]))).(delays := s.delays[k := Delay(s.sensors[k])])
      else
        s.(cycles := s.cycles - {id})
    case Requeue(id) =>
      Push(s, s.cycles[id].key, s.cycles[id].phase.delay).(cycles := s.cycles - {id})
    case SyncSwap(table) =>
      s.(sensors := table, adding := table.Keys - s.sensors.Keys,
         removed := s.removed + (s.sensors.Keys - table.Keys))
    case SyncAdd(k, delay) => Push(s, k, delay).(adding := s.adding - {k})
  }

  /** The wait a finishing probe chooses is its sensor's interval: 5 s if none is
      given, never less than 1 s; and it is queued exactly that far ahead. */
  lemma RequeuesAfterInterval(s: Sched, id: nat)
    requires Enabled(s, Reread(id)) && s.cycles[id].key in s.sensors
    ensures var k := s.cycles[id].key;
            var i := s.sensors[k];
            var wait := if i == 0 then 5.0 else if i < 1 then 1.0 else i as real;
            var t := Step(s, Reread(id));
            && k in t.delays && t.delays[k] == wait && Enabled(t, Requeue(id))
            && Step(t, Requeue(id)).heap == s.heap + {Entry(s.mono + wait, s.nextSeq, k)}
  {
  }

  // ------------------------------------------------------------ invariants

  /** Somewhere a sensor's next probe can be waiting. */
  datatype Place = InHeap(e: Entry) | InHand | InCycle(id: nat) | InAdding

  ghost predicate Holds(s: Sched, p: Place, k: Key) {
    match p
    case InHeap(e) => e in s.heap && e.key == k
    case InHand => s.hand == Some(k)
    case InCycle(id) => id in s.cycles && s.cycles[id].key == k
    case InAdding => k in s.adding
  }

  ghost predicate Covered(s: Sched, k: Key) {
    exists p :: Holds(s, p, k)
  }

  ghost predicate InflightExact(s: Sched) {
    && (forall id :: id in s.cycles && s.cycles[id].Active() ==> s.cycles[id].key in s.inflight)
    && (forall k :: k in s.inflight ==> exists id :: id in s.cycles && s.cycles[id].Active() && s.cycles[id].key == k)
  }

  ghost predicate OneInFlight(s: Sched) {
    forall a, b | a in s.cycles && b in s.cycles && s.cycles[a].Active() && s.cycles[b].Active() ::
      s.cycles[a].key == s.cycles[b].key ==> a == b
  }

  ghost predicate AllCovered(s: Sched) {
    forall k :: k in s.sensors ==> Covered(s, k)
  }

  ghost predicate SeqNosFresh(s: Sched) {
    forall e :: e in s.heap ==> e.seqNo < s.nextSeq
  }

  ghost predicate OneToken(s: Sched) {
    && (forall p, k :: Holds(s, p, k) ==> k in s.sensors || k in s.removed)
    && (forall p, q, k :: Holds(s, p, k) && Holds(s, q, k) && k !in s.removed ==> p == q)
  }

  ghost predicate StampsInOrder(s: Sched) {
    && PerSensorSorted(s.output)
    && (forall i :: 0 <= i < |s.output| ==> s.output[i].ts <= s.wall)
    && (forall id, i | id in s.cycles && s.cycles[id].phase.Stamped? && 0 <= i < |s.output| ::
          s.output[i].key == s.cycles[id].key ==> s.output[i].ts <= s.cycles[id].phase.ts)
    && (forall id :: id in s.cycles && s.cycles[id].phase.Stamped? ==> s.cycles[id].phase.ts <= s.wall)
  }

  ghost predicate Spaced(s: Sched) {
    && (forall k :: k in s.released ==> s.released[k] <= s.mono && (k in s.sensors || k in s.removed))
    && (forall k :: k in s.adding && k !in s.removed ==> k !in s.released)
    && (forall e :: e in s.heap && e.key !in s.removed && e.key in s.released ==>
          e.key in s.delays && s.released[e.key] + s.delays[e.key] <= e.due)
    && (s.hand.Some? && s.hand.value !in s.removed && s.hand.value in s.released ==>
          s.hand.value in s.delays && s.released[s.hand.value] + s.delays[s.hand.value] <= s.mono)
    && (forall id :: id in s.cycles && s.cycles[id].phase.Waiting? && s.cycles[id].key !in s.removed ==>
          s.cycles[id].key in s.released && s.cycles[id].key in s.delays
          && s.cycles[id].phase.delay == s.delays[s.cycles[id].key])
    && (forall id :: id in s.cycles && s.cycles[id].phase.Released? ==> s.cycles[id].key in s.released)
  }

  ghost predicate Inv(s: Sched) {
    InflightExact(s) && OneInFlight(s) && AllCovered(s) && SeqNosFresh(s) && OneToken(s) && StampsInOrder(s) && Spaced(s)
  }

  /** The agent before its scheduler runs: nothing queued, every sensor about
      to be scheduled, and older results (from the spool) already in order. */
  ghost predicate Init(s: Sched) {
    && s.heap == {} && s.hand.None? && s.inflight == {} && s.cycles == map[] && s.adding == s.sensors.Keys
    && s.removed == {} && s.released == map[] && s.delays == map[]
    && PerSensorSorted(s.output) && (forall i :: 0 <= i < |s.output| ==> s.output[i].ts <= s.wall)
  }

  lemma InitInv(s: Sched)
    requires Init(s)
    ensures Inv(s)
  {
    forall k | k in s.sensors ensures Covered(s, k) {
      assert Holds(s, InAdding, k);
    }
  }

  lemma OneInFlightKept(s: Sched, ev: Event)
    requires InflightExact(s) && OneInFlight(s) && Enabled(s, ev)
    ensures OneInFlight(Step(s, ev))
  {
  }

  lemma InflightKept(s: Sched, ev: Event)
    requires InflightExact(s) && OneInFlight(s) && Enabled(s, ev)
    ensures InflightExact(Step(s, ev))
  {
    var t := Step(s, ev);
    forall k | k in t.inflight
      ensures exists id :: id in t.cycles && t.cycles[id].Active() && t.cycles[id].key == k
    {
      if k in s.inflight {
        var id :| id in s.cycles && s.cycles[id].Active() && s.cycles[id].key == k;
        assert id in t.cycles && t.cycles[id].Active() && t.cycles[id].key == k;
      } else {
        assert ev.Judge? && t.cycles[ev.id] == Cycle(k, Probing);
      }
    }
  }

  /** Where a place of `s` for sensor `k` is found after the step. */
  ghost function Moved(s: Sched, ev: Event, p: Place, k: Key): Place
    requires InflightExact(s) && Enabled(s, ev) && Holds(s, p, k)
  {
    if ev.Pop? && p == InHeap(ev.e) then InHand
    else if ev.Judge? && p == InHand then
      if k in s.inflight then
        var id :| id in s.cycles && s.cycles[id].Active() && s.cycles[id].key == k; InCycle(id)
      else InCycle(ev.id)
    else if ev.Requeue? && p == InCycle(ev.id) then InHeap(Entry(s.mono + s.cycles[ev.id].phase.delay, s.nextSeq, k))
    else if ev.SyncAdd? && p == InAdding && ev.key == k then InHeap(Entry(s.mono + ev.delay, s.nextSeq, k))
    else p
  }

  lemma CoverageKept(s: Sched, ev: Event)
    requires InflightExact(s) && AllCovered(s) && Enabled(s, ev)
    ensures AllCovered(Step(s, ev))
  {
    var t := Step(s, ev);
    forall k | k in t.sensors ensures Covered(t, k) {
      if k in s.sensors {
        var p :| Holds(s, p, k);
        assert Holds(t, Moved(s, ev, p, k), k);
      } else {
        assert Holds(t, InAdding, k);
      }
    }
  }

  /** Where a place after the step came from. */
  ghost function Origin(s: Sched, ev: Event, p: Place, k: Key): Place {
    match ev
    case Pop(e) => if p == InHand then InHeap(e) else p
    case Judge(id) => if p == InCycle(id) then InHand else p
    case Requeue(id) => if p.InHeap? && p.e.seqNo == s.nextSeq then InCycle(id) else p
    case SyncAdd(_, _) => if p.InHeap? && p.e.seqNo == s.nextSeq then InAdding else p
    case _ => p
  }

  lemma TokensKept(s: Sched, ev: Event)
    requires OneToken(s) && SeqNosFresh(s) && Enabled(s, ev)
    ensures OneToken(Step(s, ev)) && SeqNosFresh(Step(s, ev))
  {
    var t := Step(s, ev);
    if ev.SyncSwap? {
      forall p, k | Holds(t, p, k) ensures k in t.sensors || k in t.removed {
        if p != InAdding { assert Holds(s, p, k); }
      }
      forall p, q, k | Holds(t, p, k) && Holds(t, q, k) && k !in t.removed ensures p == q {
        if p != InAdding { assert Holds(s, p, k); }
        if q != InAdding { assert Holds(s, q, k); }
      }
    } else {
      forall p, k | Holds(t, p, k) ensures Holds(s, Origin(s, ev, p, k), k) {
      }
      forall p, q, k | Holds(t, p, k) && Holds(t, q, k) && k !in t.removed ensures p == q {
        assert Holds(s, Origin(s, ev, p, k), k) && Holds(s, Origin(s, ev, q, k), k);
        assert Origin(s, ev, p, k) == Origin(s, ev, q, k);
      }
    }
  }

  lemma StampsKept(s: Sched, ev: Event)
    requires StampsInOrder(s) && OneInFlight(s) && Enabled(s, ev)
    ensures StampsInOrder(Step(s, ev))
  {
    if ev.Store? {
      StampsKeptByStore(s, ev);
    } else if ev.Tick? || ev.Stamp? {
      StampsKeptByClock(s, ev);
    } else {
      NothingStamped(s, ev);
      hide Step;
    }
  }

  lemma StampsKeptByStore(s: Sched, ev: Event)
    requires ev.Store? && StampsInOrder(s) && OneInFlight(s) && Enabled(s, ev)
    ensures StampsInOrder(Step(s, ev))
  {
  }

  lemma StampsKeptByClock(s: Sched, ev: Event)
    requires (ev.Tick? || ev.Stamp?) && StampsInOrder(s) && Enabled(s, ev)
    ensures StampsInOrder(Step(s, ev))
  {
  }

  /** Other events stamp nothing and store nothing. */
  lemma NothingStamped(s: Sched, ev: Event)
    requires !ev.Store? && !ev.Tick? && !ev.Stamp? && Enabled(s, ev)
    ensures var t := Step(s, ev);
            && t.output == s.output && t.wall == s.wall
            && forall id :: id in t.cycles && t.cycles[id].phase.Stamped? ==> id in s.cycles && t.cycles[id] == s.cycles[id]
  {
  }

  lemma SpacingKept(s: Sched, ev: Event)
    requires Spaced(s) && OneToken(s) && Enabled(s, ev)
    ensures Spaced(Step(s, ev))
  {
    if ev.Discard? || ev.Reread? {
      SpacingAfterThread(s, ev, ev.id);
    } else if ev.Stamp? || ev.Store? || ev.Requeue? {
      SpacingInThread(s, ev);
    } else if ev.SyncSwap? || ev.SyncAdd? {
      SpacingInSync(s, ev);
    }
  }

  lemma SpacingInSync(s: Sched, ev: Event)
    requires Spaced(s) && OneToken(s) && Enabled(s, ev) && (ev.SyncSwap? || ev.SyncAdd?)
    ensures Spaced(Step(s, ev))
  {
  }

  lemma SpacingInThread(s: Sched, ev: Event)
    requires Spaced(s) && OneToken(s) && Enabled(s, ev) && (ev.Stamp? || ev.Store? || ev.Requeue?)
    ensures Spaced(Step(s, ev))
  {
  }

  lemma SpacingAfterThread(s: Sched, ev: Event, id: nat)
    requires Spaced(s) && OneToken(s) && Enabled(s, ev)
    requires ev == Discard(id) || ev == Reread(id)
    ensures Spaced(Step(s, ev))
  {
    OnlyPlace(s, id);
    var k, t := s.cycles[id].key, Step(s, ev);
    if k !in s.removed {
      assert k in s.adding ==> Holds(s, InAdding, k);
      assert s.hand == Some(k) ==> Holds(s, InHand, k);
      forall e | e in s.heap ensures e.key != k { assert Holds(s, InHeap(e), e.key); }
      forall x | x in s.cycles && x != id ensures s.cycles[x].key != k { assert Holds(s, InCycle(x), s.cycles[x].key); }
    }
  }

  lemma OnlyPlace(s: Sched, id: nat)
    requires OneToken(s) && id in s.cycles
    ensures s.cycles[id].key in s.sensors || s.cycles[id].key in s.removed
    ensures forall p :: Holds(s, p, s.cycles[id].key) && s.cycles[id].key !in s.removed ==> p == InCycle(id)
  {
    assert Holds(s, InCycle(id), s.cycles[id].key);
  }

  lemma StepInv(s: Sched, ev: Event)
    requires Inv(s) && Enabled(s, ev)
    ensures Inv(Step(s, ev))
  {
    InflightKept(s, ev);
    OneInFlightKept(s, ev);
    CoverageKept(s, ev);
    TokensKept(s, ev);
    StampsKept(s, ev);
    SpacingKept(s, ev);
  }

  // ------------------------------------------------------------------ runs

  ghost predicate Legal(s: Sched, evs: seq<Event>)
    decreases |evs|
  {
    evs != [] ==> Enabled(s, evs[0]) && Legal(Step(s, evs[0]), evs[1..])
  }

  function Run(s: Sched, evs: seq<Event>): Sched
    requires Legal(s, evs)
    decreases |evs|
  {
    if evs == [] then s else Run(Step(s, evs[0]), evs[1..])
  }

  lemma {:induction false} RunInv(s: Sched, evs: seq<Event>)
    requires Inv(s) && Legal(s, evs)
    ensures Inv(Run(s, evs))
    decreases |evs|
  {
    if evs != [] {
      StepInv(s, evs[0]);
      RunInv(Step(s, evs[0]), evs[1..]);
    }
  }

  /** In every interleaving of scheduler, probe threads and config syncs, no
      sensor has two probes running. */
  lemma NeverTwoInFlight(s: Sched, evs: seq<Event>, a: nat, b: nat)
    requires Init(s) && Legal(s, evs)
    requires var t := Run(s, evs);
             a in t.cycles && b in t.cycles && a != b && t.cycles[a].Active() && t.cycles[b].Active()
    ensures Run(s, evs).cycles[a].key != Run(s, evs).cycles[b].key
  {
    InitInv(s);
    RunInv(s, evs);
  }

  /** No interleaving starves a sensor: every assigned sensor has its next
      probe queued, held, running, finishing or about to be scheduled. */
  lemma NoSensorForgotten(s: Sched, evs: seq<Event>, k: Key)
    requires Init(s) && Legal(s, evs) && k in Run(s, evs).sensors
    ensures Covered(Run(s, evs), k)
  {
    InitInv(s);
    RunInv(s, evs);
  }

  /** A sensor no sync ever removed holds exactly one such place. */
  lemma ExactlyOneToken(s: Sched, evs: seq<Event>, k: Key)
    requires Init(s) && Legal(s, evs)
    requires k in Run(s, evs).sensors && k !in Run(s, evs).removed
    ensures exists p :: Holds(Run(s, evs), p, k) && forall q :: Holds(Run(s, evs), q, k) ==> q == p
  {
    InitInv(s);
    RunInv(s, evs);
    var t := Run(s, evs);
    var p :| Holds(t, p, k);
    assert forall q :: Holds(t, q, k) ==> q == p;
  }

  /** A sensor no sync ever removed is never probed again sooner than its
      interval after it last left the in-flight set. */
  lemma StartsKeepInterval(s: Sched, evs: seq<Event>, id: nat)
    requires Init(s) && Legal(s, evs) && Enabled(Run(s, evs), Judge(id))
    requires var t := Run(s, evs);
             id in Step(t, Judge(id)).cycles && t.hand.value !in t.removed && t.hand.value in t.released
    ensures var t := Run(s, evs);
            var k := t.hand.value;
            k in t.delays && t.delays[k] >= 1.0 && t.released[k] + t.delays[k] <= t.mono
  {
    InitInv(s);
    RunInv(s, evs);
    DelaysPositive(s, evs);
  }

  lemma {:induction false} DelaysPositive(s: Sched, evs: seq<Event>)
    requires Legal(s, evs) && forall k :: k in s.delays ==> s.delays[k] >= 1.0
    ensures forall k :: k in Run(s, evs).delays ==> Run(s, evs).delays[k] >= 1.0
    decreases |evs|
  {
    if evs != [] {
      DelaysPositive(Step(s, evs[0]), evs[1..]);
    }
  }

  /** Results reach the live buffer in time-stamp order per sensor, although
      sixteen threads stamp and append independently. */
  lemma OutputInOrder(s: Sched, evs: seq<Event>)
    requires Init(s) && Legal(s, evs)
    ensures PerSensorSorted(Run(s, evs).output)
  {
    InitInv(s);
    RunInv(s, evs);
  }

  // ------------------------------------- sensors a sync removes and brings back

  ghost predicate AtMostOnePlace(s: Sched, k: Key) {
    forall p, q :: Holds(s, p, k) && Holds(s, q, k) ==> p == q
  }

  /** The sync brings back a sensor of which an entry or a probe is left. */
  ghost predicate Doubles(s: Sched, ev: Event, k: Key) {
    ev.SyncSwap? && k in ev.table && k !in s.sensors && Covered(s, k)
  }

  /** One event gives a sensor a second place exactly when it is such a sync. */
  lemma SecondPlaceIffDoubles(s: Sched, ev: Event, k: Key)
    requires AtMostOnePlace(s, k) && SeqNosFresh(s) && Enabled(s, ev)
    ensures AtMostOnePlace(Step(s, ev), k) <==> !Doubles(s, ev, k)
  {
    var t := Step(s, ev);
    if Doubles(s, ev, k) {
      var p :| Holds(s, p, k);
      assert p != InAdding && Holds(t, p, k) && Holds(t, InAdding, k);
    } else {
      forall p, q | Holds(t, p, k) && Holds(t, q, k) ensures p == q {
        if ev.SyncSwap? {
          assert p != InAdding ==> Holds(s, p, k);
          assert q != InAdding ==> Holds(s, q, k);
        } else {
          assert Holds(s, Origin(s, ev, p, k), k) && Holds(s, Origin(s, ev, q, k), k);
        }
      }
    }
  }

  ghost predicate NeverDoubles(s: Sched, evs: seq<Event>, k: Key)
    requires Legal(s, evs)
    decreases |evs|
  {
    evs != [] ==> !Doubles(s, evs[0], k) && NeverDoubles(Step(s, evs[0]), evs[1..], k)
  }

  ghost predicate AlwaysOnePlace(s: Sched, evs: seq<Event>, k: Key)
    requires Legal(s, evs)
    decreases |evs|
  {
    AtMostOnePlace(s, k) && (evs != [] ==> AlwaysOnePlace(Step(s, evs[0]), evs[1..], k))
  }

  /** Over every run, a sensor, however often removed and re-added, has at most
      one place at all times exactly when no sync brings it back while it still
      has one. */
  lemma OnePlaceIffNeverDoubled(s: Sched, evs: seq<Event>, k: Key)
    requires Init(s) && Legal(s, evs)
    ensures AlwaysOnePlace(s, evs, k) <==> NeverDoubles(s, evs, k)
  {
    OnePlaceAlong(s, evs, k);
  }

  lemma {:induction false} OnePlaceAlong(s: Sched, evs: seq<Event>, k: Key)
    requires AtMostOnePlace(s, k) && OneToken(s) && SeqNosFresh(s) && Legal(s, evs)
    ensures AlwaysOnePlace(s, evs, k) <==> NeverDoubles(s, evs, k)
    decreases |evs|
  {
    hide Step, AtMostOnePlace, Doubles, OneToken, SeqNosFresh, Enabled;
    if evs != [] {
      SecondPlaceIffDoubles(s, evs[0], k);
      TokensKept(s, evs[0]);
      if !Doubles(s, evs[0], k) { OnePlaceAlong(Step(s, evs[0]), evs[1..], k); }
    }
  }

  /** When the probes of a sensor start in a run. */
  function Starts(s: Sched, evs: seq<Event>, k: Key): seq<real>
    requires Legal(s, evs)
    decreases |evs|
  {
    if evs == [] then []
    else
      (if evs[0].Judge? && s.hand == Some(k) && k in s.sensors && k !in s.inflight then [s.mono] else [])
      + Starts(Step(s, evs[0]), evs[1..], k)
  }

  lemma {:induction false} StartsAppend(s: Sched, evs: seq<Event>, more: seq<Event>, k: Key)
    requires Legal(s, evs) && Legal(Run(s, evs), more) && Legal(s, evs + more)
    ensures Starts(s, evs + more, k) == Starts(s, evs, k) + Starts(Run(s, evs), more, k)
    decreases |evs|
  {
    hide Step;
    if evs == [] {
      assert evs + more == more;
    } else {
      assert (evs + more)[0] == evs[0] && (evs + more)[1..] == evs[1..] + more;
      StartsAppend(Step(s, evs[0]), evs[1..], more, k);
    }
  }

  /** The scheduler's state when the clock shows `mono` and the only sensor `k`
      has the given entries, next number, probe and pending addition. */
  ghost predicate Single(s: Sched, k: Key, d: int, mono: real, heap: set<Entry>, n: nat, running: bool, adding: bool) {
    && s.mono == mono && s.sensors == map[k := d] && s.heap == heap && s.nextSeq == n && s.hand.None?
    && s.inflight == (if running then {k} else {}) && s.adding == (if adding then {k} else {})
    && (if running then s.cycles == map[0 := Cycle(k, Probing)] else s.cycles == map[])
  }

  /** A run built up piece by piece. */
  lemma Extend(s: Sched, evs: seq<Event>, more: seq<Event>, k: Key) returns (all: seq<Event>)
    requires Legal(s, evs) && Legal(Run(s, evs), more)
    ensures all == evs + more && Legal(s, all) && Run(s, all) == Run(Run(s, evs), more)
    ensures Starts(s, all, k) == Starts(s, evs, k) + Starts(Run(s, evs), more, k)
  {
    all := evs + more;
    RunAppend(s, evs, more);
    StartsAppend(s, evs, more, k);
  }

  lemma OneEvent(s: Sched, ev: Event, k: Key)
    requires Enabled(s, ev)
    ensures Legal(s, [ev]) && Run(s, [ev]) == Step(s, ev)
    ensures !ev.Judge? ==> Starts(s, [ev], k) == []
  {
    assert [ev][1..] == [];
  }

  /** Time passes until an entry is due, and its probe starts. */
  lemma WaitAndStart(s: Sched, k: Key, d: int, e: Entry, rest: set<Entry>) returns (evs: seq<Event>)
    requires e !in rest && e.key == k && s.mono <= e.due && forall x :: x in rest ==> Before(e, x)
    requires Single(s, k, d, s.mono, rest + {e}, s.nextSeq, false, false)
    ensures Legal(s, evs) && Starts(s, evs, k) == [e.due] && Single(Run(s, evs), k, d, e.due, rest, s.nextSeq, true, false)
  {
    var wait := Tick(e.due - s.mono, e.due - s.mono);
    var a := Step(s, wait);
    var b := Step(a, Pop(e));
    var c := Step(b, Judge(0));
    assert rest + {e} - {e} == rest;
    OneEvent(b, Judge(0), k);
    assert Starts(c, [], k) == [] && [Judge(0)][1..] == [];
    OneEvent(a, Pop(e), k);
    OneEvent(s, wait, k);
    var ab := Extend(s, [wait], [Pop(e)], k);
    evs := Extend(s, ab, [Judge(0)], k);
  }

  /** A running probe finishes and queues its sensor again. */
  lemma FinishProbe(s: Sched, k: Key, d: int) returns (evs: seq<Event>)
    requires Single(s, k, d, s.mono, s.heap, s.nextSeq, true, false) && d >= 1
    ensures Legal(s, evs) && Starts(s, evs, k) == []
    ensures Single(Run(s, evs), k, d, s.mono, s.heap + {Entry(s.mono + d as real, s.nextSeq, k)}, s.nextSeq + 1, false, false)
  {
    FinishSteps(s, k, d);
    hide Step, Run, Legal, Starts, Enabled, Single;
    var s1 := Step(s, Stamp(0));
    var s2 := Step(s1, Store(0, true));
    var s3 := Step(s2, Discard(0));
    var s4 := Step(s3, Reread(0));
    OneEvent(s, Stamp(0), k);
    OneEvent(s1, Store(0, true), k);
    OneEvent(s2, Discard(0), k);
    OneEvent(s3, Reread(0), k);
    OneEvent(s4, Requeue(0), k);
    evs := Extend(s, [Stamp(0)], [Store(0, true)], k);
    evs := Extend(s, evs, [Discard(0)], k);
    evs := Extend(s, evs, [Reread(0)], k);
    evs := Extend(s, evs, [Requeue(0)], k);
  }

  lemma FinishSteps(s: Sched, k: Key, d: int)
    requires Single(s, k, d, s.mono, s.heap, s.nextSeq, true, false) && d >= 1
    ensures Enabled(s, Stamp(0))
    ensures var s1 := Step(s, Stamp(0)); Enabled(s1, Store(0, true))
    ensures var s2 := Step(Step(s, Stamp(0)), Store(0, true)); Enabled(s2, Discard(0))
    ensures var s3 := Step(Step(Step(s, Stamp(0)), Store(0, true)), Discard(0)); Enabled(s3, Reread(0))
    ensures var s4 := Step(Step(Step(Step(s, Stamp(0)), Store(0, true)), Discard(0)), Reread(0));
            && Enabled(s4, Requeue(0))
            && Single(Step(s4, Requeue(0)), k, d, s.mono, s.heap + {Entry(s.mono + d as real, s.nextSeq, k)}, s.nextSeq + 1, false, false)
  {
  }

  /** From an entry in the heap: wait, probe, and queue again. */
  lemma WholeCycle(s: Sched, k: Key, d: int, e: Entry, rest: set<Entry>) returns (evs: seq<Event>)
    requires e !in rest && e.key == k && s.mono <= e.due && d >= 1 && forall x :: x in rest ==> Before(e, x)
    requires Single(s, k, d, s.mono, rest + {e}, s.nextSeq, false, false)
    ensures Legal(s, evs) && Starts(s, evs, k) == [e.due]
    ensures Single(Run(s, evs), k, d, e.due, rest + {Entry(e.due + d as real, s.nextSeq, k)}, s.nextSeq + 1, false, false)
  {
    hide Step, Run, Legal, Starts;
    var a := WaitAndStart(s, k, d, e, rest);
    var b := FinishProbe(Run(s, a), k, d);
    evs := Extend(s, a, b, k);
  }

  /** Start-up, first probe, and while it runs a removal and a re-addition. */
  lemma RemoveAndReadd(s: Sched, k: Key, d: int) returns (evs: seq<Event>)
    requires Init(s) && s.sensors == map[k := d] && d >= 1
    ensures Legal(s, evs) && Starts(s, evs, k) == [s.mono + 1.0]
    ensures Single(Run(s, evs), k, d, s.mono + 1.0, {Entry(s.mono + 1.5, s.nextSeq + 1, k)}, s.nextSeq + 2, true, false)
  {
    var first := Entry(s.mono + 1.0, s.nextSeq, k);
    var a := Step(s, SyncAdd(k, 1.0));
    OneEvent(s, SyncAdd(k, 1.0), k);
    assert Single(a, k, d, a.mono, {} + {first}, s.nextSeq + 1, false, false);
    var start := WaitAndStart(a, k, d, first, {});
    evs := Extend(s, [SyncAdd(k, 1.0)], start, k);
    var b := Run(s, evs);
    hide Step, Run, Legal, Starts, Init;
    var more := Revive(b, k, d);
    evs := Extend(s, evs, more, k);
  }

  /** A sync takes the sensor away while its probe runs, and the next one
      brings it back. */
  lemma Revive(b: Sched, k: Key, d: int) returns (evs: seq<Event>)
    requires Single(b, k, d, b.mono, {}, b.nextSeq, true, false)
    ensures Legal(b, evs) && Starts(b, evs, k) == []
    ensures Single(Run(b, evs), k, d, b.mono, {Entry(b.mono + 0.5, b.nextSeq, k)}, b.nextSeq + 1, true, false)
  {
    var out, back, add := SyncSwap(map[]), SyncSwap(map[k := d]), SyncAdd(k, 0.5);
    var b1 := Step(b, out);
    OneEvent(b, out, k);
    assert b1.sensors.Keys == {} && b1.adding == {};
    var b2 := Step(b1, back);
    OneEvent(b1, back, k);
    assert b2.adding == {k};
    var b3 := Step(b2, add);
    OneEvent(b2, add, k);
    assert Single(b3, k, d, b.mono, {Entry(b.mono + 0.5, b.nextSeq, k)}, b.nextSeq + 1, true, false);
    hide Step, Run, Legal, Starts;
    evs := Extend(b, [out], [back], k);
    evs := Extend(b, evs, [add], k);
  }

  /** Such a sync really happens and really breaks the interval: from start-up,
      the sensor is removed and re-added while its probe runs, and from then on
      it is probed twice per interval, half a second apart. */
  lemma RevivedSensorProbesTwicePerInterval(s: Sched, k: Key, d: int) returns (evs: seq<Event>)
    requires Init(s) && s.sensors == map[k := d] && d >= 1
    ensures Legal(s, evs) && !AlwaysOnePlace(s, evs, k)
    ensures var m, i := s.mono + 1.0, d as real;
            Starts(s, evs, k) == [m, m + 0.5, m + i, m + i + 0.5]
  {
    hide Step, Run, Legal, Starts, Init, AlwaysOnePlace;
    var m, i, n := s.mono + 1.0, d as real, s.nextSeq;
    var e1, e2 := Entry(m + 0.5, n + 1, k), Entry(m + i, n + 2, k);
    var e3 := Entry(m + 0.5 + i, n + 3, k);
    evs := RemoveAndReadd(s, k, d);
    var more := FinishProbe(Run(s, evs), k, d);
    evs := Extend(s, evs, more, k);
    var two := Run(s, evs);
    assert Single(two, k, d, m, {e1} + {e2}, n + 3, false, false);
    TwoEntries(two, k, e1, e2);
    assert {e1} + {e2} == {e2} + {e1};
    var cycle := WholeCycle(two, k, d, e1, {e2});
    var mid := evs;
    evs := Extend(s, evs, cycle, k);
    assert {e2} + {e3} == {e3} + {e2};
    cycle := WholeCycle(Run(s, evs), k, d, e2, {e3});
    evs := Extend(s, evs, cycle, k);
    var e4 := Entry(m + i + i, n + 4, k);
    assert {e3} + {e4} == {e4} + {e3};
    cycle := WholeCycle(Run(s, evs), k, d, e3, {e4});
    evs := Extend(s, evs, cycle, k);
    assert evs == mid + evs[|mid|..];
    NotOnePlaceLater(s, mid, evs[|mid|..], k);
  }

  lemma TwoEntries(s: Sched, k: Key, a: Entry, b: Entry)
    requires a != b && a in s.heap && b in s.heap && a.key == k && b.key == k
    ensures !AtMostOnePlace(s, k)
  {
    assert Holds(s, InHeap(a), k) && Holds(s, InHeap(b), k);
  }

  lemma {:induction false} NotOnePlaceLater(s: Sched, evs: seq<Event>, more: seq<Event>, k: Key)
    requires Legal(s, evs) && Legal(s, evs + more) && !AtMostOnePlace(Run(s, evs), k)
    ensures !AlwaysOnePlace(s, evs + more, k)
    decreases |evs|
  {
    hide Step, AtMostOnePlace;
    if evs != [] {
      assert (evs + more)[0] == evs[0] && (evs + more)[1..] == evs[1..] + more;
      NotOnePlaceLater(Step(s, evs[0]), evs[1..], more, k);
    }
  }

  lemma RunCons(s: Sched, ev: Event, evs: seq<Event>)
    requires Enabled(s, ev) && Legal(Step(s, ev), evs)
    ensures Legal(s, [ev] + evs) && Run(s, [ev] + evs) == Run(Step(s, ev), evs)
  {
    assert ([ev] + evs)[1..] == evs;
  }

  lemma {:induction false} RunSnoc(s: Sched, evs: seq<Event>, ev: Event)
    requires Legal(s, evs) && Enabled(Run(s, evs), ev)
    ensures Legal(s, evs + [ev]) && Run(s, evs + [ev]) == Step(Run(s, evs), ev)
    decreases |evs|
  {
    if evs == [] {
      RunCons(s, ev, []);
      assert [] + [ev] == [ev] + [];
    } else {
      RunSnoc(Step(s, evs[0]), evs[1..], ev);
      assert (evs + [ev])[1..] == evs[1..] + [ev];
    }
  }

  // ------------------------------------------------------------- the class

  lemma {:induction false} RunAppend(s: Sched, evs: seq<Event>, more: seq<Event>)
    requires Legal(s, evs) && Legal(Run(s, evs), more)
    ensures Legal(s, evs + more) && Run(s, evs + more) == Run(Run(s, evs), more)
    decreases |more|
  {
    if more == [] {
      assert evs + more == evs;
    } else {
      RunSnoc(s, evs, more[0]);
      RunAppend(s, evs + [more[0]], more[1..]);
      assert evs + [more[0]] + more[1..] == evs + more;
    }
  }

  /** The locked data of the agent.  Each method's ghost results name the
      atomic events it amounts to when no other thread intervenes. */
  class Scheduler {
    var sensors: map<Key, int>
    var heap: set<Entry>
    var nextSeq: nat
    var inflight: set<Key>

    constructor (saved: map<Key, int>)
      ensures sensors == saved && heap == {} && nextSeq == 0 && inflight == {}
    {
      sensors, heap, nextSeq, inflight := saved, {}, 0, {};
    }

    ghost predicate Shows(s: Sched) reads this {
      sensors == s.sensors && heap == s.heap && nextSeq == s.nextSeq && inflight == s.inflight
    }

    method Schedule(key: Key, delay: real, now: real)
      modifies this`heap, this`nextSeq
      ensures forall s: Sched :: old(Shows(s)) && s.mono == now ==> Shows(Push(s, key, delay))
      ensures heap == old(heap) + {Entry(now + delay, old(nextSeq), key)} && nextSeq == old(nextSeq) + 1
    {
      heap := heap + {Entry(now + delay, nextSeq, key)};
      nextSeq := nextSeq + 1;
    }

    method First() returns (e: Entry)
      requires heap != {}
      ensures IsFirst(e, heap)
    {
      e :| e in heap;
      var rest := heap - {e};
      while rest != {}
        invariant e in heap && rest <= heap
        invariant forall x :: x in heap && x !in rest ==> Before(e, x)
        decreases rest
      {
        var x :| x in rest;
        if !Before(e, x) { e := x; }
        rest := rest - {x};
      }
    }

    /** One turn of the loop: a popped entry starts its sensor's probe unless
        the sensor is gone or busy. */
    method TakeFirst(e: Entry, now: real, ghost s: Sched) returns (start: bool, ghost t: Sched, ghost id: nat)
      requires Shows(s) && s.mono == now && s.hand.None? && IsFirst(e, heap) && e.due <= now
      modifies this`heap, this`inflight
      ensures Legal(s, [Pop(e), Judge(id)]) && t == Run(s, [Pop(e), Judge(id)])
      ensures Shows(t) && t.mono == now && t.hand.None?
      ensures heap == old(heap) - {e}
      ensures start == (e.key in sensors && e.key !in old(inflight))
      ensures inflight == if start then old(inflight) + {e.key} else old(inflight)
    {
      heap := heap - {e};
      start := e.key in sensors && e.key !in inflight;
      if start {
        inflight := inflight + {e.key};
      }
      id := FreshId(s.cycles.Keys);
      t := Step(Step(s, Pop(e)), Judge(id));
      RunCons(Step(s, Pop(e)), Judge(id), []);
      RunCons(s, Pop(e), [Judge(id)]);
      assert [Pop(e), Judge(id)] == [Pop(e)] + [Judge(id)];
    }

    /** One locked pass of the scheduler loop: every due entry comes off the
        heap in order, each assigned idle sensor among them starts once, and
        the result says how long to sleep. */
    method Pass(now: real, ghost s: Sched) returns (started: seq<Key>, sleep: real, ghost evs: seq<Event>)
      requires Shows(s) && s.mono == now && s.hand.None?
      modifies this`heap, this`inflight
      ensures Legal(s, evs) && Shows(Run(s, evs)) && forall ev :: ev in evs ==> ev.Pop? || ev.Judge?
      ensures heap == set e | e in old(heap) && e.due > now
      ensures forall k :: k in started <==>
                k in sensors && k !in old(inflight) && exists e :: e in old(heap) && e.key == k && e.due <= now
      ensures NoRepeats(started)
      ensures inflight == old(inflight) + set k | k in started
      ensures 0.05 <= sleep <= 1.0
    {
      hide Step;
      started, evs := [], [];
      sleep := 30.0;
      ghost var t := s;
      while heap != {}
        invariant Legal(s, evs) && t == Run(s, evs) && Shows(t) && t.mono == now && t.hand.None?
        invariant forall ev :: ev in evs ==> ev.Pop? || ev.Judge?
        invariant heap <= old(heap) && forall e :: e in old(heap) - heap ==> e.due <= now
        invariant forall k :: k in started <==>
                    k in sensors && k !in old(inflight) && exists e :: e in old(heap) - heap && e.key == k
        invariant NoRepeats(started)
        invariant inflight == old(inflight) + set k | k in started
        invariant sleep == 30.0
        decreases heap
      {
        var e := First();
        if e.due > now {
          sleep := e.due - now;
          break;
        }
        ghost var was := t;
        var start;
        ghost var id;
        start, t, id := TakeFirst(e, now, was);
        RunAppend(s, evs, [Pop(e), Judge(id)]);
        evs := evs + [Pop(e), Judge(id)];
        if start {
          started := started + [e.key];
        }
      }
      sleep := if sleep < 0.05 then 0.05 else if sleep > 1.0 then 1.0 else sleep;
    }

    /** The `finally` part of a probe cycle. */
    method FinishCycle(key: Key, stopping: bool, now: real, ghost s: Sched, ghost id: nat)
      returns (ghost evs: seq<Event>)
      requires Shows(s) && s.mono == now && id in s.cycles && s.cycles[id].Active() && s.cycles[id].key == key
      modifies this`heap, this`nextSeq, this`inflight
      ensures Legal(s, evs) && Shows(Run(s, evs))
      ensures key in sensors && !stopping ==> evs == [Discard(id), Reread(id), Requeue(id)]
      ensures !(key in sensors && !stopping) ==> evs == [Discard(id)] && heap == old(heap)
      ensures key in sensors && !stopping ==>
                var wait := if sensors[key] == 0 then 5.0 else if sensors[key] < 1 then 1.0 else sensors[key] as real;
                heap == old(heap) + {Entry(now + wait, old(nextSeq), key)}
      ensures inflight == old(inflight) - {key}
    {
      inflight := inflight - {key};
      ghost var a := Step(s, Discard(id));
      RunCons(s, Discard(id), []);
      evs := [Discard(id)];
      if key in sensors && !stopping {
        ghost var b := Step(a, Reread(id));
        Schedule(key, Delay(sensors[key]), now);
        RunSnoc(s, evs, Reread(id));
        RunSnoc(s, evs + [Reread(id)], Requeue(id));
        assert evs + [Reread(id)] + [Requeue(id)] == [Discard(id), Reread(id), Requeue(id)];
        evs := [Discard(id), Reread(id), Requeue(id)];
      }
    }

    /** Takes over the server's table: new sensors are queued half a second
        out, kept sensors keep their entries, entries of removed ones go stale. */
    method SyncConfig(table: map<Key, int>, now: real, ghost s: Sched) returns (ghost evs: seq<Event>)
      requires Shows(s) && s.mono == now && s.adding == {}
      modifies this`sensors, this`heap, this`nextSeq
      ensures Legal(s, evs) && Shows(Run(s, evs)) && sensors == table
      ensures Run(s, evs).adding == {} && Run(s, evs).removed == s.removed + (s.sensors.Keys - table.Keys)
      ensures forall ev :: ev in evs ==> ev == SyncSwap(table) || (ev.SyncAdd? && ev.delay == 0.5)
    {
      var todo := table.Keys - sensors.Keys;
      sensors := table;
      RunCons(s, SyncSwap(table), []);
      ghost var t := Step(s, SyncSwap(table));
      evs := [SyncSwap(table)];
      while todo != {}
        invariant Legal(s, evs) && t == Run(s, evs) && Shows(t) && t.mono == now && t.adding == todo
        invariant sensors == table && t.removed == s.removed + (s.sensors.Keys - table.Keys)
        invariant forall ev :: ev in evs ==> ev == SyncSwap(table) || (ev.SyncAdd? && ev.delay == 0.5)
        decreases todo
      {
        var k :| k in todo;
        Schedule(k, 0.5, now);
        todo := todo - {k};
        RunSnoc(s, evs, SyncAdd(k, 0.5));
        t, evs := Step(t, SyncAdd(k, 0.5)), evs + [SyncAdd(k, 0.5)];
      }
    }
  }

  ghost function FreshId(used: set<nat>): (id: nat)
    ensures forall x :: x in used ==> x < id
  {
    if used == {} then 0
    else
      var x :| x in used;
      var rest := FreshId(used - {x});
      assert forall y :: y in used ==> y == x || y in used - {x};
      if x < rest then rest else x + 1
  }
}
