/** The catch-up backup scheduler: a poll fires a job when today's slot has
    passed and the job has not fired since.  Two jobs, device and database
    backup, share one polling loop; last-fired times are saved to the second
    and reloaded after a restart.  Times are microseconds of local time since
    some Monday midnight. */
module BackupScheduler {
  import opened Options

  const SECOND: int := 1_000_000
  const MINUTE: int := 60 * SECOND
  const HOUR: int := 60 * MINUTE
  const DAY: int := 24 * HOUR

  /** A job's settings; an unparsable time or day list is None. */
  datatype Schedule = Schedule(enabled: bool, weekly: bool, time: Option<(int, int)>, days: Option<set<int>>)

  function DayOf(t: nat): nat { t / DAY }
  function Slot(h: int, m: int, day: nat): int { day * DAY + h * HOUR + m * MINUTE }
  function Truncated(t: nat): nat { t - t % SECOND }

  predicate InRange(h: int, m: int) { 0 <= h < 24 && 0 <= m < 60 }

  /** Monday is 1. */
  predicate Scheduled(s: Schedule, day: nat) { s.weekly ==> s.days.Some? && day % 7 + 1 in s.days.value }

  datatype Decision = Fire | Skip | Raise

  function ShouldFire(last: Option<nat>, s: Schedule, now: nat): Decision {
    if s.time.None? || !Scheduled(s, DayOf(now)) then Skip
    else
      var (h, m) := s.time.value;
      if !InRange(h, m) then Raise
      else if now < Slot(h, m, DayOf(now)) then Skip
      else if last.None? || last.value < Slot(h, m, DayOf(now)) then Fire
      else Skip
  }

  /** What a job remembers, in memory and in the saved settings. */
  datatype Job = Job(last: Option<nat>, saved: Option<nat>)

  /** The two clock readings of a poll: for the decision, and when firing. */
  datatype Reading = Reading(now: nat, fired: nat)

  function Decide(j: Job, s: Schedule, now: nat): Decision {
    if s.enabled then ShouldFire(j.last, s, now) else Skip
  }

  function Poll(j: Job, s: Schedule, r: Reading): Job {
    if Decide(j, s, r.now) == Fire then Job(Some(r.fired), Some(Truncated(r.fired))) else j
  }

  function Restart(j: Job): Job { j.(last := j.saved) }

  /** Hours and minutes after the day's midnight, in microseconds. */
  lemma SlotMeans(h: int, m: int, day: nat)
    ensures Slot(h, m, day) == ((day * 24 + h) * 60 + m) * 60_000_000
    ensures forall t: nat :: DayOf(t) == t / 86_400_000_000
  {
  }

  /** The weekly list names Monday 1 to Sunday 7; a daily schedule has every day. */
  lemma ScheduledMeans(s: Schedule, week: nat)
    ensures !s.weekly ==> forall day :: Scheduled(s, day)
    ensures s.weekly ==>
              var days := if s.days.Some? then s.days.value else {};
              && (Scheduled(s, 7 * week) <==> 1 in days) && (Scheduled(s, 7 * week + 1) <==> 2 in days)
              && (Scheduled(s, 7 * week + 2) <==> 3 in days) && (Scheduled(s, 7 * week + 3) <==> 4 in days)
              && (Scheduled(s, 7 * week + 4) <==> 5 in days) && (Scheduled(s, 7 * week + 5) <==> 6 in days)
              && (Scheduled(s, 7 * week + 6) <==> 7 in days)
  {
  }

  /** Saving cuts to the second below. */
  lemma TruncatedMeans(t: nat)
    ensures Truncated(t) % 1_000_000 == 0 && Truncated(t) <= t < Truncated(t) + 1_000_000
  {
  }

  // -------------------------------------------------------- a single job

  datatype Event = At(r: Reading) | Reload

  function Step(j: Job, s: Schedule, ev: Event): Job {
    match ev
    case At(r) => Poll(j, s, r)
    case Reload => Restart(j)
  }

  predicate FiresOn(j: Job, s: Schedule, ev: Event, day: nat) {
    ev.At? && DayOf(ev.r.now) == day && Decide(j, s, ev.r.now) == Fire
  }

  /** How often the job fires on a day. */
  function Fires(j: Job, s: Schedule, evs: seq<Event>, day: nat): nat
    decreases |evs|
  {
    if evs == [] then 0 else (if FiresOn(j, s, evs[0], day) then 1 else 0) + Fires(Step(j, s, evs[0]), s, evs[1..], day)
  }

  predicate Valid(s: Schedule) { s.time.Some? && InRange(s.time.value.0, s.time.value.1) }

  function SlotOf(s: Schedule, day: nat): int
    requires s.time.Some?
  {
    Slot(s.time.value.0, s.time.value.1, day)
  }

  /** A non-decreasing clock; the second reading of a poll may be later than the
      first, but not past the next day's slot. */
  predicate Ordered(s: Schedule, from: nat, evs: seq<Event>)
    requires s.time.Some?
    decreases |evs|
  {
    evs == [] ||
    match evs[0]
    case At(r) => from <= r.now <= r.fired < SlotOf(s, DayOf(r.now) + 1) && Ordered(s, r.fired, evs[1..])
    case Reload => Ordered(s, from, evs[1..])
  }

  /** Some poll comes at or after the day's slot, that day. */
  predicate Seen(s: Schedule, evs: seq<Event>, day: nat)
    requires s.time.Some?
  {
    exists i :: 0 <= i < |evs| && SeenAt(s, evs[i], day)
  }

  predicate SeenAt(s: Schedule, ev: Event, day: nat)
    requires s.time.Some?
  {
    ev.At? && DayOf(ev.r.now) == day && SlotOf(s, day) <= ev.r.now
  }

  predicate Served(j: Job, s: Schedule, day: nat)
    requires s.time.Some?
  {
    j.last.Some? && SlotOf(s, day) <= j.last.value
  }

  ghost predicate Consistent(j: Job, from: nat) {
    && (j.last.Some? <==> j.saved.Some?)
    && (j.last.Some? ==> j.last.value <= from && Truncated(j.last.value) == j.saved.value)
  }

  /** Saving to the second loses no comparison with a slot, and saving what was
      reloaded saves the same. */
  lemma TruncationKeepsComparisons(t: nat, s: Schedule, day: nat)
    requires Valid(s)
    ensures Truncated(t) < SlotOf(s, day) <==> t < SlotOf(s, day)
    ensures Truncated(Truncated(t)) == Truncated(t)
  {
    var q := day * 86400 + s.time.value.0 * 3600 + s.time.value.1 * 60;
    assert SlotOf(s, day) == q * SECOND;
    assert Truncated(t) == t / SECOND * SECOND;
  }

  lemma DayBounds(t: nat, day: nat)
    ensures DayOf(t) == day <==> day * DAY <= t < (day + 1) * DAY
  {
  }

  /** A slot lies within its day. */
  lemma SlotInDay(s: Schedule, day: nat)
    requires Valid(s)
    ensures day * DAY <= SlotOf(s, day) < (day + 1) * DAY
  {
  }

  lemma SlotsRise(s: Schedule, a: nat, b: nat)
    requires Valid(s) && a < b
    ensures SlotOf(s, a) + DAY <= SlotOf(s, b)
  {
    assert a * DAY + DAY <= b * DAY;
  }

  /** A non-decreasing clock, whatever the second readings are. */
  predicate Clocked(from: nat, evs: seq<Event>)
    decreases |evs|
  {
    evs == [] ||
    match evs[0]
    case At(r) => from <= r.now <= r.fired && Clocked(r.fired, evs[1..])
    case Reload => Clocked(from, evs[1..])
  }

  /** The job fires on an earlier day, so late that its second reading is past
      this day's slot. */
  predicate Overtakes(j: Job, s: Schedule, ev: Event, day: nat)
    requires s.time.Some?
  {
    ev.At? && DayOf(ev.r.now) < day && Decide(j, s, ev.r.now) == Fire && SlotOf(s, day) <= ev.r.fired
  }

  predicate Overtaken(j: Job, s: Schedule, evs: seq<Event>, day: nat)
    requires s.time.Some?
    decreases |evs|
  {
    evs != [] && (Overtakes(j, s, evs[0], day) || Overtaken(Step(j, s, evs[0]), s, evs[1..], day))
  }

  /** Exactly when a day is backed up, over all polls, restarts and readings:
      once, if it is scheduled, some poll comes at or after its slot, the job
      had not fired since that slot, and no backup of an earlier day was started
      past it; otherwise never. */
  lemma {:induction false} FiresExactly(j: Job, s: Schedule, from: nat, evs: seq<Event>, day: nat)
    requires Valid(s) && s.enabled && Consistent(j, from) && Clocked(from, evs)
    ensures Fires(j, s, evs, day)
         == if Scheduled(s, day) && Seen(s, evs, day) && !Served(j, s, day) && !Overtaken(j, s, evs, day) then 1 else 0
    decreases |evs|
  {
    if evs != [] {
      var ev, k := evs[0], Step(j, s, evs[0]);
      StepFacts(j, s, from, ev, day);
      var next := if ev.At? then ev.r.fired else from;
      FiresExactly(k, s, next, evs[1..], day);
      SeenSplits(s, evs, day);
      if ev.At? && day <= DayOf(ev.r.now) {
        DayRises(ev.r.now, ev.r.fired);
        if day < DayOf(ev.r.now) { PastDayUnseen(next, s, evs[1..], day); }
        NotOvertakenAnyMore(next, k, s, evs[1..], day);
      }
    }
  }

  lemma {:induction false} NotOvertakenAnyMore(from: nat, j: Job, s: Schedule, evs: seq<Event>, day: nat)
    requires s.time.Some? && Clocked(from, evs) && day <= DayOf(from)
    ensures !Overtaken(j, s, evs, day)
    decreases |evs|
  {
    if evs != [] {
      var next := if evs[0].At? then evs[0].r.fired else from;
      DayRises(from, next);
      if evs[0].At? { DayRises(from, evs[0].r.now); }
      NotOvertakenAnyMore(next, Step(j, s, evs[0]), s, evs[1..], day);
    }
  }

  /** Catch-up firing across restarts: on each scheduled day the job fires
      exactly once if some poll comes at or after the slot and it had not fired
      since that slot before, and otherwise never. */
  lemma FiresOncePerDueDay(j: Job, s: Schedule, from: nat, evs: seq<Event>, day: nat)
    requires Valid(s) && s.enabled && Consistent(j, from) && Ordered(s, from, evs)
    ensures Fires(j, s, evs, day) == if Scheduled(s, day) && Seen(s, evs, day) && !Served(j, s, day) then 1 else 0
  {
    OrderedNeverOvertakes(j, s, from, evs, day);
    FiresExactly(j, s, from, evs, day);
  }

  lemma {:induction false} OrderedNeverOvertakes(j: Job, s: Schedule, from: nat, evs: seq<Event>, day: nat)
    requires Valid(s) && Ordered(s, from, evs)
    ensures Clocked(from, evs) && !Overtaken(j, s, evs, day)
    decreases |evs|
  {
    if evs != [] {
      var ev := evs[0];
      if ev.At? && DayOf(ev.r.now) + 1 < day { SlotsRise(s, DayOf(ev.r.now) + 1, day); }
      OrderedNeverOvertakes(Step(j, s, ev), s, if ev.At? then ev.r.fired else from, evs[1..], day);
    }
  }

  /** It happens: a daily midnight schedule, a poll in the last microsecond of a
      day whose second reading is the next midnight, and a poll late on that
      next day, which is then never backed up. */
  lemma MidnightReadingLosesDay(s: Schedule)
    requires s == Schedule(true, false, Some((0, 0)), None)
    ensures var evs := [At(Reading(DAY - 1, DAY)), At(Reading(2 * DAY - 1, 2 * DAY - 1))];
            Clocked(0, evs) && Seen(s, evs, 1) && Fires(Job(None, None), s, evs, 0) == 1 && Fires(Job(None, None), s, evs, 1) == 0
  {
    var first, last := At(Reading(DAY - 1, DAY)), At(Reading(2 * DAY - 1, 2 * DAY - 1));
    var evs, j := [first, last], Job(None, None);
    assert evs[1..] == [last] && [last][1..] == [];
    assert DayOf(DAY - 1) == 0 && DayOf(2 * DAY - 1) == 1;
    assert Clocked(DAY, [last]);
    assert SeenAt(s, evs[0], 0) && SeenAt(s, evs[1], 1);
    assert Overtakes(j, s, first, 1);
    assert !Overtakes(j, s, first, 0) && !Overtakes(Step(j, s, first), s, last, 0);
    assert !Overtaken(Step(j, s, first), s, [last], 0) by { assert !Overtaken(Step(Step(j, s, first), s, last), s, [], 0); }
    FiresExactly(j, s, 0, evs, 0);
    FiresExactly(j, s, 0, evs, 1);
  }

  lemma SeenSplits(s: Schedule, evs: seq<Event>, day: nat)
    requires s.time.Some? && evs != []
    ensures Seen(s, evs, day) <==> SeenAt(s, evs[0], day) || Seen(s, evs[1..], day)
  {
    if Seen(s, evs[1..], day) {
      var i :| 0 <= i < |evs[1..]| && SeenAt(s, evs[1..][i], day);
      assert SeenAt(s, evs[i + 1], day);
    }
    if Seen(s, evs, day) {
      var i :| 0 <= i < |evs| && SeenAt(s, evs[i], day);
      assert i > 0 ==> SeenAt(s, evs[1..][i - 1], day);
    }
  }

  lemma {:induction false} PastDayUnseen(from: nat, s: Schedule, evs: seq<Event>, day: nat)
    requires s.time.Some? && Clocked(from, evs) && day < DayOf(from)
    ensures !Seen(s, evs, day)
    decreases |evs|
  {
    if evs != [] {
      var next := if evs[0].At? then evs[0].r.fired else from;
      DayRises(from, next);
      if evs[0].At? { DayRises(from, evs[0].r.now); }
      PastDayUnseen(next, s, evs[1..], day);
      SeenSplits(s, evs, day);
    }
  }

  lemma DayRises(a: nat, b: nat)
    requires a <= b
    ensures DayOf(a) <= DayOf(b)
  {
  }

  /** One event, seen from one day. */
  lemma StepFacts(j: Job, s: Schedule, from: nat, ev: Event, day: nat)
    requires Valid(s) && s.enabled && Consistent(j, from) && (ev.At? ==> from <= ev.r.now <= ev.r.fired)
    ensures var k := Step(j, s, ev);
            && Consistent(k, if ev.At? then ev.r.fired else from)
            && (FiresOn(j, s, ev, day) <==> Scheduled(s, day) && SeenAt(s, ev, day) && !Served(j, s, day))
            && (ev.At? && day < DayOf(ev.r.now) ==> !SeenAt(s, ev, day))
            && (!(ev.At? && day < DayOf(ev.r.now)) ==>
                  (Served(k, s, day) <==> Served(j, s, day) || FiresOn(j, s, ev, day) || Overtakes(j, s, ev, day)))
  {
    if j.last.Some? { TruncationKeepsComparisons(j.last.value, s, day); }
    if ev.At? {
      var r, today := ev.r, DayOf(ev.r.now);
      DayBounds(r.now, today);
      SlotInDay(s, today);
      SlotInDay(s, day);
      if today < day { SlotsRise(s, today, day); SlotsRise(s, today, today + 1); if today + 1 < day { SlotsRise(s, today + 1, day); } }
      TruncationKeepsComparisons(r.fired, s, day);
    }
  }

  /** A schedule can fire at all exactly when its time is a time of day and, if
      weekly, it names a day of the week. */
  lemma CanFireIff(s: Schedule)
    ensures (exists j: Job, now: nat :: Decide(j, s, now) == Fire)
      <==> s.enabled && Valid(s) && (s.weekly ==> s.days.Some? && exists d :: d in s.days.value && 1 <= d <= 7)
  {
    if s.enabled && Valid(s) && (s.weekly ==> s.days.Some? && exists d :: d in s.days.value && 1 <= d <= 7) {
      var d: int := 1;
      if s.weekly { d :| d in s.days.value && 1 <= d <= 7; }
      var now: nat := SlotOf(s, d - 1);
      SlotInDay(s, d - 1);
      DayBounds(now, d - 1);
      assert Decide(Job(None, None), s, now) == Fire;
    }
    if j: Job, now: nat :| Decide(j, s, now) == Fire {
      assert s.weekly ==> DayOf(now) % 7 + 1 in s.days.value;
    }
  }

  // ---------------------------------------------------- two jobs, one loop

  datatype Both = Both(dev: Job, db: Job)

  /** One turn of the loop, or a restart of the process.  `raises` says that an
      exception (reading the device list, say) would follow a device firing. */
  datatype Turn = Turn(dev: Reading, db: Reading, raises: bool) | Reboot

  /** The device part raises: in its decision, or after firing. */
  predicate DeviceRaises(j: Job, dev: Schedule, t: Turn)
    requires t.Turn?
  {
    Decide(j, dev, t.dev.now) == Raise || (Decide(j, dev, t.dev.now) == Fire && t.raises)
  }

  /** An exception in the device part abandons the rest of the turn. */
  function TakeTurn(b: Both, dev: Schedule, db: Schedule, t: Turn): Both {
    match t
    case Reboot => Both(Restart(b.dev), Restart(b.db))
    case Turn(r, r', _) => Both(Poll(b.dev, dev, r), if DeviceRaises(b.dev, dev, t) then b.db else Poll(b.db, db, r'))
  }

  function TakeTurns(b: Both, dev: Schedule, db: Schedule, ts: seq<Turn>): Both
    decreases |ts|
  {
    if ts == [] then b else TakeTurns(TakeTurn(b, dev, db, ts[0]), dev, db, ts[1..])
  }

  /** What the database job gets to see of a turn. */
  function DbSees(j: Job, dev: Schedule, t: Turn): seq<Event> {
    match t
    case Reboot => [Reload]
    case Turn(_, r', _) => if DeviceRaises(j, dev, t) then [] else [At(r')]
  }

  function DevSees(t: Turn): Event {
    match t
    case Reboot => Reload
    case Turn(r, _, _) => At(r)
  }

  function DbEvents(j: Job, dev: Schedule, ts: seq<Turn>): seq<Event>
    decreases |ts|
  {
    if ts == [] then [] else DbSees(j, dev, ts[0]) + DbEvents(Step(j, dev, DevSees(ts[0])), dev, ts[1..])
  }

  function Steps(j: Job, s: Schedule, evs: seq<Event>): Job
    decreases |evs|
  {
    if evs == [] then j else Steps(Step(j, s, evs[0]), s, evs[1..])
  }

  lemma OneTurnSeen(b: Both, dev: Schedule, db: Schedule, t: Turn)
    ensures TakeTurn(b, dev, db, t).dev == Step(b.dev, dev, DevSees(t))
    ensures var seen := DbSees(b.dev, dev, t);
            if seen == [] then TakeTurn(b, dev, db, t).db == b.db
            else |seen| == 1 && TakeTurn(b, dev, db, t).db == Step(b.db, db, seen[0])
  {
  }

  /** The database job runs as if alone, on exactly the turns whose device part
      does not raise; an enabled daily device time such as 25:00 therefore stops
      database backups altogether. */
  lemma {:induction false} DatabaseJobSees(b: Both, dev: Schedule, db: Schedule, ts: seq<Turn>)
    ensures TakeTurns(b, dev, db, ts).db == Steps(b.db, db, DbEvents(b.dev, dev, ts))
    ensures dev.enabled && !dev.weekly && dev.time.Some? && !Valid(dev) ==> forall ev :: ev in DbEvents(b.dev, dev, ts) ==> ev.Reload?
    decreases |ts|
  {
    if ts != [] {
      OneTurnSeen(b, dev, db, ts[0]);
      var u := TakeTurn(b, dev, db, ts[0]);
      DatabaseJobSees(u, dev, db, ts[1..]);
      var first, rest := DbSees(b.dev, dev, ts[0]), DbEvents(u.dev, dev, ts[1..]);
      assert DbEvents(b.dev, dev, ts) == first + rest;
      assert if first == [] then first + rest == rest else first + rest != [] && (first + rest)[0] == first[0] && (first + rest)[1..] == rest;
    }
  }

  // ------------------------------------------------------------- the class

  class Scheduler {
    var dev: Job
    var db: Job

    constructor (savedDev: Option<nat>, savedDb: Option<nat>)
      ensures dev == Job(savedDev, savedDev) && db == Job(savedDb, savedDb)
    {
      dev, db := Job(savedDev, savedDev), Job(savedDb, savedDb);
    }

    function View(): Both reads this { Both(dev, db) }

    /** One turn; `devFired` and `dbFired` say which backups were started. */
    method OneTurn(devS: Schedule, dbS: Schedule, r: Reading, r': Reading, raises: bool) returns (devFired: bool, dbFired: bool)
      modifies this
      ensures View() == TakeTurn(old(View()), devS, dbS, Turn(r, r', raises))
      ensures devFired <==> Decide(old(dev), devS, r.now) == Fire
      ensures dbFired <==> !DeviceRaises(old(dev), devS, Turn(r, r', raises)) && Decide(old(db), dbS, r'.now) == Fire
    {
      devFired, dbFired := false, false;
      var d := Decide(dev, devS, r.now);
      if d == Raise { return; }
      if d == Fire {
        dev := dev.(last := Some(r.fired));
        dev := dev.(saved := Some(Truncated(r.fired)));
        devFired := true;
        if raises { return; }
      }
      if Decide(db, dbS, r'.now) == Fire {
        db := db.(last := Some(r'.fired));
        db := db.(saved := Some(Truncated(r'.fired)));
        dbFired := true;
      }
    }
  }
}
