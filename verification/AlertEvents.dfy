/** The alert-event table: one row per failure session of a sensor, bumped by
    every repeat fire, acknowledged and resolved by operators and by recovery,
    pruned by retention.  `Table` is its content; each function below is one
    transaction. */
module AlertEvents {
  import opened Options

  const ACTIVE := "active"
  const ACKED := "acknowledged"
  const RESOLVED := "resolved"
  const CRITICAL := "critical"
  const DAY: real := 86400.0

  datatype Row = Row(
    profile: int, stage: int, profileName: string, did: string, sid: string, severity: string, eventType: string,
    state: string, triggered: real, resolved: real, ackBy: string, ackAt: real, detail: string, repeats: nat, reason: string)
  {
    predicate Open() { state == ACTIVE || state == ACKED }
    predicate Of(d: string, s: string) { did == d && sid == s }
  }

  datatype Table = Table(rows: map<nat, Row>, nextId: nat)

  /** A fired stage; `flapAck` is who acknowledged the sensor's flap, and when,
      if somebody already did. */
  datatype Fire = Fire(
    profile: int, stage: int, profileName: string, did: string, sid: string, severity: string, eventType: string,
    detail: string, reason: string, flapAck: Option<(string, real)>)

  /** The newest open row of a sensor with an id below `n`. */
  function NewestOpen(rows: map<nat, Row>, did: string, sid: string, n: nat): (r: Option<nat>)
    ensures r.Some? ==> r.value < n && r.value in rows && rows[r.value].Open() && rows[r.value].Of(did, sid)
    ensures forall i :: i in rows && i < n && rows[i].Open() && rows[i].Of(did, sid) ==> r.Some? && i <= r.value
  {
    if n == 0 then None
    else if n - 1 in rows && rows[n - 1].Open() && rows[n - 1].Of(did, sid) then Some(n - 1)
    else NewestOpen(rows, did, sid, n - 1)
  }

  function Bumped(r: Row, f: Fire): Row {
    r.(repeats := r.repeats + 1, stage := f.stage, profile := f.profile, profileName := f.profileName,
       severity := if r.severity == CRITICAL then r.severity else f.severity,
       eventType := if r.severity == CRITICAL then r.eventType else f.eventType,
       detail := f.detail)
  }

  function NewRow(f: Fire, state: string, now: real): Row {
    var inherits := state == ACTIVE && f.flapAck.Some?;
    Row(f.profile, f.stage, f.profileName, f.did, f.sid, f.severity, f.eventType,
        if inherits then ACKED else state, now, 0.0,
        if inherits then f.flapAck.value.0 else "", if inherits then f.flapAck.value.1 else 0.0,
        f.detail, 1, f.reason)
  }

  function Log(t: Table, f: Fire, state: string, now: real): Table {
    var open := NewestOpen(t.rows, f.did, f.sid, t.nextId);
    if open.Some? && state == ACTIVE then
      t.(rows := t.rows[open.value := Bumped(t.rows[open.value], f)])
    else
      Table(t.rows[t.nextId := NewRow(f, state, now)], t.nextId + 1)
  }

  function Ack(r: Row, actor: string, now: real): Row { r.(state := ACKED, ackBy := actor, ackAt := now) }
  function Resolve(r: Row, now: real): Row { r.(state := RESOLVED, resolved := now) }

  datatype Op =
    | LogOp(f: Fire, state: string)
    | AckEvent(id: nat, actor: string)
    | ResolveEvent(id: nat)
    | AutoResolve(profile: int, did: string, sid: string)
    | AckSensor(did: string, sid: string, actor: string)
    | ResolveSensor(did: string, sid: string)
    | ResolveAll
    | Clean(days: int)

  /** Which rows a statement's WHERE clause selects. */
  predicate Selects(op: Op, id: nat, r: Row, now: real) {
    match op
    case LogOp(_, _) => false
    case AckEvent(i, _) => id == i
    case ResolveEvent(i) => id == i
    case AutoResolve(p, d, s) => r.profile == p && r.Of(d, s) && r.Open()
    case AckSensor(d, s, _) => r.Of(d, s) && r.state == ACTIVE
    case ResolveSensor(d, s) => r.Of(d, s) && r.Open()
    case ResolveAll => r.Open()
    case Clean(days) =>
      r.state == RESOLVED && r.resolved > 0.0 && r.resolved < now - (if days < 1 then 1 else days) as real * DAY
  }

  function Updated(op: Op, r: Row, now: real): Row {
    match op
    case AckEvent(_, actor) => Ack(r, actor, now)
    case AckSensor(_, _, actor) => Ack(r, actor, now)
    case _ => Resolve(r, now)
  }

  function Apply(t: Table, op: Op, now: real): Table {
    match op
    case LogOp(f, state) => Log(t, f, state, now)
    case Clean(_) => t.(rows := map i | i in t.rows && !Selects(op, i, t.rows[i], now) :: t.rows[i])
    case _ => t.(rows := map i | i in t.rows :: if Selects(op, i, t.rows[i], now) then Updated(op, t.rows[i], now) else t.rows[i])
  }

  // ------------------------------------------------------------ invariants

  ghost predicate Numbered(t: Table) {
    forall i :: i in t.rows ==> i < t.nextId
  }

  ghost predicate OneOpen(t: Table) {
    forall i, j | i in t.rows && j in t.rows && t.rows[i].Open() && t.rows[j].Open() ::
      t.rows[i].Of(t.rows[j].did, t.rows[j].sid) ==> i == j
  }

  ghost predicate HasOpen(t: Table, did: string, sid: string) {
    exists i :: i in t.rows && t.rows[i].Open() && t.rows[i].Of(did, sid)
  }

  predicate OpenState(state: string) { state == ACTIVE || state == ACKED }

  /** When an operation keeps the one-open-row law. */
  ghost predicate Safe(t: Table, op: Op) {
    match op
    case LogOp(f, state) => state == ACTIVE || !OpenState(state) || !HasOpen(t, f.did, f.sid)
    case AckEvent(id, _) => id !in t.rows || t.rows[id].Open() || !HasOpen(t, t.rows[id].did, t.rows[id].sid)
    case _ => true
  }

  /** One failure session per sensor: an operation keeps at most one open row
      per sensor exactly when it is safe.  Only two are ever unsafe: logging a
      row born acknowledged, and acknowledging by id a row already closed. */
  lemma OneOpenIffSafe(t: Table, op: Op, now: real)
    requires Numbered(t) && OneOpen(t)
    ensures Numbered(Apply(t, op, now))
    ensures OneOpen(Apply(t, op, now)) <==> Safe(t, op)
  {
    NumberedKept(t, op, now);
    if op.LogOp? {
      LogKeepsOneOpenIffSafe(t, op, now);
    } else if op.AckEvent? {
      AckKeepsOneOpenIffSafe(t, op, now);
    } else {
      NoneOpened(t, op, now);
    }
  }

  lemma NumberedKept(t: Table, op: Op, now: real)
    requires Numbered(t)
    ensures Numbered(Apply(t, op, now))
  {
    hide Selects, Updated;
  }

  lemma LogKeepsOneOpenIffSafe(t: Table, op: Op, now: real)
    requires Numbered(t) && OneOpen(t) && op.LogOp?
    ensures OneOpen(Apply(t, op, now)) <==> Safe(t, op)
  {
    var v := Apply(t, op, now);
    if !Safe(t, op) {
      var i :| i in t.rows && t.rows[i].Open() && t.rows[i].Of(op.f.did, op.f.sid);
      assert v.rows[i] == t.rows[i] && v.rows[t.nextId].Open();
    }
  }

  lemma AckKeepsOneOpenIffSafe(t: Table, op: Op, now: real)
    requires Numbered(t) && OneOpen(t) && op.AckEvent?
    ensures OneOpen(Apply(t, op, now)) <==> Safe(t, op)
  {
    var v := Apply(t, op, now);
    if !Safe(t, op) {
      var i :| i in t.rows && t.rows[i].Open() && t.rows[i].Of(t.rows[op.id].did, t.rows[op.id].sid);
      assert v.rows[i].Open() && v.rows[op.id].Open();
    }
  }

  /** No other operation opens a row. */
  lemma NoneOpened(t: Table, op: Op, now: real)
    requires OneOpen(t) && !op.LogOp? && !op.AckEvent?
    ensures OneOpen(Apply(t, op, now))
  {
    var v := Apply(t, op, now);
    forall i | i in v.rows && v.rows[i].Open() ensures t.rows[i].Open() && v.rows[i].Of(t.rows[i].did, t.rows[i].sid) {
    }
    hide Apply;
  }

  // ------------------------------------------------------------------ runs

  datatype Timed = Timed(op: Op, now: real)

  function Run(t: Table, ops: seq<Timed>): Table
    decreases |ops|
  {
    if ops == [] then t else Run(Apply(t, ops[0].op, ops[0].now), ops[1..])
  }

  ghost predicate AllSafe(t: Table, ops: seq<Timed>)
    decreases |ops|
  {
    ops != [] ==> Safe(t, ops[0].op) && AllSafe(Apply(t, ops[0].op, ops[0].now), ops[1..])
  }

  ghost predicate OneOpenThroughout(t: Table, ops: seq<Timed>)
    decreases |ops|
  {
    OneOpen(t) && (ops != [] ==> OneOpenThroughout(Apply(t, ops[0].op, ops[0].now), ops[1..]))
  }

  /** Over every run of operations: at most one open row per sensor at all times
      exactly when each operation is safe where it is applied. */
  lemma {:induction false} OneOpenThroughoutIff(t: Table, ops: seq<Timed>)
    requires Numbered(t) && OneOpen(t)
    ensures OneOpenThroughout(t, ops) <==> AllSafe(t, ops)
    decreases |ops|
  {
    hide Apply, OneOpen, Safe, Numbered;
    if ops != [] {
      var u := Apply(t, ops[0].op, ops[0].now);
      OneOpenIffSafe(t, ops[0].op, ops[0].now);
      if OneOpen(u) { OneOpenThroughoutIff(u, ops[1..]); }
    }
  }

  /** What callers do: fires are active or not open at all, and the ACK button
      is pressed on rows that are open when the statement runs. */
  ghost predicate Proper(t: Table, op: Op) {
    match op
    case LogOp(_, state) => state == ACTIVE || !OpenState(state)
    case AckEvent(id, _) => id !in t.rows || t.rows[id].Open()
    case _ => true
  }

  ghost predicate AllProper(t: Table, ops: seq<Timed>)
    decreases |ops|
  {
    ops != [] ==> Proper(t, ops[0].op) && AllProper(Apply(t, ops[0].op, ops[0].now), ops[1..])
  }

  lemma {:induction false} OneOpenAlways(t: Table, ops: seq<Timed>)
    requires Numbered(t) && OneOpen(t) && AllProper(t, ops)
    ensures Numbered(Run(t, ops)) && OneOpen(Run(t, ops))
    decreases |ops|
  {
    if ops != [] {
      OneOpenIffSafe(t, ops[0].op, ops[0].now);
      OneOpenAlways(Apply(t, ops[0].op, ops[0].now), ops[1..]);
    }
  }

  ghost predicate OpenRow(t: Table, id: nat) {
    id in t.rows && t.rows[id].Open()
  }

  /** A closed session never reopens. */
  lemma {:induction false} ClosedStaysClosed(t: Table, ops: seq<Timed>, id: nat)
    requires Numbered(t) && OneOpen(t) && AllProper(t, ops) && id < t.nextId && !OpenRow(t, id)
    ensures !OpenRow(Run(t, ops), id)
    decreases |ops|
  {
    if ops != [] {
      OneOpenIffSafe(t, ops[0].op, ops[0].now);
      ClosedStaysClosed(Apply(t, ops[0].op, ops[0].now), ops[1..], id);
    }
  }

  predicate FiresFor(op: Op, did: string, sid: string) {
    op.LogOp? && op.state == ACTIVE && op.f.did == did && op.f.sid == sid
  }

  function Fires(ops: seq<Timed>, did: string, sid: string): nat {
    if ops == [] then 0 else (if FiresFor(ops[0].op, did, sid) then 1 else 0) + Fires(ops[1..], did, sid)
  }

  /** What one operation does to an open row that stays open.  An active fire of
      its sensor takes it over, except that nothing displaces "critical" and its
      event type; no other operation touches what fires write. */
  lemma SessionStep(t: Table, op: Op, now: real, id: nat)
    requires Numbered(t) && OneOpen(t) && Proper(t, op) && OpenRow(t, id) && OpenRow(Apply(t, op, now), id)
    ensures var a, b := t.rows[id], Apply(t, op, now).rows[id];
            && b.Of(a.did, a.sid) && b.triggered == a.triggered
            && b.repeats == a.repeats + (if FiresFor(op, a.did, a.sid) then 1 else 0)
            && (a.state == "acknowledged" ==> b.state == "acknowledged")
            && (a.state == "acknowledged" && !op.AckEvent? ==> b.ackBy == a.ackBy && b.ackAt == a.ackAt)
            && (if FiresFor(op, a.did, a.sid) then Took(a, b, op.f) else Untold(a, b))
  {
  }

  /** `b` is `a` after a fire. */
  predicate Took(a: Row, b: Row, f: Fire) {
    && b.profile == f.profile && b.stage == f.stage && b.profileName == f.profileName && b.detail == f.detail
    && (if a.severity == "critical" then b.severity == "critical" && b.eventType == a.eventType
        else b.severity == f.severity && b.eventType == f.eventType)
  }

  /** `b` is `a` with nothing a fire writes changed. */
  predicate Untold(a: Row, b: Row) {
    && b.profile == a.profile && b.stage == a.stage && b.profileName == a.profileName && b.detail == a.detail
    && b.severity == a.severity && b.eventType == a.eventType
  }

  function LastFire(ops: seq<Timed>, did: string, sid: string): Option<Fire> {
    if ops == [] then None
    else
      var later := LastFire(ops[1..], did, sid);
      if later.Some? then later else if FiresFor(ops[0].op, did, sid) then Some(ops[0].op.f) else None
  }

  function FirstCritical(ops: seq<Timed>, did: string, sid: string): Option<Fire> {
    if ops == [] then None
    else if FiresFor(ops[0].op, did, sid) && ops[0].op.f.severity == "critical" then Some(ops[0].op.f)
    else FirstCritical(ops[1..], did, sid)
  }

  /** A session, from any moment to any later one in which it is still open:
      its start time is fixed, each further active fire of the sensor adds
      exactly one repeat and no row, and an acknowledgement is never lost.  It is
      critical exactly if it was or some fire in between was, with the event
      type of the first; otherwise, as in profile, stage and detail always, it
      says what the last fire said. */
  lemma {:induction false} SessionOverRun(t: Table, ops: seq<Timed>, id: nat)
    requires Numbered(t) && OneOpen(t) && AllProper(t, ops) && OpenRow(t, id) && OpenRow(Run(t, ops), id)
    ensures var a, b := t.rows[id], Run(t, ops).rows[id];
            && b.Of(a.did, a.sid) && b.triggered == a.triggered
            && b.repeats == a.repeats + Fires(ops, a.did, a.sid)
            && (a.state == "acknowledged" ==> b.state == "acknowledged")
    ensures var a, b := t.rows[id], Run(t, ops).rows[id];
            Told(a, b, LastFire(ops, a.did, a.sid), FirstCritical(ops, a.did, a.sid))
    decreases |ops|
  {
    if ops != [] {
      hide NewestOpen, Selects, Told, FirstCritical, LastFire;
      var op, now := ops[0].op, ops[0].now;
      var u := Apply(t, op, now);
      OneOpenIffSafe(t, op, now);
      if !OpenRow(u, id) { ClosedStaysClosed(u, ops[1..], id); }
      SessionStep(t, op, now, id);
      SessionOverRun(u, ops[1..], id);
      ToldOneMore(t.rows[id], u.rows[id], Run(t, ops).rows[id], ops);
    }
  }

  predicate Told(a: Row, b: Row, last: Option<Fire>, crit: Option<Fire>) {
    && (b.severity == "critical" <==> a.severity == "critical" || crit.Some?)
    && (if last.Some? then
          b.profile == last.value.profile && b.stage == last.value.stage && b.profileName == last.value.profileName
          && b.detail == last.value.detail
        else b.profile == a.profile && b.stage == a.stage && b.profileName == a.profileName && b.detail == a.detail)
    && (if a.severity == "critical" then b.eventType == a.eventType
        else if crit.Some? then b.eventType == crit.value.eventType
        else if last.Some? then b.severity == last.value.severity && b.eventType == last.value.eventType
        else b.severity == a.severity && b.eventType == a.eventType)
  }

  lemma ToldOneMore(a: Row, u: Row, b: Row, ops: seq<Timed>)
    requires ops != []
    requires if FiresFor(ops[0].op, a.did, a.sid) then Took(a, u, ops[0].op.f) else Untold(a, u)
    requires Told(u, b, LastFire(ops[1..], a.did, a.sid), FirstCritical(ops[1..], a.did, a.sid))
    ensures Told(a, b, LastFire(ops, a.did, a.sid), FirstCritical(ops, a.did, a.sid))
  {
  }

  /** The row a fire or a logged event opens, and that it is the only change;
      an active fire on an open session opens none. */
  lemma LogOpens(t: Table, f: Fire, state: string, now: real)
    requires Numbered(t)
    ensures var u := Log(t, f, state, now);
            if state == "active" && HasOpen(t, f.did, f.sid) then u.rows.Keys == t.rows.Keys && u.nextId == t.nextId
            else
              var inherits := state == "active" && f.flapAck.Some?;
              && u.nextId == t.nextId + 1 && u.rows - {t.nextId} == t.rows
              && t.nextId in u.rows
              && u.rows[t.nextId] == Row(
                   f.profile, f.stage, f.profileName, f.did, f.sid, f.severity, f.eventType,
                   if inherits then "acknowledged" else state, now, 0.0,
                   if inherits then f.flapAck.value.0 else "", if inherits then f.flapAck.value.1 else 0.0, f.detail, 1, f.reason)
  {
  }

  /** What each statement does to each row, in the words of its SQL. */
  lemma EachStatement(t: Table, op: Op, now: real, i: nat)
    requires i in t.rows && !op.LogOp?
    ensures var r, rows := t.rows[i], Apply(t, op, now).rows;
            var open := r.state in ["active", "acknowledged"];
            match op
            case AckEvent(id, actor) =>
              i in rows && rows[i] == if i == id then r.(state := "acknowledged", ackBy := actor, ackAt := now) else r
            case ResolveEvent(id) => i in rows && rows[i] == if i == id then r.(state := "resolved", resolved := now) else r
            case AutoResolve(p, d, s) =>
              i in rows && rows[i] == if r.profile == p && r.did == d && r.sid == s && open then r.(state := "resolved", resolved := now) else r
            case AckSensor(d, s, actor) =>
              i in rows && rows[i] == if r.did == d && r.sid == s && r.state == "active" then r.(state := "acknowledged", ackBy := actor, ackAt := now) else r
            case ResolveSensor(d, s) =>
              i in rows && rows[i] == if r.did == d && r.sid == s && open then r.(state := "resolved", resolved := now) else r
            case ResolveAll => i in rows && rows[i] == if open then r.(state := "resolved", resolved := now) else r
            case Clean(days) =>
              var cutoff := now - (if days < 1 then 1 else days) as real * 86400.0;
              if r.state == "resolved" && 0.0 < r.resolved < cutoff then i !in rows else i in rows && rows[i] == r
            case LogOp(_, _) => true
  {
  }

  predicate Resolves(op: Op) { op.ResolveEvent? || op.AutoResolve? || op.ResolveSensor? || op.ResolveAll? }

  /** Somewhere in the run a resolve statement selects the row. */
  predicate ResolvedAlong(t: Table, ops: seq<Timed>, id: nat)
    decreases |ops|
  {
    ops != [] &&
    ((id in t.rows && Resolves(ops[0].op) && Selects(ops[0].op, id, t.rows[id], ops[0].now))
     || ResolvedAlong(Apply(t, ops[0].op, ops[0].now), ops[1..], id))
  }

  /** A session ends by being resolved and in no other way: an open row is still
      open after a run exactly when no resolve statement in it selected the row.
      No fire, acknowledgement or cleaning closes or deletes it. */
  lemma {:induction false} SessionEndsOnlyByResolving(t: Table, ops: seq<Timed>, id: nat)
    requires Numbered(t) && OneOpen(t) && AllProper(t, ops) && OpenRow(t, id)
    ensures OpenRow(Run(t, ops), id) <==> !ResolvedAlong(t, ops, id)
    decreases |ops|
  {
    if ops != [] {
      var op, now := ops[0].op, ops[0].now;
      var u := Apply(t, op, now);
      OneOpenIffSafe(t, op, now);
      OnlyResolvingCloses(t, op, now, id);
      if OpenRow(u, id) { SessionEndsOnlyByResolving(u, ops[1..], id); } else { ClosedStaysClosed(u, ops[1..], id); }
    }
  }

  lemma OnlyResolvingCloses(t: Table, op: Op, now: real, id: nat)
    requires Numbered(t) && OpenRow(t, id) && Proper(t, op)
    ensures OpenRow(Apply(t, op, now), id) <==> !(Resolves(op) && Selects(op, id, t.rows[id], now))
  {
  }

  /** A cleaning finds a row resolved at `at` past its age, which is never less
      than a day. */
  predicate Expires(op: Op, at: real, now: real) {
    op.Clean? && now - at > DAY && now - at > op.days as real * DAY
  }

  predicate ExpiresAlong(ops: seq<Timed>, at: real) {
    ops != [] && (Expires(ops[0].op, at, ops[0].now) || ExpiresAlong(ops[1..], at))
  }

  /** Retention, from the moment a row is resolved over any run that does not
      resolve it by id again: it is there, just as it was resolved, exactly as
      long as no cleaning has found it past its age. */
  lemma RetentionIsExact(t: Table, op: Op, at: real, ops: seq<Timed>, id: nat)
    requires Numbered(t) && OneOpen(t) && id in t.rows && at > 0.0
    requires Resolves(op) && Selects(op, id, t.rows[id], at)
    requires AllProper(Apply(t, op, at), ops) && forall i | 0 <= i < |ops| :: ops[i].op != ResolveEvent(id)
    ensures var v := Run(Apply(t, op, at), ops);
            && (id in v.rows <==> !ExpiresAlong(ops, at))
            && (id in v.rows ==> v.rows[id] == Resolve(t.rows[id], at))
  {
    OneOpenIffSafe(t, op, at);
    var u := Apply(t, op, at);
    assert u.rows[id] == Resolve(t.rows[id], at);
    KeptUntilExpired(u, ops, id, at);
  }

  lemma {:induction false} KeptUntilExpired(t: Table, ops: seq<Timed>, id: nat, at: real)
    requires Numbered(t) && OneOpen(t) && AllProper(t, ops) && forall i | 0 <= i < |ops| :: ops[i].op != ResolveEvent(id)
    requires id in t.rows && t.rows[id].state == RESOLVED && t.rows[id].resolved == at > 0.0
    ensures var v := Run(t, ops);
            && (id in v.rows <==> !ExpiresAlong(ops, at))
            && (id in v.rows ==> v.rows[id] == t.rows[id])
    decreases |ops|
  {
    if ops != [] {
      var u := Apply(t, ops[0].op, ops[0].now);
      OneOpenIffSafe(t, ops[0].op, ops[0].now);
      CleanedIffExpired(t, ops[0].op, ops[0].now, id);
      if id in u.rows { KeptUntilExpired(u, ops[1..], id, at); } else { NeverComesBack(u, ops[1..], id); }
    }
  }

  lemma CleanedIffExpired(t: Table, op: Op, now: real, id: nat)
    requires Numbered(t) && Proper(t, op) && op != ResolveEvent(id)
    requires id in t.rows && t.rows[id].state == RESOLVED && t.rows[id].resolved > 0.0
    ensures var u := Apply(t, op, now);
            && u.nextId >= t.nextId
            && (id in u.rows <==> !Expires(op, t.rows[id].resolved, now))
            && (id in u.rows ==> u.rows[id] == t.rows[id])
  {
    if op.Clean? && op.days >= 1 { assert op.days as real * DAY >= DAY; }
  }

  /** Row numbers are not used twice. */
  lemma {:induction false} NeverComesBack(t: Table, ops: seq<Timed>, id: nat)
    requires id !in t.rows && id < t.nextId
    ensures id !in Run(t, ops).rows
    decreases |ops|
  {
    if ops != [] { NeverComesBack(Apply(t, ops[0].op, ops[0].now), ops[1..], id); }
  }

  /** Sensor-wide acknowledging and resolving reach every open row of the
      sensor and touch no other sensor. */
  lemma SensorWideIsComplete(t: Table, did: string, sid: string, actor: string, now: real)
    ensures !HasOpen(Apply(t, ResolveSensor(did, sid), now), did, sid)
    ensures var v := Apply(t, AckSensor(did, sid, actor), now);
            && (HasOpen(v, did, sid) <==> HasOpen(t, did, sid))
            && forall i :: i in v.rows && v.rows[i].Open() && v.rows[i].Of(did, sid) ==>
                 v.rows[i].state == ACKED && (t.rows[i].state == ACTIVE ==> v.rows[i].ackBy == actor && v.rows[i].ackAt == now)
    ensures forall op, i :: op in [ResolveSensor(did, sid), AckSensor(did, sid, actor)] && i in t.rows && !t.rows[i].Of(did, sid) ==>
              i in Apply(t, op, now).rows && Apply(t, op, now).rows[i] == t.rows[i]
  {
    var v := Apply(t, AckSensor(did, sid, actor), now);
    if HasOpen(t, did, sid) {
      var i :| i in t.rows && t.rows[i].Open() && t.rows[i].Of(did, sid);
      assert v.rows[i].Open() && v.rows[i].Of(did, sid);
    }
  }

  /** Recovery under one profile closes the sensor unless another profile's row
      is open; resolving everything leaves no sensor open. */
  lemma RecoveryCloses(t: Table, profile: int, did: string, sid: string, now: real)
    ensures HasOpen(Apply(t, AutoResolve(profile, did, sid), now), did, sid)
       <==> exists i :: i in t.rows && t.rows[i].Open() && t.rows[i].Of(did, sid) && t.rows[i].profile != profile
    ensures forall d, s :: !HasOpen(Apply(t, ResolveAll, now), d, s)
  {
    var v := Apply(t, AutoResolve(profile, did, sid), now);
    if i :| i in t.rows && t.rows[i].Open() && t.rows[i].Of(did, sid) && t.rows[i].profile != profile {
      assert v.rows[i] == t.rows[i];
    }
  }

  /** A session from its first fire on: as long as it is open it began with that
      fire, has counted it and every later active one, is critical exactly if one
      of them was, and is acknowledged if the flap already was when it began. */
  lemma SessionFromFirstFire(t: Table, f: Fire, now: real, ops: seq<Timed>)
    requires Numbered(t) && OneOpen(t) && !HasOpen(t, f.did, f.sid)
    requires AllProper(Log(t, f, ACTIVE, now), ops) && OpenRow(Run(Log(t, f, ACTIVE, now), ops), t.nextId)
    ensures var b := Run(Log(t, f, ACTIVE, now), ops).rows[t.nextId];
            && b.Of(f.did, f.sid) && b.triggered == now && b.repeats == 1 + Fires(ops, f.did, f.sid)
            && (f.flapAck.Some? ==> b.state == "acknowledged")
            && (b.severity == "critical" <==> f.severity == "critical" || FirstCritical(ops, f.did, f.sid).Some?)
  {
    var u := Apply(t, LogOp(f, ACTIVE), now);
    OneOpenIffSafe(t, LogOp(f, ACTIVE), now);
    assert u.rows[t.nextId] == NewRow(f, ACTIVE, now);
    SessionOverRun(u, ops, t.nextId);
  }

  // ------------------------------------------------------------- the class

  /** The rows once those of `done` have been updated. */
  function UpdatedRows(rows: map<nat, Row>, op: Op, now: real, done: set<nat>): map<nat, Row> {
    map i | i in rows :: if i in done then Updated(op, rows[i], now) else rows[i]
  }

  lemma OneMoreUpdated(rows: map<nat, Row>, op: Op, now: real, done: set<nat>, i: nat)
    requires i in rows && i !in done
    ensures var before := UpdatedRows(rows, op, now, done);
            i in before && UpdatedRows(rows, op, now, done + {i}) == before[i := Updated(op, before[i], now)]
  {
    hide Updated;
  }

  lemma AllUpdated(t: Table, op: Op, now: real)
    requires !op.LogOp? && !op.Clean?
    ensures Apply(t, op, now) == t.(rows := UpdatedRows(t.rows, op, now, set i | i in t.rows && Selects(op, i, t.rows[i], now)))
  {
    hide Updated, Selects;
  }

  class EventTable {
    var rows: map<nat, Row>
    var nextId: nat

    constructor ()
      ensures Content() == Table(map[], 1)
    {
      rows, nextId := map[], 1;
    }

    function Content(): Table reads this { Table(rows, nextId) }

    method FindOpen(did: string, sid: string) returns (id: Option<nat>)
      ensures id == NewestOpen(rows, did, sid, nextId)
    {
      var n: nat := nextId;
      while n > 0
        invariant n <= nextId
        invariant NewestOpen(rows, did, sid, nextId) == NewestOpen(rows, did, sid, n)
      {
        n := n - 1;
        if n in rows && rows[n].Open() && rows[n].Of(did, sid) { return Some(n); }
      }
      id := None;
    }

    method LogEvent(f: Fire, state: string, now: real) returns (id: nat)
      modifies this
      ensures Content() == Apply(old(Content()), LogOp(f, state), now)
      ensures id in rows && rows[id].Of(f.did, f.sid)
    {
      var insState, ackBy, ackAt := state, "", 0.0;
      if state == ACTIVE && f.flapAck.Some? {
        insState, ackBy, ackAt := ACKED, f.flapAck.value.0, f.flapAck.value.1;
      }
      var existing := FindOpen(f.did, f.sid);
      if existing.Some? && state == ACTIVE {
        id := existing.value;
        var r := rows[id];
        var sev, typ := f.severity, f.eventType;
        if r.severity == CRITICAL { sev, typ := CRITICAL, r.eventType; }
        rows := rows[id := r.(repeats := r.repeats + 1, stage := f.stage, profile := f.profile,
                              profileName := f.profileName, severity := sev, eventType := typ, detail := f.detail)];
      } else {
        id := nextId;
        rows := rows[id := Row(f.profile, f.stage, f.profileName, f.did, f.sid, f.severity, f.eventType, insState,
                               now, 0.0, ackBy, ackAt, f.detail, 1, f.reason)];
        nextId := nextId + 1;
      }
    }

    /** The UPDATE statements, scanning the table row by row. */
    method Update(op: Op, now: real) returns (count: nat)
      requires !op.LogOp? && !op.Clean?
      modifies this`rows
      ensures Content() == Apply(old(Content()), op, now)
      ensures count == |set i | i in old(rows) && Selects(op, i, old(rows)[i], now)|
    {
      hide Selects, Updated, Apply;
      ghost var was := Content();
      var hit := set i | i in rows && Selects(op, i, rows[i], now);
      count := |hit|;
      var left := hit;
      while left != {}
        invariant left <= hit
        invariant rows == UpdatedRows(was.rows, op, now, hit - left)
        decreases left
      {
        var i :| i in left;
        OneMoreUpdated(was.rows, op, now, hit - left, i);
        rows := rows[i := Updated(op, rows[i], now)];
        left := left - {i};
        assert hit - left == hit - (left + {i}) + {i};
      }
      assert hit - left == hit;
      AllUpdated(was, op, now);
    }

    method CleanEvents(retainDays: int, now: real) returns (deleted: nat)
      modifies this`rows
      ensures Content() == Apply(old(Content()), Clean(retainDays), now)
      ensures deleted == |old(rows).Keys - rows.Keys|
    {
      var doomed := set i | i in rows && Selects(Clean(retainDays), i, rows[i], now);
      deleted := |doomed|;
      rows := rows - doomed;
      assert old(rows).Keys - rows.Keys == doomed;
    }

    method HasActiveEvent(did: string, sid: string) returns (yes: bool)
      requires Numbered(Content())
      ensures yes <==> HasOpen(Content(), did, sid)
    {
      var id := FindOpen(did, sid);
      yes := id.Some?;
    }
  }
}
