/** The supervisor, the agent process it watches and the update task inside
    that process, as one state machine.  Each event is one file operation or
    one process action; the supervisor may crash, taking the agent with it,
    between any two of them. */
module SupervisorRuns {
  import opened Options
  import opened Turns
  import opened SupervisorState

  /** A package the task has downloaded, with the pinned checksum. */
  datatype Job = Job(target: Name, sha: Digest, data: Bytes)

  /** How far the agent's update task has come: package checked, scratch
      directory emptied and being filled, old target removed, scratch directory
      moved into place, request written. */
  datatype Stage = Resting | Fetched(job: Job) | Filling(job: Job) | Cleared(job: Job) | Placed(job: Job) | Announced

  datatype Child = Child(build: Name, epoch: nat, good: nat, turns: seq<seq<End>>, stage: Stage)

  /** The checksum function and the content of a package. */
  datatype Env = Env(hash: Bytes -> Digest, unpack: Bytes -> map<Path, Content>)

  /** Where the supervisor is: the next file operation it will perform. */
  datatype Pc =
    | Boot | Top | CheckPending
    | SwitchSave(req: Request, early: bool) | SwitchClear(early: bool)
    | Spawning | Watching
    | CommitSave(seen: Beacon) | Pruning
    | RollSave | RollClear
    | Exited | ExitJudge
    | LoopSave | LoopClear

  /** What has happened so far: switches, commits, probation rollbacks,
      crash-loop rollbacks; the persisted state and time at the latest switch;
      whether its clearing of the health file was cut off by a crash; and
      whether emptying the scratch directory ever left files behind. */
  datatype Hist = Hist(
    switches: nat, commits: nat, rollbacks: nat, loops: nat, before: St, openedAt: real, torn: bool, dirty: bool)

  datatype World = World(
    env: Env, disk: Disk, now: real, pc: Pc, st: St, active: Option<Name>, fast: nat, started: real, child: Option<Child>, hist: Hist)

  datatype Event =
    | Next(spawnOk: bool, fb: Option<Name>, victim: Option<Name>, leftover: Option<Release>)
    | Crash
    | Tick(d: real)
    | Iterate(ends: seq<End>)
    | WriteBeacon
    | Fetch(job: Job)
    | Wipe(left: map<Path, Content>, mtime: real)
    | Fill(path: Path, content: Content)
    | Clear(leftover: Option<Release>)
    | Place
    | Mark(note: Content)
    | Announce(window: int)
    | Abort
    | Die

  function Put(releases: map<Name, Release>, n: Name, r: Option<Release>): map<Name, Release> {
    if r.Some? then releases[n := r.value] else releases - {n}
  }

  // --------------------------------------------------- the supervisor's steps

  function Save(w: World, st: St, pc: Pc): World {
    w.(disk := w.disk.(state := st), st := st, pc := pc)
  }

  function Reload(w: World): World {
    w.(st := w.disk.state, pc := Top)
  }

  function OnProbation(w: World): bool {
    w.st.probation.Some? && w.active == Some(w.st.probation.value.target)
  }

  function Supervise(w: World, ev: Event): World
    requires ev.Next?
  {
    match w.pc
    case Boot =>
      var v := w.(st := w.disk.state, fast := 0, pc := Top);
      if !Runnable(w.disk.releases, v.st.active) && ev.fb.Some? then Save(v, Recovered(v.st, ev.fb.value), Top) else v
    case Top =>
      if Runnable(w.disk.releases, w.st.active) then w.(active := w.st.active, pc := CheckPending) else Reload(w)
    case CheckPending =>
      if w.disk.pending.Some? && Runnable(w.disk.releases, Some(w.disk.pending.value.target)) then
        w.(disk := w.disk.(pending := None), pc := SwitchSave(w.disk.pending.value, true))
      else w.(pc := Spawning)
    case SwitchSave(req, early) =>
      var v := Save(w, Switched(w.st, req.target, w.now + Window(req.window) as real), SwitchClear(early));
      v.(hist := w.hist.(switches := w.hist.switches + 1, before := w.disk.state, openedAt := w.now, torn := false))
    case SwitchClear(early) =>
      var v := w.(disk := w.disk.(beacon := None));
      if early then v.(active := w.st.active, pc := Spawning) else v.(fast := 0, pc := Top)
    case Spawning =>
      if !ev.spawnOk || w.active.None? then Reload(w)
      else w.(child := Some(Child(w.active.value, w.hist.switches, 0, [], Resting)), started := w.now, pc := Watching)
    case Watching =>
      if w.child.None? then w.(pc := Exited)
      else if OnProbation(w) && Healthy(w.disk.beacon, w.active) then w.(pc := CommitSave(w.disk.beacon.value))
      else if OnProbation(w) && w.now > w.st.probation.value.deadline then w.(child := None, pc := RollSave)
      else w
    case CommitSave(_) =>
      Save(w, Committed(w.st), Pruning).(hist := w.hist.(commits := w.hist.commits + 1))
    case Pruning =>
      if ev.victim.Some? && ev.victim.value in w.disk.releases && ev.victim.value !in Names(w.st.active) + Names(w.st.previous) then
        w.(disk := w.disk.(releases := Put(w.disk.releases, ev.victim.value, ev.leftover)))
      else w.(pc := Watching)
    case RollSave =>
      Save(w, RolledBack(w.st, w.disk.releases, ev.fb), RollClear).(hist := w.hist.(rollbacks := w.hist.rollbacks + 1))
    case RollClear => w.(disk := w.disk.(beacon := None), fast := 0, pc := Top)
    case Exited =>
      if w.disk.pending.None? then w.(pc := ExitJudge)
      else
        var v := w.(disk := w.disk.(pending := None));
        if Runnable(w.disk.releases, Some(w.disk.pending.value.target)) then v.(pc := SwitchSave(w.disk.pending.value, false))
        else v.(pc := ExitJudge)
    case ExitJudge =>
      if OnProbation(w) then w.(pc := RollSave)
      else if w.now - w.started >= CRASH_FAST_SECS then Reload(w.(fast := 0))
      else if w.fast + 1 >= CRASH_MAX && Runnable(w.disk.releases, w.st.previous) && w.st.previous != w.active then
        w.(fast := w.fast + 1, pc := LoopSave)
      else Reload(w.(fast := w.fast + 1))
    case LoopSave =>
      Save(w, CrashLooped(w.st), LoopClear).(hist := w.hist.(loops := w.hist.loops + 1))
    case LoopClear => Reload(w.(disk := w.disk.(beacon := None), fast := 0))
  }

  /** A crash forgets everything in memory.  If it falls between the switch's
      two file operations while the health file already speaks for the new
      build, that is recorded. */
  function Crashed(w: World): World {
    var cut := w.pc.SwitchClear? && Healthy(w.disk.beacon, w.disk.state.active);
    w.(pc := Boot, child := None, active := None, fast := 0, hist := w.hist.(torn := w.hist.torn || cut))
  }

  // -------------------------------------------------------- the agent's steps

  function Enter(w: World, c: Child, releases: map<Name, Release>): World {
    w.(child := Some(c), disk := w.disk.(releases := releases))
  }

  predicate LooksForFallback(w: World) {
    || (w.pc.Boot? && !Runnable(w.disk.releases, w.disk.state.active))
    || (w.pc.RollSave? && !Runnable(w.disk.releases, ProbationPrevious(w.st)))
  }

  /** A deletion leaves nothing, or some of the files. */
  predicate Remains(releases: map<Name, Release>, n: Name, leftover: Option<Release>) {
    leftover.Some? ==> n in releases && leftover.value.files.Items <= releases[n].files.Items
  }

  /** The scratch directory of a target. */
  function Scratch(n: Name): Name { Tmp(n.id) }

  function FilesOf(releases: map<Name, Release>, n: Name): map<Path, Content> {
    if n in releases then releases[n].files else map[]
  }

  predicate Contains(files: map<Path, Content>, package: map<Path, Content>) {
    forall p :: p in package ==> p in files && files[p] == package[p]
  }

  ghost predicate Enabled(w: World, ev: Event) {
    match ev
    case Next(_, fb, victim, leftover) =>
      && (LooksForFallback(w) ==> IsFallback(fb, w.disk.releases))
      && (victim.Some? ==> Remains(w.disk.releases, victim.value, leftover))
    case Crash => true
    case Tick(d) => d >= 0.0
    case Iterate(ends) => w.child.Some? && IsTurn(ends)
    case Fetch(job) => w.child.Some? && w.child.value.stage.Resting? && job.target.Rel? && job.target != w.child.value.build
    case Wipe(left, _) =>
      && w.child.Some? && w.child.value.stage.Fetched?
      && left.Items <= FilesOf(w.disk.releases, Scratch(w.child.value.stage.job.target)).Items
    case Fill(path, _) =>
      w.child.Some? && w.child.value.stage.Filling? && path in w.env.unpack(w.child.value.stage.job.data)
    case Clear(leftover) =>
      && w.child.Some? && w.child.value.stage.Filling?
      && (var job := w.child.value.stage.job;
          && Contains(FilesOf(w.disk.releases, Scratch(job.target)), w.env.unpack(job.data))
          && Remains(w.disk.releases, job.target, leftover))
    case Place =>
      && w.child.Some? && w.child.value.stage.Cleared?
      && FilesOf(w.disk.releases, w.child.value.stage.job.target) == map[]
      && Scratch(w.child.value.stage.job.target) in w.disk.releases
    case Mark(_) => w.child.Some? && w.child.value.stage.Placed? && w.child.value.stage.job.target in w.disk.releases
    case Announce(_) => w.child.Some? && w.child.value.stage.Placed?
    case _ => w.child.Some?
  }

  const NOTE: Path := "BUILD_ID"

  /** The agent's events.  A package whose checksum is not the pinned one is
      dropped; files are written in any order and any pieces, and only a scratch
      directory that holds the whole package is moved into place. */
  function Act(w: World, ev: Event): World
    requires Enabled(w, ev) && !ev.Next? && !ev.Crash? && !ev.Tick?
  {
    var c := w.child.value;
    match ev
    case Iterate(ends) =>
      w.(child := Some(c.(good := if CalledGood(ends) then c.good + 1 else 0, turns := c.turns + [ends])))
    case WriteBeacon =>
      w.(disk := w.disk.(beacon := Some(Beacon(c.build, c.good, c.epoch, c.turns))))
    case Fetch(job) =>
      w.(child := Some(c.(stage := if w.env.hash(job.data) == job.sha then Fetched(job) else Resting)))
    case Wipe(left, mtime) =>
      var job := c.stage.job;
      var v := Enter(w, c.(stage := Filling(job)), w.disk.releases[Scratch(job.target) := Release(left, mtime)]);
      v.(hist := w.hist.(dirty := w.hist.dirty || left != map[]))
    case Fill(path, content) =>
      var n := Scratch(c.stage.job.target);
      if n in w.disk.releases then
        Enter(w, c, w.disk.releases[n := w.disk.releases[n].(files := w.disk.releases[n].files[path := content])])
      else w
    case Clear(leftover) =>
      Enter(w, c.(stage := Cleared(c.stage.job)), Put(w.disk.releases, c.stage.job.target, leftover))
    case Place =>
      var job := c.stage.job;
      Enter(w, c.(stage := Placed(job)), (w.disk.releases - {Scratch(job.target)})[job.target := w.disk.releases[Scratch(job.target)]])
    case Mark(note) =>
      var t := c.stage.job.target;
      Enter(w, c, w.disk.releases[t := w.disk.releases[t].(files := w.disk.releases[t].files[NOTE := note])])
    case Announce(window) =>
      var job := c.stage.job;
      w.(child := Some(c.(stage := Announced)), disk := w.disk.(pending := Some(Request(job.target, window, job.sha, job.data))))
    case Abort => w.(child := Some(c.(stage := Resting)))
    case _ => w.(child := None)
  }

  function Step(w: World, ev: Event): World
    requires Enabled(w, ev)
  {
    match ev
    case Next(_, _, _, _) => Supervise(w, ev)
    case Crash => Crashed(w)
    case Tick(d) => w.(now := w.now + d)
    case _ => Act(w, ev)
  }

  /** The agent takes up an update only while the supervisor is watching it
      with no probation open, no request pending and no deletion of old
      releases going on.  What goes wrong otherwise is in SupervisorLimits. */
  ghost predicate QuietStaging(w: World, ev: Event) {
    ev.Fetch? ==> w.disk.state.probation.None? && w.disk.pending.None? && w.pc.Watching?
  }

  ghost predicate Possible(w: World, evs: seq<Event>)
    decreases |evs|
  {
    evs != [] ==> Enabled(w, evs[0]) && Possible(Step(w, evs[0]), evs[1..])
  }

  function Run(w: World, evs: seq<Event>): World
    requires Possible(w, evs)
    decreases |evs|
  {
    if evs == [] then w else Run(Step(w, evs[0]), evs[1..])
  }

  ghost predicate Quiet(w: World, evs: seq<Event>)
    requires Possible(w, evs)
    decreases |evs|
  {
    evs != [] ==> QuietStaging(w, evs[0]) && Quiet(Step(w, evs[0]), evs[1..])
  }

  ghost predicate Legal(w: World, evs: seq<Event>) {
    Possible(w, evs) && Quiet(w, evs)
  }

  /** No switch is taken while a probation is open, and the release a rollback
      would return to is not staged again. */
  ghost predicate CarefulStep(w: World, ev: Event) {
    && (ev.Next? && w.pc.SwitchSave? ==> w.disk.state.probation.None?)
    && (ev.Fetch? ==> Some(ev.job.target) != ProbationPrevious(w.disk.state))
  }

  ghost predicate Careful(w: World, evs: seq<Event>)
    requires Possible(w, evs)
    decreases |evs|
  {
    evs != [] ==> CarefulStep(w, evs[0]) && Careful(Step(w, evs[0]), evs[1..])
  }

  /** A fresh installation, possibly over the health file of an older one. */
  ghost predicate Installed(w: World) {
    && w.pc == Boot && w.child.None? && w.disk.pending.None?
    && Runnable(w.disk.releases, w.disk.state.active) && w.disk.state.previous.None? && w.disk.state.probation.None?
    && w.disk.state.active.value.Rel?
    && w.hist == Hist(0, 0, 0, 0, w.disk.state, w.now, false, false)
    && (w.disk.beacon.Some? ==> Truthful(w.disk.beacon.value, w))
  }

  // ------------------------------------------------------------ invariants

  /** Where the main loop's local variable names the persisted release. */
  predicate Settled(pc: Pc) {
    pc.CheckPending? || pc.Spawning? || pc.Watching? || pc.CommitSave? || pc.Pruning? || pc.Exited? || pc.ExitJudge? || pc.LoopSave?
  }

  ghost predicate AllTurns(turns: seq<seq<End>>) {
    forall i | 0 <= i < |turns| :: IsTurn(turns[i])
  }

  /** Memory agrees with the disk, an open probation is of the active release,
      and a running agent is the active release, spawned since the last
      switch. */
  ghost predicate Shape(w: World) {
    && (w.pc.Boot? || w.st == w.disk.state)
    && (w.disk.state.probation.Some? ==> w.disk.state.active == Some(w.disk.state.probation.value.target))
    && (Settled(w.pc) ==> w.active == w.disk.state.active)
    && (w.child.Some? ==>
          && (w.pc.Watching? || w.pc.CommitSave? || w.pc.Pruning?)
          && w.active == Some(w.child.value.build)
          && w.child.value.epoch == w.hist.switches
          && w.child.value.good == Streak(w.child.value.turns) && AllTurns(w.child.value.turns))
    && (w.pc.CommitSave? || w.pc.RollSave? || w.pc.SwitchClear? ==> w.disk.state.probation.Some?)
    && (w.pc.Pruning? ==> w.disk.state.probation.None?)
    && (w.pc.LoopSave? ==> w.disk.state.probation.None? && w.disk.state.previous.Some? && w.disk.state.previous != w.disk.state.active)
  }

  /** The directory is the unpacked package, but for the note of the build's
      name and what the scratch directory may have kept from before. */
  ghost predicate Unpacked(w: World, n: Name, data: Bytes) {
    && n in w.disk.releases
    && Payload(w.disk.releases[n].files, w.env.unpack(data), w.hist.dirty)
  }

  ghost predicate Payload(files: map<Path, Content>, package: map<Path, Content>, dirty: bool) {
    && Contains(files - {NOTE}, package - {NOTE})
    && (!dirty ==> files.Keys - {NOTE} <= package.Keys)
  }

  ghost predicate Verified(w: World, req: Request) {
    req.target.Rel? && w.env.hash(req.data) == req.sha && Unpacked(w, req.target, req.data)
  }

  /** The scratch directory while it is filled and when it is full. */
  ghost predicate ScratchOk(w: World, job: Job, full: bool) {
    && Scratch(job.target) in w.disk.releases
    && var files := w.disk.releases[Scratch(job.target)].files;
       && (!w.hist.dirty ==> files.Keys <= w.env.unpack(job.data).Keys)
       && (full ==> Contains(files, w.env.unpack(job.data)))
  }

  ghost predicate HasJob(stage: Stage) { stage.Fetched? || stage.Filling? || stage.Cleared? || stage.Placed? }

  ghost predicate StageOk(w: World, c: Child) {
    && (!c.stage.Resting? ==> w.disk.state.probation.None? && w.pc.Watching?)
    && (HasJob(c.stage) ==>
          && w.disk.pending.None? && c.stage.job.target.Rel? && c.stage.job.target != c.build
          && w.env.hash(c.stage.job.data) == c.stage.job.sha)
    && (c.stage.Filling? ==> ScratchOk(w, c.stage.job, false))
    && (c.stage.Cleared? ==> ScratchOk(w, c.stage.job, true))
    && (c.stage.Placed? ==> Unpacked(w, c.stage.job.target, c.stage.job.data))
  }

  /** Staging happens outside probations; only verified releases are announced. */
  ghost predicate Staged(w: World) {
    && (w.child.Some? ==> StageOk(w, w.child.value))
    && (w.disk.pending.Some? ==> Verified(w, w.disk.pending.value))
    && (w.disk.state.probation.Some? || w.pc.SwitchSave? || w.pc.CommitSave? || w.pc.Pruning? ==> w.disk.pending.None?)
    && (w.pc.SwitchSave? ==>
          w.disk.state.probation.None? && Verified(w, w.pc.req) && Runnable(w.disk.releases, Some(w.pc.req.target)))
  }

  /** What the update task aims at is a release, neither the running one nor the
      one a rollback would return to; what is switched to can run. */
  ghost predicate Aimed(w: World) {
    && (w.child.Some? && HasJob(w.child.value.stage) ==>
          && w.child.value.stage.job.target.Rel? && w.child.value.stage.job.target != w.child.value.build
          && Some(w.child.value.stage.job.target) != ProbationPrevious(w.disk.state))
    && (w.disk.pending.Some? ==> w.disk.pending.value.target.Rel?)
    && (w.pc.SwitchSave? ==> w.pc.req.target.Rel? && Runnable(w.disk.releases, Some(w.pc.req.target)))
  }

  ghost predicate IsRelease(n: Option<Name>) {
    n.Some? ==> n.value.Rel?
  }

  /** The active release, and during a probation the one before it, can run. */
  ghost predicate NeverDark(w: World) {
    && Runnable(w.disk.releases, w.disk.state.active)
    && (w.disk.state.probation.Some? ==> Runnable(w.disk.releases, w.disk.state.probation.value.previous))
    && (w.pc.LoopSave? ==> Runnable(w.disk.releases, w.disk.state.previous))
    && IsRelease(w.disk.state.active) && IsRelease(w.disk.state.previous) && IsRelease(ProbationPrevious(w.disk.state))
  }

  /** 1 when a crash-loop rollback would have somewhere new to go. */
  function Credit(st: St): nat {
    if st.previous.Some? && st.previous != LastGood(st) then 1 else 0
  }

  ghost predicate Accounts(w: World) {
    && w.hist.switches == w.hist.commits + w.hist.rollbacks + (if w.disk.state.probation.Some? then 1 else 0)
    && w.hist.loops + Credit(w.disk.state) <= w.hist.commits
    && (w.disk.state.probation.Some? ==>
          && w.hist.before.probation.None?
          && w.disk.state.probation.value.previous == w.hist.before.active
          && w.disk.state.previous == w.hist.before.previous)
  }

  /** The deadline is 30 to 900 seconds after the latest switch. */
  ghost predicate Timely(w: World) {
    && w.hist.openedAt <= w.now
    && (w.disk.state.probation.Some? ==>
          w.hist.openedAt + PROBATION_MIN as real <= w.disk.state.probation.value.deadline <= w.hist.openedAt + PROBATION_MAX as real)
  }

  ghost predicate Truthful(b: Beacon, w: World) {
    b.good == Streak(b.turns) && AllTurns(b.turns) && b.epoch <= w.hist.switches
  }

  /** Unless a crash cut the clearing of the health file short, a health file
      that would commit the open probation was written by a process spawned
      for it. */
  ghost predicate Attested(w: World) {
    && (w.disk.beacon.Some? ==> Truthful(w.disk.beacon.value, w))
    && (w.disk.state.probation.Some? && !w.pc.SwitchClear? && !w.hist.torn && Healthy(w.disk.beacon, w.disk.state.active) ==>
          w.disk.beacon.value.epoch == w.hist.switches)
    && (w.pc.CommitSave? ==>
          && Truthful(w.pc.seen, w)
          && w.active == Some(w.pc.seen.build) && w.pc.seen.good >= GOOD_CHECKINS
          && (w.hist.torn || w.pc.seen.epoch == w.hist.switches))
  }

  // What every run keeps, what careful ones keep besides, and quiet ones.
  ghost predicate Basic(w: World) { Shape(w) && Timely(w) && Attested(w) }
  ghost predicate Sound(w: World) { Aimed(w) && NeverDark(w) && Accounts(w) }

  lemma InstalledInv(w: World)
    requires Installed(w)
    ensures Basic(w) && Sound(w) && Staged(w)
  {
  }

  // ------------------------------------------------------------- every run

  lemma ShapeKept(w: World, ev: Event)
    requires Shape(w) && Enabled(w, ev)
    ensures Shape(Step(w, ev))
  {
    if ev.Next? { ShapeKeptBySupervisor(w, ev); } else { ShapeKeptByOthers(w, ev); }
  }

  lemma ShapeKeptBySupervisor(w: World, ev: Event)
    requires ev.Next? && Shape(w) && Enabled(w, ev)
    ensures Shape(Step(w, ev))
  {
    if w.pc.Watching? || w.pc.Exited? || w.pc.ExitJudge? || w.pc.Pruning? {
      ShapeKeptWatching(w, ev);
    } else {
      hide IsTurn, CalledGood, Remains, IsFallback, Window;
    }
  }

  lemma ShapeKeptWatching(w: World, ev: Event)
    requires w.pc.Watching? || w.pc.Exited? || w.pc.ExitJudge? || w.pc.Pruning?
    requires ev.Next? && Shape(w) && Enabled(w, ev)
    ensures Shape(Step(w, ev))
  {
    hide IsTurn, CalledGood, Remains, IsFallback, Window, Streak;
  }

  lemma ShapeKeptByOthers(w: World, ev: Event)
    requires !ev.Next? && Shape(w) && Enabled(w, ev)
    ensures Shape(Step(w, ev))
  {
  }

  lemma TimelyKept(w: World, ev: Event)
    requires Timely(w) && Shape(w) && Enabled(w, ev)
    ensures Timely(Step(w, ev))
  {
    hide IsFallback, Remains, Runnable, IsTurn, CalledGood, Streak, AllTurns;
  }

  lemma AttestedKept(w: World, ev: Event)
    requires Attested(w) && Shape(w) && Enabled(w, ev)
    ensures Attested(Step(w, ev))
  {
    if ev.Next? { AttestedKeptBySupervisor(w, ev); } else { AttestedKeptByOthers(w, ev); }
  }

  lemma AttestedKeptBySupervisor(w: World, ev: Event)
    requires ev.Next? && Attested(w) && Shape(w) && Enabled(w, ev)
    ensures Attested(Step(w, ev))
  {
    hide IsTurn, Streak, CalledGood, AllTurns, Remains, IsFallback, Window;
  }

  lemma AttestedKeptByOthers(w: World, ev: Event)
    requires !ev.Next? && Attested(w) && Shape(w) && Enabled(w, ev)
    ensures Attested(Step(w, ev))
  {
  }

  lemma StepBasic(w: World, ev: Event)
    requires Basic(w) && Enabled(w, ev)
    ensures Basic(Step(w, ev))
  {
    ShapeKept(w, ev);
    TimelyKept(w, ev);
    AttestedKept(w, ev);
  }

  lemma {:induction false} RunBasic(w: World, evs: seq<Event>)
    requires Basic(w) && Possible(w, evs)
    ensures Basic(Run(w, evs))
    decreases |evs|
  {
    hide Basic, Step, Enabled;
    if evs != [] {
      StepBasic(w, evs[0]);
      RunBasic(Step(w, evs[0]), evs[1..]);
    }
  }

  // ------------------------------------------------------------ careful runs

  lemma AimedKept(w: World, ev: Event)
    requires Shape(w) && Aimed(w) && NeverDark(w) && Enabled(w, ev) && CarefulStep(w, ev)
    ensures Aimed(Step(w, ev))
  {
    hide IsTurn, CalledGood, Streak, AllTurns, Window, IsFallback, Remains, Contains;
  }

  lemma NeverDarkKept(w: World, ev: Event)
    requires Shape(w) && Aimed(w) && NeverDark(w) && Enabled(w, ev) && CarefulStep(w, ev)
    ensures NeverDark(Step(w, ev))
  {
    if ev.Next? { NeverDarkKeptBySupervisor(w, ev); } else { NeverDarkKeptByOthers(w, ev); }
  }

  lemma NeverDarkKeptBySupervisor(w: World, ev: Event)
    requires ev.Next? && Shape(w) && Aimed(w) && NeverDark(w) && Enabled(w, ev) && CarefulStep(w, ev)
    ensures NeverDark(Step(w, ev))
  {
    hide Streak, AllTurns, Remains, Window;
  }

  lemma NeverDarkKeptByOthers(w: World, ev: Event)
    requires !ev.Next? && Shape(w) && Aimed(w) && NeverDark(w) && Enabled(w, ev) && CarefulStep(w, ev)
    ensures NeverDark(Step(w, ev))
  {
    hide Contains, Streak, AllTurns, CalledGood, IsTurn;
  }

  lemma AccountsKept(w: World, ev: Event)
    requires Accounts(w) && Shape(w) && Aimed(w) && NeverDark(w) && Enabled(w, ev) && CarefulStep(w, ev)
    ensures Accounts(Step(w, ev))
  {
    if ev.Next? { AccountsKeptBySupervisor(w, ev); } else { AccountsKeptByOthers(w, ev); }
  }

  lemma AccountsKeptBySupervisor(w: World, ev: Event)
    requires ev.Next? && Accounts(w) && Shape(w) && Aimed(w) && NeverDark(w) && Enabled(w, ev) && CarefulStep(w, ev)
    ensures Accounts(Step(w, ev))
  {
    hide Remains, IsFallback;
    if w.pc.SwitchSave? {
      hide Runnable;
    } else if w.pc.CommitSave? || w.pc.RollSave? || w.pc.LoopSave? {
      hide Window;
    } else {
      NothingSaved(w, ev);
      hide Supervise, Shape, Aimed, NeverDark;
    }
  }

  /** Elsewhere the supervisor changes neither the persisted state nor history. */
  lemma NothingSaved(w: World, ev: Event)
    requires ev.Next? && NeverDark(w) && Enabled(w, ev)
    requires !w.pc.SwitchSave? && !w.pc.CommitSave? && !w.pc.RollSave? && !w.pc.LoopSave?
    ensures var v := Supervise(w, ev); v.disk.state == w.disk.state && v.hist == w.hist && v.now == w.now
  {
  }

  lemma AccountsKeptByOthers(w: World, ev: Event)
    requires !ev.Next? && Accounts(w) && Enabled(w, ev)
    ensures Accounts(Step(w, ev))
  {
  }

  lemma StepSound(w: World, ev: Event)
    requires Basic(w) && Sound(w) && Enabled(w, ev) && CarefulStep(w, ev)
    ensures Sound(Step(w, ev))
  {
    AimedKept(w, ev);
    NeverDarkKept(w, ev);
    AccountsKept(w, ev);
  }

  lemma {:induction false} RunSound(w: World, evs: seq<Event>)
    requires Basic(w) && Sound(w) && Possible(w, evs) && Careful(w, evs)
    ensures Basic(Run(w, evs)) && Sound(Run(w, evs))
    decreases |evs|
  {
    hide Basic, Sound, Step, Enabled, CarefulStep;
    if evs != [] {
      StepBasic(w, evs[0]);
      StepSound(w, evs[0]);
      RunSound(Step(w, evs[0]), evs[1..]);
    }
  }

  // -------------------------------------------------------------- quiet runs

  lemma StagedKept(w: World, ev: Event)
    requires Shape(w) && Staged(w) && NeverDark(w) && Enabled(w, ev) && QuietStaging(w, ev)
    ensures Staged(Step(w, ev))
  {
    if ev.Next? {
      StagedKeptBySupervisor(w, ev);
    } else if ev.Crash? || ev.Tick? {
      hide Payload;
    } else if ev.Iterate? || ev.WriteBeacon? || ev.Fetch? || ev.Announce? || ev.Abort? || ev.Die? {
      StagedKeptInMemory(w, ev);
    } else {
      StagedKeptOnDisk(w, ev);
    }
  }

  lemma StagedKeptBySupervisor(w: World, ev: Event)
    requires ev.Next? && Shape(w) && Staged(w) && NeverDark(w) && Enabled(w, ev) && QuietStaging(w, ev)
    ensures Staged(Step(w, ev))
  {
    hide Payload, ScratchOk, Streak, AllTurns, IsFallback, Window;
    if w.pc.Pruning? {
      hide Runnable, Unpacked, Verified;
    } else {
      hide Unpacked, Remains;
      ReleasesKept(w, ev);
      UnpackedKept(w, Supervise(w, ev));
    }
  }

  lemma ReleasesKept(w: World, ev: Event)
    requires ev.Next? && !w.pc.Pruning?
    ensures var v := Supervise(w, ev); v.disk.releases == w.disk.releases && v.env == w.env && v.hist.dirty == w.hist.dirty
  {
  }

  lemma UnpackedKept(w: World, v: World)
    requires v.disk.releases == w.disk.releases && v.env == w.env && v.hist.dirty == w.hist.dirty
    ensures forall n, data :: Unpacked(w, n, data) == Unpacked(v, n, data)
  {
  }

  lemma StagedKeptInMemory(w: World, ev: Event)
    requires ev.Iterate? || ev.WriteBeacon? || ev.Fetch? || ev.Announce? || ev.Abort? || ev.Die?
    requires Shape(w) && Staged(w) && NeverDark(w) && Enabled(w, ev) && QuietStaging(w, ev)
    ensures Staged(Step(w, ev))
  {
    hide Payload, Contains, Streak, AllTurns, CalledGood, IsTurn;
  }

  lemma StagedKeptOnDisk(w: World, ev: Event)
    requires ev.Wipe? || ev.Fill? || ev.Clear? || ev.Place? || ev.Mark?
    requires Shape(w) && Staged(w) && NeverDark(w) && Enabled(w, ev) && QuietStaging(w, ev)
    ensures Staged(Step(w, ev))
  {
    hide Shape, NeverDark;
  }

  /** Quiet staging is careful. */
  lemma QuietStepIsCareful(w: World, ev: Event)
    requires Staged(w) && QuietStaging(w, ev) && Enabled(w, ev)
    ensures CarefulStep(w, ev)
  {
  }

  lemma {:induction false} RunQuiet(w: World, evs: seq<Event>)
    requires Basic(w) && Sound(w) && Staged(w) && Legal(w, evs)
    ensures Careful(w, evs) && Staged(Run(w, evs))
    decreases |evs|
  {
    hide Basic, Sound, Staged, Step, Enabled, CarefulStep, QuietStaging;
    if evs != [] {
      QuietStepIsCareful(w, evs[0]);
      StepBasic(w, evs[0]);
      StepSound(w, evs[0]);
      assert Staged(Step(w, evs[0])) by { StagedStep(w, evs[0]); }
      RunQuiet(Step(w, evs[0]), evs[1..]);
    }
  }

  lemma StagedStep(w: World, ev: Event)
    requires Basic(w) && Sound(w) && Staged(w) && Enabled(w, ev) && QuietStaging(w, ev)
    ensures Staged(Step(w, ev))
  {
    StagedKept(w, ev);
  }

  // -------------------------------------------- theorems about every run

  /** In every run, with crashes anywhere, a persisted probation is of the
      persisted active release. */
  lemma ProbationIsOfActive(w: World, evs: seq<Event>)
    requires Installed(w) && Possible(w, evs)
    ensures var st := Run(w, evs).disk.state; st.probation.Some? ==> st.active == Some(st.probation.value.target)
  {
    InstalledInv(w);
    RunBasic(w, evs);
  }

  /** The supervisor's first look after the deadline ends the probation at its
      next save, and the deadline lies 30 to 900 seconds after the latest
      switch, in every run. */
  lemma ProbationEndsAtFirstLateLook(w: World, evs: seq<Event>, look: Event, save: Event)
    requires Installed(w) && Possible(w, evs) && Run(w, evs).pc.Watching? && Run(w, evs).child.Some?
    requires Run(w, evs).disk.state.probation.Some? && Run(w, evs).now > Run(w, evs).disk.state.probation.value.deadline
    requires look.Next? && save.Next? && Enabled(Run(w, evs), look) && Enabled(Step(Run(w, evs), look), save)
    ensures var v := Run(w, evs);
            var e := v.disk.state.probation.value.deadline - v.hist.openedAt;
            30.0 <= e <= 900.0 && Step(Step(v, look), save).disk.state.probation.None?
  {
    InstalledInv(w);
    RunBasic(w, evs);
    StepBasic(Run(w, evs), look);
  }

  lemma StreakOfTwo(turns: seq<seq<End>>)
    requires Streak(turns) >= 2
    ensures var n := |turns|; n >= 2 && CalledGood(turns[n - 1]) && CalledGood(turns[n - 2])
  {
    var front := turns[..|turns| - 1];
    assert Streak(front) >= 1;
  }

  /** A turn in which the server acknowledged check-ins: the first, all others
      up to the last, and the last exactly if no exception escaped it. */
  ghost predicate Acknowledged(ends: seq<End>) {
    && IsTurn(ends) && ends[0].Good?
    && (ends[|ends| - 1].Good? <==> !ends[|ends| - 1].Raised?)
  }

  /** In every run a build is committed only on the word of a process of that build, spawned
      after the switch, whose last two main-loop turns each began with an
      acknowledged check-in and ended with one unless their last check-in
      raised: unless a crash cut the switch's clearing of an older health file
      of the same build. */
  lemma CommitIsEarned(w: World, evs: seq<Event>)
    requires Installed(w) && Possible(w, evs) && Run(w, evs).pc.CommitSave? && !Run(w, evs).hist.torn
    ensures var v := Run(w, evs);
            var seen := v.pc.seen;
            && v.disk.state.active == Some(seen.build) && seen.epoch == v.hist.switches
            && |seen.turns| >= 2 && Acknowledged(seen.turns[|seen.turns| - 1]) && Acknowledged(seen.turns[|seen.turns| - 2])
  {
    InstalledInv(w);
    RunBasic(w, evs);
    var turns := Run(w, evs).pc.seen.turns;
    StreakOfTwo(turns);
    GoodTurn(turns[|turns| - 1]);
    GoodTurn(turns[|turns| - 2]);
  }

  // ------------------------------------------ theorems about careful runs

  /** A bad build never leaves a probe without a release: in every
      careful run, with crashes anywhere, the persisted active release can run, and during a
      probation so can the one to return to, and memory never disagrees with a
      persisted probation of some other release. */
  lemma ProbeNeverDark(w: World, evs: seq<Event>)
    requires Installed(w) && Possible(w, evs) && Careful(w, evs)
    ensures var d := Run(w, evs).disk;
            && Runnable(d.releases, d.state.active)
            && (d.state.probation.Some? ==>
                  d.state.active == Some(d.state.probation.value.target) && Runnable(d.releases, d.state.probation.value.previous))
  {
    InstalledInv(w);
    RunSound(w, evs);
  }

  /** Each switch is resolved exactly once: by a commit, by a rollback, or it
      is the one still open. */
  lemma EverySwitchResolvedOnce(w: World, evs: seq<Event>)
    requires Installed(w) && Possible(w, evs) && Careful(w, evs)
    ensures var h := Run(w, evs).hist;
            h.switches == h.commits + h.rollbacks + (if Run(w, evs).disk.state.probation.Some? then 1 else 0)
  {
    InstalledInv(w);
    RunSound(w, evs);
  }

  /** A rollback puts the persisted state back to exactly what it was when the
      switch was taken. */
  lemma RollbackRestoresState(w: World, evs: seq<Event>, ev: Event)
    requires Installed(w) && Possible(w, evs) && Careful(w, evs) && ev.Next? && Enabled(Run(w, evs), ev) && Run(w, evs).pc.RollSave?
    ensures var v := Run(w, evs);
            Step(v, ev).disk.state == v.hist.before && Runnable(v.disk.releases, v.hist.before.active)
  {
    InstalledInv(w);
    RunSound(w, evs);
  }

  /** An agent that exits during its probation is rolled back: the supervisor
      notices, finds no request it can take, judges, and saves the state from before the
      switch. */
  lemma AgentExitEndsProbation(w: World, evs: seq<Event>, notice: Event, find: Event, judge: Event, save: Event)
    requires Installed(w) && Possible(w, evs) && Careful(w, evs) && Run(w, evs).pc.Watching? && Run(w, evs).child.None?
    requires Run(w, evs).disk.state.probation.Some?
    requires notice.Next? && find.Next? && judge.Next? && save.Next?
    requires Possible(Run(w, evs), [notice, find, judge]) && Careful(Run(w, evs), [notice, find, judge])
    requires Enabled(Run(Run(w, evs), [notice, find, judge]), save)
    ensures Step(Run(Run(w, evs), [notice, find, judge]), save).disk.state == Run(w, evs).hist.before
  {
    InstalledInv(w);
    RunSound(w, evs);
    var v := Run(w, evs);
    RunThree(v, notice, find, judge);
    ExitIsJudged(v, notice, find, judge);
    RunSound(v, [notice, find, judge]);
    var u := Run(v, [notice, find, judge]);
    hide Step, Enabled, CarefulStep, Run, Possible, Careful;
    assert Step(u, save).disk.state == u.hist.before by { RollSaveRestores(u, save); }
  }

  lemma RollSaveRestores(w: World, save: Event)
    requires Shape(w) && Sound(w) && w.pc.RollSave? && save.Next? && Enabled(w, save)
    ensures Step(w, save).disk.state == w.hist.before
  {
  }

  /** With no request it may take, an exit in a probation comes to a rollback. */
  lemma ExitIsJudged(v: World, notice: Event, find: Event, judge: Event)
    requires Shape(v) && v.pc.Watching? && v.child.None? && v.disk.state.probation.Some?
    requires notice.Next? && find.Next? && judge.Next?
    requires Enabled(v, notice) && Enabled(Step(v, notice), find) && Enabled(Step(Step(v, notice), find), judge)
    requires CarefulStep(Step(Step(v, notice), find), judge)
    ensures var u := Step(Step(Step(v, notice), find), judge);
            u.pc.RollSave? && u.disk.state == v.disk.state && u.hist == v.hist
  {
    var a := Step(v, notice);
    assert a.pc.Exited? && a == v.(pc := Exited);
    var b := Step(a, find);
    assert b.disk.state == v.disk.state && b.hist == v.hist && (b.pc.ExitJudge? || b.pc.SwitchSave?);
  }

  lemma RunThree(v: World, a: Event, b: Event, c: Event)
    requires Possible(v, [a, b, c]) && Careful(v, [a, b, c])
    ensures Enabled(v, a) && Enabled(Step(v, a), b) && Enabled(Step(Step(v, a), b), c)
    ensures CarefulStep(Step(Step(v, a), b), c)
    ensures Run(v, [a, b, c]) == Step(Step(Step(v, a), b), c)
  {
    hide Enabled, Step, CarefulStep;
    assert [a, b, c][1..] == [b, c] && [b, c][1..] == [c] && [c][1..] == [];
    var v1 := Step(v, a);
    assert Possible(v1, [b, c]) && Careful(v1, [b, c]) && Run(v, [a, b, c]) == Run(v1, [b, c]);
    var v2 := Step(v1, b);
    assert Possible(v2, [c]) && Careful(v2, [c]) && Run(v1, [b, c]) == Run(v2, [c]);
    assert Run(v2, [c]) == Run(Step(v2, c), []);
  }

  /** Crash-loop rollbacks cannot ping-pong: there are never more of them than
      commits. */
  lemma LoopRollbacksBoundedByCommits(w: World, evs: seq<Event>)
    requires Installed(w) && Possible(w, evs) && Careful(w, evs)
    ensures Run(w, evs).hist.loops <= Run(w, evs).hist.commits
  {
    InstalledInv(w);
    RunSound(w, evs);
  }

  /** A look that finds two good turns of the active build commits: the release
      stays active, the one before the switch becomes the previous one, and the
      probation is over, however late the look. */
  lemma HealthyLookCommits(w: World, evs: seq<Event>, look: Event, save: Event)
    requires Installed(w) && Possible(w, evs) && Careful(w, evs)
    requires Run(w, evs).pc.Watching? && Run(w, evs).child.Some? && Run(w, evs).disk.state.probation.Some?
    requires var b := Run(w, evs).disk.beacon; b.Some? && Some(b.value.build) == Run(w, evs).disk.state.active && b.value.good >= 2
    requires look.Next? && save.Next? && Enabled(Run(w, evs), look) && Enabled(Step(Run(w, evs), look), save)
    ensures var v := Run(w, evs);
            var u := Step(Step(v, look), save);
            u.disk.state == St(v.disk.state.active, v.hist.before.active, None) && u.child == v.child
  {
    InstalledInv(w);
    RunSound(w, evs);
  }

  // -------------------------------------------- single moves of the supervisor

  /** The probation window: 120 s unless asked for, and between 30 and 900 s. */
  lemma WindowMeans(requested: int)
    ensures Window(requested) == if requested == 0 then 120 else if requested < 30 then 30 else if requested > 900 then 900 else requested
  {
  }

  /** A request left from before a start is taken before anything is spawned. */
  lemma LeftoverRequestIsTaken(w: World, first: Event, save: Event)
    requires Shape(w) && w.pc.CheckPending? && w.disk.pending.Some? && first.Next? && save.Next?
    requires Runnable(w.disk.releases, Some(w.disk.pending.value.target))
    ensures var req, u := w.disk.pending.value, Supervise(Supervise(w, first), save);
            && u.disk.pending.None?
            && u.disk.state == St(Some(req.target), w.disk.state.previous,
                                  Some(Probation(req.target, w.disk.state.active, w.now + Window(req.window) as real)))
  {
  }

  /** A supervisor that starts with an active release that cannot run makes the
      newest one that can the active one, with no probation; with none it waits. */
  lemma BootRecovers(w: World, boot: Event)
    requires w.pc.Boot? && boot.Next? && Enabled(w, boot) && !Runnable(w.disk.releases, w.disk.state.active)
    ensures var u := Supervise(w, boot);
            && (boot.fb.Some? ==>
                  && u.disk.state == St(boot.fb, w.disk.state.previous, None) && Runnable(u.disk.releases, u.disk.state.active)
                  && forall n :: n in w.disk.releases && AGENT in w.disk.releases[n].files ==>
                       w.disk.releases[n].mtime <= w.disk.releases[boot.fb.value].mtime)
            && (boot.fb.None? ==>
                  u.disk == w.disk && forall n :: n in w.disk.releases ==> AGENT !in w.disk.releases[n].files)
  {
  }

  // -------------------------------------------- theorems about quiet runs

  /** Quiet runs are careful, so all of the above holds of them. */
  lemma QuietIsCareful(w: World, evs: seq<Event>)
    requires Installed(w) && Legal(w, evs)
    ensures Careful(w, evs)
  {
    InstalledInv(w);
    RunQuiet(w, evs);
  }

  /** Every switch is taken to a release unpacked from bytes whose checksum is
      the pinned one: each file of the package is there as packed (the build's
      name note aside), and no other file unless emptying the scratch directory
      once failed.  It can run, and no probation is open. */
  lemma SwitchesOnlyToWholeReleases(w: World, evs: seq<Event>)
    requires Installed(w) && Legal(w, evs) && Run(w, evs).pc.SwitchSave?
    ensures var v := Run(w, evs);
            var req := v.pc.req;
            && v.env == w.env && w.env.hash(req.data) == req.sha && req.target in v.disk.releases
            && (var files, package := v.disk.releases[req.target].files - {NOTE}, w.env.unpack(req.data) - {NOTE};
                Contains(files, package) && (!v.hist.dirty ==> files == package))
            && Runnable(v.disk.releases, Some(req.target)) && v.disk.state.probation.None?
  {
    InstalledInv(w);
    RunQuiet(w, evs);
    EnvFixed(w, evs);
    var v := Run(w, evs);
    var files, package := v.disk.releases[v.pc.req.target].files - {NOTE}, w.env.unpack(v.pc.req.data) - {NOTE};
    assert !v.hist.dirty ==> files.Keys == package.Keys;
  }

  lemma {:induction false} EnvFixed(w: World, evs: seq<Event>)
    requires Possible(w, evs)
    ensures Run(w, evs).env == w.env
    decreases |evs|
  {
    if evs != [] { EnvFixed(Step(w, evs[0]), evs[1..]); }
  }
}
