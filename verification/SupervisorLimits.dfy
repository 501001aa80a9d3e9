/** Where the supervisor's guarantees need their conditions: what one badly
    timed crash does to commits, and what staging at the wrong moment does to
    releases and rollback targets, each reached from a fresh installation. */
module SupervisorLimits {
  import opened Options
  import opened Turns
  import opened SupervisorState
  import opened SupervisorRuns

  /** The one crash that weakens commit soundness.  If the supervisor dies
      between recording a switch and removing the health file, the restarted
      supervisor, before the new agent has finished a single turn, commits the
      new build exactly when the old health file already named that build with
      two good check-ins. */
  lemma TornSwitchCommitsBlind(w: World, next: Event)
    requires Shape(w) && NeverDark(w) && w.pc.SwitchClear? && w.disk.pending.None? && next == Next(true, None, None, None)
    ensures var v := Restarted(Crashed(w), next);
            && v.child.Some? && v.child.value.turns == []
            && (Supervise(v, next).pc.CommitSave? <==> Healthy(w.disk.beacon, w.disk.state.active))
  {
  }

  /** Boot, Top, CheckPending and Spawning: up to the first look. */
  function Restarted(w: World, next: Event): World
    requires next.Next?
  {
    Supervise(Supervise(Supervise(Supervise(w, next), next), next), next)
  }

  /** Two switches on top of each other lose the good release: if a switch is
      taken while a probation is open, a rollback returns to the unproven
      build, and nothing remembers the release before it. */
  lemma NestedSwitchForgetsGoodRelease(d: Disk, target: Name, deadline: real)
    requires d.state.probation.Some? && d.state.active == Some(d.state.probation.value.target)
    requires Runnable(d.releases, d.state.active) && d.state.probation.value.previous != d.state.active
    ensures var st := RolledBack(Switched(d.state, target, deadline), d.releases, None);
            st.active == Some(d.state.probation.value.target) && st.active != LastGood(d.state)
            && st.probation.None? && st.previous == d.state.previous
  {
  }

  // ------------------------------------------------------- building up runs

  /** The events lead from `w` to `v`; if `quiet`, without a staging at the
      wrong moment. */
  ghost predicate Leads(w: World, evs: seq<Event>, v: World, quiet: bool) {
    Possible(w, evs) && Run(w, evs) == v && (quiet ==> Quiet(w, evs))
  }

  lemma OneStep(w: World, ev: Event, quiet: bool) returns (v: World, evs: seq<Event>)
    requires Enabled(w, ev) && (quiet ==> QuietStaging(w, ev))
    ensures v == Step(w, ev) && evs == [ev] && Leads(w, evs, v, quiet)
  {
    v, evs := Step(w, ev), [ev];
    assert [ev][1..] == [];
  }

  lemma {:induction false} Chain(w: World, a: seq<Event>, u: World, b: seq<Event>, v: World, quiet: bool)
    requires Leads(w, a, u, quiet) && Leads(u, b, v, quiet)
    ensures Leads(w, a + b, v, quiet)
    decreases |a|
  {
    hide Step, Enabled, QuietStaging;
    if a == [] {
      assert a + b == b;
    } else {
      Chain(Step(w, a[0]), a[1..], u, b, v, quiet);
      assert (a + b)[0] == a[0] && (a + b)[1..] == a[1..] + b;
    }
  }

  /** One more event at the end of a run. */
  lemma Then(w: World, a: seq<Event>, u: World, ev: Event, quiet: bool) returns (v: World, evs: seq<Event>)
    requires Leads(w, a, u, quiet) && Enabled(u, ev) && (quiet ==> QuietStaging(u, ev))
    ensures v == Step(u, ev) && Leads(w, evs, v, quiet)
  {
    var last;
    v, last := OneStep(u, ev, quiet);
    Chain(w, a, u, last, v, quiet);
    evs := a + last;
  }

  const GO: Event := Next(true, None, None, None)

  lemma BootToWatching(w: World) returns (v: World, evs: seq<Event>)
    requires w.pc.Boot? && w.disk.pending.None? && Runnable(w.disk.releases, w.disk.state.active)
    ensures Leads(w, evs, v, true)
    ensures v.pc.Watching? && v.disk == w.disk && v.st == w.disk.state && v.active == v.st.active
    ensures v.child == Some(Child(v.active.value, w.hist.switches, 0, [], Resting)) && v.env == w.env && v.hist == w.hist
  {
    hide Leads;
    v, evs := OneStep(w, GO, true);
    v, evs := Then(w, evs, v, GO, true);
    v, evs := Then(w, evs, v, GO, true);
    v, evs := Then(w, evs, v, GO, true);
  }

  /** From the recorded switch to the first look at the new agent. */
  lemma SwitchedToWatching(w: World) returns (v: World, evs: seq<Event>)
    requires w.pc == SwitchClear(false) && w.disk.pending.None? && w.st == w.disk.state
    requires Runnable(w.disk.releases, w.disk.state.active)
    ensures Leads(w, evs, v, true)
    ensures v.pc.Watching? && v.disk == w.disk.(beacon := None) && v.st == w.st && v.active == v.st.active
    ensures v.child == Some(Child(v.active.value, w.hist.switches, 0, [], Resting)) && v.env == w.env && v.hist == w.hist
    ensures v.fast == 0 && v.started == v.now
  {
    hide Leads;
    v, evs := OneStep(w, GO, true);
    v, evs := Then(w, evs, v, GO, true);
    v, evs := Then(w, evs, v, GO, true);
    v, evs := Then(w, evs, v, GO, true);
  }

  /** The agent dies with a request on disk, and the supervisor takes it. */
  lemma TakeSwitch(w: World, t: Name) returns (v: World, evs: seq<Event>)
    requires w.pc.Watching? && w.child.None? && w.disk.pending.Some? && w.disk.pending.value.target == t
    requires Runnable(w.disk.releases, Some(t)) && w.st == w.disk.state
    ensures Leads(w, evs, v, true)
    ensures v.pc == SwitchClear(false) && v.st == v.disk.state && v.disk.pending.None?
    ensures v.disk.beacon == w.disk.beacon && v.disk.releases == w.disk.releases && v.env == w.env
    ensures v.disk.state.active == Some(t) && v.disk.state.probation.Some? && v.disk.state.probation.value.target == t
    ensures v.disk.state.probation.value.previous == w.st.active && v.disk.state.previous == w.st.previous
    ensures v.hist.commits == w.hist.commits
  {
    hide Leads;
    v, evs := OneStep(w, GO, true);
    v, evs := Then(w, evs, v, GO, true);
    v, evs := Then(w, evs, v, GO, true);
  }

  /** Downloaded, checked, and every file written. */
  ghost predicate Stageable(w: World, job: Job) {
    && w.child.Some? && w.child.value.stage.Resting? && job.target.Rel? && job.target != w.child.value.build
    && w.env.hash(job.data) == job.sha && AGENT in w.env.unpack(job.data)
  }

  ghost predicate QuietNow(w: World) {
    w.disk.state.probation.None? && w.disk.pending.None? && w.pc.Watching?
  }

  lemma FillAll(w: World, job: Job, todo: set<Path>) returns (v: World, evs: seq<Event>)
    requires w.child.Some? && w.child.value.stage == Filling(job) && Scratch(job.target) in w.disk.releases
    requires todo <= w.env.unpack(job.data).Keys
    requires Contains(w.disk.releases[Scratch(job.target)].files, w.env.unpack(job.data) - todo)
    ensures Leads(w, evs, v, true) && v == w.(disk := w.disk.(releases := v.disk.releases))
    ensures Scratch(job.target) in v.disk.releases && Contains(v.disk.releases[Scratch(job.target)].files, w.env.unpack(job.data))
    ensures v.disk.releases - {Scratch(job.target)} == w.disk.releases - {Scratch(job.target)}
    decreases todo
  {
    if todo == {} {
      assert w.env.unpack(job.data) - todo == w.env.unpack(job.data);
      v, evs := w, [];
    } else {
      var p :| p in todo;
      var u, one := OneStep(w, Fill(p, w.env.unpack(job.data)[p]), true);
      hide Leads;
      var rest;
      v, rest := FillAll(u, job, todo - {p});
      Chain(w, one, u, rest, v, true);
      evs := one + rest;
    }
  }

  lemma FillScratch(w: World, job: Job) returns (v: World, evs: seq<Event>)
    requires Stageable(w, job)
    ensures Leads(w, evs, v, QuietNow(w))
    ensures v == w.(child := Some(w.child.value.(stage := Filling(job))), disk := w.disk.(releases := v.disk.releases))
    ensures Scratch(job.target) in v.disk.releases && Contains(v.disk.releases[Scratch(job.target)].files, w.env.unpack(job.data))
    ensures v.disk.releases - {Scratch(job.target)} == w.disk.releases - {Scratch(job.target)}
  {
    hide Leads;
    var q, package := QuietNow(w), w.env.unpack(job.data);
    var a, x := OneStep(w, Fetch(job), q);
    var b, y := Then(w, x, a, Wipe(map[], 0.0), q);
    assert package - package.Keys == map[];
    assert b.disk.releases - {Scratch(job.target)} == w.disk.releases - {Scratch(job.target)};
    var fills;
    v, fills := FillAll(b, job, package.Keys);
    Weaken(b, fills, v, q);
    Chain(w, y, b, fills, v, q);
    evs := y + fills;
  }

  lemma Weaken(w: World, evs: seq<Event>, v: World, quiet: bool)
    requires Leads(w, evs, v, true)
    ensures Leads(w, evs, v, quiet)
  {
  }

  /** The old target is removed. */
  lemma ClearTarget(w: World, job: Job) returns (v: World, evs: seq<Event>)
    requires w.child.Some? && w.child.value.stage == Filling(job) && job.target.Rel?
    requires Contains(FilesOf(w.disk.releases, Scratch(job.target)), w.env.unpack(job.data))
    ensures Leads(w, evs, v, true)
    ensures v == w.(child := Some(w.child.value.(stage := Cleared(job))), disk := w.disk.(releases := w.disk.releases - {job.target}))
  {
    v, evs := OneStep(w, Clear(None), true);
  }

  lemma PlaceTarget(w: World, job: Job) returns (v: World, evs: seq<Event>)
    requires w.child.Some? && w.child.value.stage == Cleared(job) && job.target.Rel?
    requires job.target !in w.disk.releases && Scratch(job.target) in w.disk.releases
    ensures Leads(w, evs, v, true)
    ensures v == w.(child := Some(w.child.value.(stage := Placed(job))), disk := w.disk.(releases := v.disk.releases))
    ensures job.target in v.disk.releases && v.disk.releases[job.target] == w.disk.releases[Scratch(job.target)]
    ensures v.disk.releases - {job.target, Scratch(job.target)} == w.disk.releases - {job.target, Scratch(job.target)}
  {
    v, evs := OneStep(w, Place, true);
  }

  /** Staged: the release is in place, whole; no other release was touched. */
  lemma Stage(w: World, job: Job) returns (v: World, evs: seq<Event>)
    requires Stageable(w, job)
    ensures Leads(w, evs, v, QuietNow(w))
    ensures v == w.(child := Some(w.child.value.(stage := Placed(job))), disk := w.disk.(releases := v.disk.releases))
    ensures job.target in v.disk.releases && Contains(v.disk.releases[job.target].files, w.env.unpack(job.data))
    ensures v.disk.releases - {job.target, Scratch(job.target)} == w.disk.releases - {job.target, Scratch(job.target)}
  {
    hide Leads;
    var q := QuietNow(w);
    var a, x := FillScratch(w, job);
    var b, y := ClearTarget(a, job);
    var c, z := PlaceTarget(b, job);
    Weaken(a, y, b, q);
    Weaken(b, z, c, q);
    Chain(w, x, a, y, b, q);
    Chain(w, x + y, b, z, c, q);
    v, evs := c, x + y + z;
    var both := {job.target, Scratch(job.target)};
    assert a.disk.releases - both == w.disk.releases - both by {
      assert a.disk.releases - both == (a.disk.releases - {Scratch(job.target)}) - {job.target};
      assert w.disk.releases - both == (w.disk.releases - {Scratch(job.target)}) - {job.target};
    }
    assert b.disk.releases - both == a.disk.releases - both;
  }

  lemma AnnounceAndDie(w: World, job: Job) returns (v: World, evs: seq<Event>)
    requires w.child.Some? && w.child.value.stage == Placed(job)
    ensures Leads(w, evs, v, true)
    ensures v == w.(child := None, disk := w.disk.(pending := Some(Request(job.target, 0, job.sha, job.data))))
  {
    hide Leads;
    v, evs := OneStep(w, Announce(0), true);
    v, evs := Then(w, evs, v, Die, true);
  }

  lemma StageAndExit(w: World, job: Job) returns (v: World, evs: seq<Event>)
    requires Stageable(w, job) && w.pc.Watching?
    ensures Leads(w, evs, v, QuietNow(w))
    ensures v == w.(child := None, disk := v.disk)
    ensures v.disk == w.disk.(pending := Some(Request(job.target, 0, job.sha, job.data)), releases := v.disk.releases)
    ensures Runnable(v.disk.releases, Some(job.target))
  {
    hide Leads;
    var a, x := Stage(w, job);
    var b, y := AnnounceAndDie(a, job);
    Weaken(a, y, b, QuietNow(w));
    Chain(w, x, a, y, b, QuietNow(w));
    v, evs := b, x + y;
  }

  /** From installation to the probation of a first update. */
  lemma FirstProbation(w: World, job: Job) returns (v: World, evs: seq<Event>)
    requires Installed(w) && job.target.Rel? && Some(job.target) != w.disk.state.active
    requires w.env.hash(job.data) == job.sha && AGENT in w.env.unpack(job.data)
    ensures Leads(w, evs, v, true) && v.env == w.env && v.hist.commits == 0
    ensures v.pc.Watching? && v.st == v.disk.state && v.active == Some(job.target) && v.disk.pending.None?
    ensures v.child == Some(Child(job.target, v.hist.switches, 0, [], Resting)) && v.disk.beacon == None
    ensures v.st.active == Some(job.target) && v.st.previous == None
    ensures v.st.probation.Some? && v.st.probation.value.target == job.target && v.st.probation.value.previous == w.disk.state.active
    ensures v.fast == 0 && v.started == v.now
  {
    hide Leads;
    var a, p := BootToWatching(w);
    var b, q := StageAndExit(a, job);
    var c, r := TakeSwitch(b, job.target);
    var d, s := SwitchedToWatching(c);
    Chain(w, p, a, q, b, true);
    Chain(w, p + q, b, r, c, true);
    Chain(w, p + q + r, c, s, d, true);
    v, evs := d, p + q + r + s;
  }

  // -------------------------------------------------------- what can be reached

  /** The blind commit can really happen: an installation over an old health
      file naming the target, an update to it by an agent that is killed before
      it has written a health file of its own, and one crash of the supervisor
      between the switch's two file operations. */
  lemma BlindCommitReachable(w: World, job: Job) returns (v: World, evs: seq<Event>)
    requires Installed(w) && job.target.Rel? && Some(job.target) != w.disk.state.active
    requires Healthy(w.disk.beacon, Some(job.target)) && w.env.hash(job.data) == job.sha && AGENT in w.env.unpack(job.data)
    ensures Leads(w, evs, v, true) && v.pc.CommitSave?
    ensures v.disk.state.active == Some(job.target) && v.child.Some? && v.child.value.turns == []
  {
    hide Leads;
    var a, p := BootToWatching(w);
    var b, q := StageAndExit(a, job);
    var c, r := TakeSwitch(b, job.target);
    var d, s := CrashThenBlindCommit(c, job.target);
    Chain(w, p, a, q, b, true);
    Chain(w, p + q, b, r, c, true);
    Chain(w, p + q + r, c, s, d, true);
    v, evs := d, p + q + r + s;
  }

  lemma CrashThenBlindCommit(w: World, t: Name) returns (v: World, evs: seq<Event>)
    requires w.pc.SwitchClear? && w.disk.state.active == Some(t) && Healthy(w.disk.beacon, Some(t)) && w.disk.pending.None?
    requires Runnable(w.disk.releases, Some(t))
    requires w.disk.state.probation.Some? && w.disk.state.probation.value.target == t
    ensures Leads(w, evs, v, true) && v.pc.CommitSave?
    ensures v.disk.state.active == Some(t) && v.child.Some? && v.child.value.turns == []
  {
    hide Leads;
    var a, x := OneStep(w, Crash, true);
    var b, y := BootToWatching(a);
    Chain(w, x, a, y, b, true);
    v, evs := Then(w, x + y, b, GO, true);
  }

  /** A second update during the first one's probation can be switched to, and
      then the unproven first build is what a rollback returns to; the release
      the probe was installed with is named nowhere any more. */
  lemma NestedSwitchReachable(w: World, first: Job, second: Job) returns (v: World, evs: seq<Event>)
    requires Installed(w) && first.target.Rel? && Some(first.target) != w.disk.state.active
    requires w.env.hash(first.data) == first.sha && AGENT in w.env.unpack(first.data)
    requires second.target.Rel? && second.target != first.target
    requires w.env.hash(second.data) == second.sha && AGENT in w.env.unpack(second.data)
    ensures Leads(w, evs, v, false) && v.hist.commits == 0
    ensures v.disk.state.active == Some(second.target) && v.disk.state.previous == None
    ensures v.disk.state.probation.Some? && v.disk.state.probation.value.previous == Some(first.target)
  {
    hide Leads;
    var a, p := FirstProbation(w, first);
    var b, q := StageAndExit(a, second);
    var c, r := TakeSwitch(b, second.target);
    Weaken(w, p, a, false);
    NotQuiet(a, q, b, QuietNow(a));
    Weaken(b, r, c, false);
    Chain(w, p, a, q, b, false);
    Chain(w, p + q, b, r, c, false);
    v, evs := c, p + q + r;
  }

  lemma NotQuiet(w: World, evs: seq<Event>, v: World, quiet: bool)
    requires Leads(w, evs, v, quiet)
    ensures Leads(w, evs, v, false)
  {
  }

  /** Staging the old release again during a probation removes the very release
      a rollback would return to. */
  lemma RestagingRemovesRollbackTarget(w: World, first: Job, second: Job) returns (v: World, evs: seq<Event>)
    requires Installed(w) && first.target.Rel? && Some(first.target) != w.disk.state.active
    requires w.env.hash(first.data) == first.sha && AGENT in w.env.unpack(first.data)
    requires Some(second.target) == w.disk.state.active
    requires w.env.hash(second.data) == second.sha && AGENT in w.env.unpack(second.data)
    ensures Leads(w, evs, v, false)
    ensures v.disk.state.probation.Some? && v.disk.state.probation.value.previous == w.disk.state.active
    ensures !Runnable(v.disk.releases, v.disk.state.probation.value.previous)
  {
    hide Leads;
    var a, p := FirstProbation(w, first);
    var b, q := FillScratch(a, second);
    var c, r := ClearTarget(b, second);
    Weaken(w, p, a, false);
    NotQuiet(a, q, b, QuietNow(a));
    Weaken(b, r, c, false);
    Chain(w, p, a, q, b, false);
    Chain(w, p + q, b, r, c, false);
    v, evs := c, p + q + r;
  }

  /** Two good turns, a health file, and the commit is saved: old releases are
      about to be deleted while the agent runs on. */
  lemma CommitFirst(w: World, t: Name) returns (v: World, evs: seq<Event>)
    requires w.pc.Watching? && w.st == w.disk.state && w.active == Some(t) && w.child.Some?
    requires w.child.value == Child(t, w.hist.switches, 0, [], Resting)
    requires w.st.probation.Some? && w.st.probation.value.target == t && w.st.active == Some(t)
    ensures Leads(w, evs, v, true) && v.env == w.env && v.disk.releases == w.disk.releases && v.disk.pending == w.disk.pending
    ensures v.pc.Pruning? && v.st == Committed(w.st) && v.active == Some(t)
    ensures v.child.Some? && v.child.value.build == t && v.child.value.stage.Resting?
    ensures v.fast == w.fast && v.started == w.started && v.now == w.now && v.disk.state == v.st
  {
    hide Leads;
    v, evs := OneStep(w, Iterate([Good]), true);
    v, evs := Then(w, evs, v, Iterate([Good]), true);
    v, evs := Then(w, evs, v, WriteBeacon, true);
    v, evs := Then(w, evs, v, GO, true);
    v, evs := Then(w, evs, v, GO, true);
  }

  /** A half-way deletion reaches a freshly staged release; the request is
      written, and the switch takes what is left, because agent.py is there. */
  lemma DeletionSpoils(w: World, job: Job, path: Path) returns (v: World, evs: seq<Event>)
    requires w.pc.Pruning? && w.child.Some? && w.child.value.stage == Placed(job) && w.disk.pending.None?
    requires job.target !in Names(w.st.active) + Names(w.st.previous) && job.target in w.disk.releases
    requires AGENT in w.disk.releases[job.target].files && path != AGENT && path != NOTE && path in w.env.unpack(job.data)
    ensures Leads(w, evs, v, true) && v.pc.SwitchSave? && v.pc.req.target == job.target && !Verified(v, v.pc.req)
  {
    hide Leads;
    var a, p := HalveThenDie(w, job);
    var b, q := SwitchTaken(a);
    Chain(w, p, a, q, b, true);
    v, evs := b, p + q;
    var package := v.env.unpack(v.pc.req.data);
    assert path in package - {NOTE} && path !in v.disk.releases[job.target].files - {NOTE};
  }

  lemma HalveThenDie(w: World, job: Job) returns (v: World, evs: seq<Event>)
    requires w.pc.Pruning? && w.child.Some? && w.child.value.stage == Placed(job) && w.disk.pending.None?
    requires job.target !in Names(w.st.active) + Names(w.st.previous) && job.target in w.disk.releases
    requires AGENT in w.disk.releases[job.target].files
    ensures Leads(w, evs, v, true) && v.pc.Pruning? && v.child.None? && v.env == w.env
    ensures v.disk.pending == Some(Request(job.target, 0, job.sha, job.data)) && Runnable(v.disk.releases, Some(job.target))
    ensures v.disk.releases[job.target].files.Keys == {AGENT}
  {
    hide Leads;
    var rest := Release(map[AGENT := w.disk.releases[job.target].files[AGENT]], 0.0);
    v, evs := OneStep(w, Next(true, None, Some(job.target), Some(rest)), true);
    assert v.disk.releases[job.target] == rest;
    v, evs := Then(w, evs, v, Announce(0), true);
    v, evs := Then(w, evs, v, Die, true);
  }

  lemma SwitchTaken(w: World) returns (v: World, evs: seq<Event>)
    requires w.pc.Pruning? && w.child.None? && w.disk.pending.Some?
    requires Runnable(w.disk.releases, Some(w.disk.pending.value.target))
    ensures Leads(w, evs, v, true) && v.env == w.env && v.disk.releases == w.disk.releases
    ensures v.pc.SwitchSave? && v.pc.req == w.disk.pending.value
  {
    hide Leads;
    v, evs := OneStep(w, GO, true);
    v, evs := Then(w, evs, v, GO, true);
    v, evs := Then(w, evs, v, GO, true);
  }

  /** An update staged while the supervisor still deletes old releases after a
      commit: the incomplete release that is then switched to. */
  lemma SpoiledReleaseReachable(w: World, first: Job, second: Job, path: Path) returns (v: World, evs: seq<Event>)
    requires Installed(w) && first.target.Rel? && Some(first.target) != w.disk.state.active
    requires w.env.hash(first.data) == first.sha && AGENT in w.env.unpack(first.data)
    requires second.target.Rel? && second.target != first.target && Some(second.target) != w.disk.state.active
    requires w.env.hash(second.data) == second.sha && AGENT in w.env.unpack(second.data)
    requires path in w.env.unpack(second.data) && path != AGENT && path != NOTE
    ensures Leads(w, evs, v, false) && v.pc.SwitchSave? && v.pc.req.target == second.target && !Verified(v, v.pc.req)
  {
    hide Leads;
    var a, p := FirstProbation(w, first);
    var b, q := CommitFirst(a, first.target);
    var c, r := Stage(b, second);
    var d, s := DeletionSpoils(c, second, path);
    Weaken(w, p, a, false);
    Weaken(a, q, b, false);
    NotQuiet(b, r, c, QuietNow(b));
    Weaken(c, s, d, false);
    Chain(w, p, a, q, b, false);
    Chain(w, p + q, b, r, c, false);
    Chain(w, p + q + r, c, s, d, false);
    v, evs := d, p + q + r + s;
  }

  /** An update announced, given up, and staged again from another package
      before the first one is switched to: the switch takes the first request
      and finds the second package. */
  lemma ReplacedReleaseReachable(w: World, first: Job, second: Job, path: Path) returns (v: World, evs: seq<Event>)
    requires Installed(w) && first.target.Rel? && Some(first.target) != w.disk.state.active && second.target == first.target
    requires w.env.hash(first.data) == first.sha && AGENT in w.env.unpack(first.data)
    requires w.env.hash(second.data) == second.sha && AGENT in w.env.unpack(second.data)
    requires path in w.env.unpack(first.data) && path in w.env.unpack(second.data) && path != NOTE
    requires w.env.unpack(first.data)[path] != w.env.unpack(second.data)[path]
    ensures Leads(w, evs, v, false) && v.pc.SwitchSave? && v.pc.req.sha == first.sha && !Verified(v, v.pc.req)
  {
    hide Leads;
    var a, p := BootToWatching(w);
    var b, q := Stage(a, first);
    var c, r := AnnounceAndAbort(b, first);
    var d, s := Stage(c, second);
    var e, t := DieAndTake(d);
    Weaken(w, p, a, false);
    NotQuiet(a, q, b, QuietNow(a));
    Weaken(b, r, c, false);
    NotQuiet(c, s, d, QuietNow(c));
    Weaken(d, t, e, false);
    Chain(w, p, a, q, b, false);
    Chain(w, p + q, b, r, c, false);
    Chain(w, p + q + r, c, s, d, false);
    Chain(w, p + q + r + s, d, t, e, false);
    v, evs := e, p + q + r + s + t;
    var package := v.env.unpack(v.pc.req.data);
    assert path in package - {NOTE};
    assert path in v.disk.releases[first.target].files - {NOTE};
    assert (v.disk.releases[first.target].files - {NOTE})[path] != (package - {NOTE})[path];
  }

  lemma AnnounceAndAbort(w: World, job: Job) returns (v: World, evs: seq<Event>)
    requires w.child.Some? && w.child.value.stage == Placed(job)
    ensures Leads(w, evs, v, true)
    ensures v == w.(child := Some(w.child.value.(stage := Resting)), disk := w.disk.(pending := Some(Request(job.target, 0, job.sha, job.data))))
  {
    hide Leads;
    v, evs := OneStep(w, Announce(0), true);
    v, evs := Then(w, evs, v, Abort, true);
  }

  lemma DieAndTake(w: World) returns (v: World, evs: seq<Event>)
    requires w.pc.Watching? && w.child.Some? && w.disk.pending.Some?
    requires Runnable(w.disk.releases, Some(w.disk.pending.value.target))
    ensures Leads(w, evs, v, true) && v.env == w.env && v.disk.releases == w.disk.releases
    ensures v.pc.SwitchSave? && v.pc.req == w.disk.pending.value
  {
    hide Leads;
    v, evs := OneStep(w, Die, true);
    v, evs := Then(w, evs, v, GO, true);
    v, evs := Then(w, evs, v, GO, true);
  }
}
