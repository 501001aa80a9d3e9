/** A committed release that keeps crashing.  `Tally` is what an observer counts
    who sees the agent being spawned and its exits being judged, but none of the
    supervisor's variables. */
module SupervisorCrashLoop {
  import opened Options
  import opened Turns
  import opened SupervisorState
  import opened SupervisorRuns
  import opened SupervisorLimits

  /** When the agent was last spawned, and how many times in a row it has exited
      less than 60 s after that: a row ends with a slower exit, with a switch or
      a rollback, and with the supervisor itself. */
  datatype Tally = Tally(spawned: real, row: nat)

  function Counted(t: Tally, w: World, ev: Event, v: World): Tally {
    if ev.Crash? then t.(row := 0)
    else if !ev.Next? then t
    else if w.child.None? && v.child.Some? then t.(spawned := w.now)
    else if w.pc == ExitJudge && w.disk.state.probation.None? then t.(row := if w.now - t.spawned < 60.0 then t.row + 1 else 0)
    else if w.pc == SwitchClear(false) || w.pc == RollClear || w.pc == LoopClear || w.pc == Boot then t.(row := 0)
    else t
  }

  function TallyOf(t: Tally, w: World, evs: seq<Event>): Tally
    requires Possible(w, evs)
    decreases |evs|
  {
    if evs == [] then t else TallyOf(Counted(t, w, evs[0], Step(w, evs[0])), Step(w, evs[0]), evs[1..])
  }

  /** The supervisor's variables say what the observer counts. */
  ghost predicate Tallied(w: World, t: Tally) {
    && (w.pc.Boot? || w.fast == t.row)
    && (w.pc.Watching? || w.pc.CommitSave? || w.pc.Pruning? || w.pc.Exited? || w.pc.ExitJudge? ==> w.started == t.spawned)
    && (w.pc.LoopSave? ==> t.row >= 3)
  }

  lemma TalliedKept(w: World, t: Tally, ev: Event)
    requires Shape(w) && Tallied(w, t) && Enabled(w, ev)
    ensures Tallied(Step(w, ev), Counted(t, w, ev, Step(w, ev)))
  {
    hide IsTurn, CalledGood, Remains, IsFallback, Window, Streak, AllTurns;
    if ev.Next? { TalliedKeptBySupervisor(w, t, ev); }
  }

  lemma TalliedKeptBySupervisor(w: World, t: Tally, ev: Event)
    requires ev.Next? && Shape(w) && Tallied(w, t) && Enabled(w, ev)
    ensures Tallied(Step(w, ev), Counted(t, w, ev, Step(w, ev)))
  {
    hide IsTurn, CalledGood, Remains, IsFallback, Window, Streak, AllTurns;
  }

  lemma {:induction false} RunTallied(w: World, t: Tally, evs: seq<Event>)
    requires Basic(w) && Tallied(w, t) && Possible(w, evs)
    ensures Basic(Run(w, evs)) && Tallied(Run(w, evs), TallyOf(t, w, evs))
    decreases |evs|
  {
    if evs != [] {
      hide Step, Enabled, Tallied, Counted, Attested, Timely, Shape;
      StepBasic(w, evs[0]);
      TalliedKept(w, t, evs[0]);
      RunTallied(Step(w, evs[0]), Counted(t, w, evs[0], Step(w, evs[0])), evs[1..]);
    }
  }

  const START: Tally := Tally(0.0, 0)

  /** What the supervisor does with an exit outside a probation, exactly: the
      third in a row less than 60 s after its spawn, if the previous release can
      run and is another one, is answered by making that one active; every other
      exit leaves the persisted state as it is. */
  lemma ThirdFastExitRollsBack(w: World, evs: seq<Event>, judge: Event, save: Event)
    requires Installed(w) && Possible(w, evs) && judge.Next? && save.Next?
    requires Run(w, evs).pc.ExitJudge? && Run(w, evs).disk.state.probation.None?
    requires Enabled(Run(w, evs), judge) && Enabled(Step(Run(w, evs), judge), save)
    ensures var v, t := Run(w, evs), TallyOf(START, w, evs);
            var st, u := v.disk.state, Step(v, judge);
            var third := t.row >= 2 && v.now - t.spawned < 60.0
                         && Runnable(v.disk.releases, st.previous) && st.previous != st.active;
            && u.disk == v.disk
            && (third ==> Step(u, save).disk.state == st.(active := st.previous) && Step(u, save).hist.loops == v.hist.loops + 1)
            && (!third ==> u.pc.Top? && u.st == st && u.hist == v.hist && Step(u, save).disk.state == st)
  {
    InstalledInv(w);
    RunTallied(w, START, evs);
    var v := Run(w, evs);
    hide Attested, Timely, IsFallback, Remains, Window, Streak, AllTurns, IsTurn, CalledGood;
  }

  /** In every run a crash-loop rollback is about to be saved only after three
      such exits in a row. */
  lemma LoopRollbackIsThird(w: World, evs: seq<Event>)
    requires Installed(w) && Possible(w, evs) && Run(w, evs).pc.LoopSave?
    ensures TallyOf(START, w, evs).row >= 3
  {
    InstalledInv(w);
    RunTallied(w, START, evs);
  }

  // ------------------------------------------------------------- it happens

  /** The agent dies at once, and the supervisor spawns it again. */
  lemma DieAndRespawn(w: World, t: Name) returns (v: World, evs: seq<Event>)
    requires Crashing(w, t) && w.fast + 1 < 3
    ensures Leads(w, evs, v, true) && Crashing(v, t) && v.fast == w.fast + 1 && v.disk == w.disk && v.now == w.now
  {
    hide Leads;
    v, evs := OneStep(w, Die, true);
    v, evs := Then(w, evs, v, GO, true);
    v, evs := Then(w, evs, v, GO, true);
    v, evs := Then(w, evs, v, GO, true);
    v, evs := Then(w, evs, v, GO, true);
    v, evs := Then(w, evs, v, GO, true);
    v, evs := Then(w, evs, v, GO, true);
  }

  /** The committed release `t` has just been spawned, and another one could be
      returned to. */
  ghost predicate Crashing(w: World, t: Name) {
    && w.pc.Watching? && w.child.Some? && w.st == w.disk.state && w.active == Some(t) && w.st.active == Some(t)
    && w.st.probation.None? && w.disk.pending.None? && w.now - w.started < 60.0
    && Runnable(w.disk.releases, w.st.active) && Runnable(w.disk.releases, w.st.previous) && w.st.previous != w.st.active
  }

  lemma DieAndRollBack(w: World, t: Name) returns (v: World, evs: seq<Event>)
    requires Crashing(w, t) && w.fast + 1 == 3
    ensures Leads(w, evs, v, true) && v.disk.state == w.disk.state.(active := w.disk.state.previous)
  {
    hide Leads;
    v, evs := OneStep(w, Die, true);
    v, evs := Then(w, evs, v, GO, true);
    v, evs := Then(w, evs, v, GO, true);
    v, evs := Then(w, evs, v, GO, true);
    v, evs := Then(w, evs, v, GO, true);
  }

  /** After the commit the supervisor is watching again. */
  lemma BackToWatching(w: World) returns (v: World, evs: seq<Event>)
    requires w.pc.Pruning?
    ensures Leads(w, evs, v, true) && v == w.(pc := Watching)
  {
    v, evs := OneStep(w, GO, true);
  }

  /** From installation: an update, its commit, three crashes, and the installed
      release is active again. */
  lemma CrashLoopRollbackReachable(w: World, job: Job) returns (v: World, evs: seq<Event>)
    requires Installed(w) && job.target.Rel? && Some(job.target) != w.disk.state.active
    requires w.env.hash(job.data) == job.sha && AGENT in w.env.unpack(job.data)
    ensures Leads(w, evs, v, true) && v.disk.state.active == w.disk.state.active && v.disk.state.previous == w.disk.state.active
  {
    hide Leads;
    var a, p := FirstProbation(w, job);
    var b, q := CommitFirst(a, job.target);
    var c, r := BackToWatching(b);
    Chain(w, p, a, q, b, true);
    Chain(w, p + q, b, r, c, true);
    BothCanRun(w, p, a);
    var d, x := DieAndRespawn(c, job.target);
    var e, y := DieAndRespawn(d, job.target);
    var f, z := DieAndRollBack(e, job.target);
    Chain(w, p + q + r, c, x, d, true);
    Chain(w, p + q + r + x, d, y, e, true);
    Chain(w, p + q + r + x + y, e, z, f, true);
    v, evs := f, p + q + r + x + y + z;
  }

  lemma BothCanRun(w: World, evs: seq<Event>, v: World)
    requires Installed(w) && Leads(w, evs, v, true) && v.disk.state.probation.Some?
    ensures Runnable(v.disk.releases, v.disk.state.active) && Runnable(v.disk.releases, v.disk.state.probation.value.previous)
  {
    InstalledInv(w);
    RunQuiet(w, evs);
    RunSound(w, evs);
  }
}
