/** The supervisor's persistent files and the functions that rewrite them.
    Every function on `Disk` stands for one atomic replacement or removal. */
module SupervisorState {
  import opened Options
  import opened Turns

  /** A directory under `releases/`: a release, or the scratch directory an
      extraction fills before it is renamed. */
  datatype Name = Rel(id: string) | Tmp(id: string)

  type Path = string
  type Content = string
  type Digest = string

  /** The bytes of a downloaded package. */
  type Bytes = string

  const AGENT: Path := "agent.py"

  /** What a directory holds. */
  datatype Release = Release(files: map<Path, Content>, mtime: real) {
    predicate CanRun() { AGENT in files }
  }

  datatype Probation = Probation(target: Name, previous: Option<Name>, deadline: real)

  datatype St = St(active: Option<Name>, previous: Option<Name>, probation: Option<Probation>)

  /** The health file.  `epoch` and `turns` are history: how many switches had
      been made when the writing process was spawned, and how the check-ins of
      each turn of its main loop ended. */
  datatype Beacon = Beacon(build: Name, good: nat, epoch: nat, turns: seq<seq<End>>)

  /** `window` is 0 when the agent named none; `data` is history: the package
      the agent staged. */
  datatype Request = Request(target: Name, window: int, sha: Digest, data: Bytes)

  datatype Disk = Disk(state: St, beacon: Option<Beacon>, pending: Option<Request>, releases: map<Name, Release>)

  const PROBATION_DEFAULT: int := 120
  const PROBATION_MIN: int := 30
  const PROBATION_MAX: int := 900
  const GOOD_CHECKINS: nat := 2
  const CRASH_FAST_SECS: real := 60.0
  const CRASH_MAX: nat := 3

  function Window(requested: int): int {
    var w := if requested == 0 then PROBATION_DEFAULT else requested;
    if w > PROBATION_MAX then PROBATION_MAX else if w < PROBATION_MIN then PROBATION_MIN else w
  }

  predicate Runnable(releases: map<Name, Release>, n: Option<Name>) {
    n.Some? && n.value in releases && releases[n.value].CanRun()
  }

  /** The newest runnable directory, or nothing when there is none. */
  ghost predicate IsFallback(fb: Option<Name>, releases: map<Name, Release>) {
    match fb
    case None => forall n :: n in releases ==> !releases[n].CanRun()
    case Some(f) =>
      && Runnable(releases, fb)
      && forall n :: n in releases && releases[n].CanRun() ==> releases[n].mtime <= releases[f].mtime
  }

  function Recovered(st: St, fb: Name): St {
    st.(active := Some(fb), probation := None)
  }

  function Switched(st: St, target: Name, deadline: real): St {
    St(Some(target), st.previous, Some(Probation(target, st.active, deadline)))
  }

  function ProbationPrevious(st: St): Option<Name> {
    if st.probation.Some? then st.probation.value.previous else None
  }

  function Committed(st: St): St {
    St(st.active, ProbationPrevious(st), None)
  }

  function RolledBack(st: St, releases: map<Name, Release>, fb: Option<Name>): St {
    var prev := ProbationPrevious(st);
    st.(active := if Runnable(releases, prev) || fb.None? then prev else fb, probation := None)
  }

  function CrashLooped(st: St): St {
    st.(active := st.previous)
  }

  /** The release to return to if the active one fails. */
  function LastGood(st: St): Option<Name> {
    if st.probation.Some? then st.probation.value.previous else st.active
  }

  /** The directories after a deletion that failed, for some, half-way. */
  function Pruned(releases: map<Name, Release>, keep: set<Name>, stuck: map<Name, Release>): map<Name, Release> {
    map n | n in releases && (n in keep || n in stuck) :: if n in keep then releases[n] else stuck[n]
  }

  predicate Healthy(beacon: Option<Beacon>, active: Option<Name>) {
    beacon.Some? && active == Some(beacon.value.build) && beacon.value.good >= GOOD_CHECKINS
  }

  function Names(a: Option<Name>): set<Name> {
    if a.Some? then {a.value} else {}
  }

  /** A rollback right after a switch returns to the release that was good
      before it exactly when no probation was open at the switch (or the open
      one had nowhere else to return to). */
  lemma RollbackReturnsToLastGood(st: St, target: Name, deadline: real, releases: map<Name, Release>, fb: Option<Name>)
    requires Runnable(releases, st.active)
    ensures RolledBack(Switched(st, target, deadline), releases, fb).active == LastGood(st)
       <==> st.probation.None? || st.probation.value.previous == st.active
  {
  }

  /** The supervisor's helper functions, acting on its files in place. */
  class Supervisor {
    var st: St
    var stateFile: St
    var beacon: Option<Beacon>
    var pending: Option<Request>
    var releases: map<Name, Release>

    ghost function Files(): Disk reads this {
      Disk(stateFile, beacon, pending, releases)
    }

    method DiscoverFallbackRelease() returns (fb: Option<Name>)
      ensures IsFallback(fb, releases)
    {
      fb := None;
      var left := releases.Keys;
      while left != {}
        invariant left <= releases.Keys
        invariant fb.None? ==> forall n :: n in releases && n !in left ==> !releases[n].CanRun()
        invariant fb.Some? ==> Runnable(releases, fb)
        invariant fb.Some? ==>
          forall n :: n in releases && n !in left && releases[n].CanRun() ==> releases[n].mtime <= releases[fb.value].mtime
        decreases left
      {
        var n :| n in left;
        left := left - {n};
        if releases[n].CanRun() && (fb.None? || releases[n].mtime >= releases[fb.value].mtime) {
          fb := Some(n);
        }
      }
    }

    /** Deletes every directory that is not kept, one at a time; `stuck` is what
        the deletions that fail leave behind. */
    method PruneReleases(keep: set<Name>, stuck: map<Name, Release>)
      modifies this`releases
      ensures releases == Pruned(old(releases), keep, stuck)
    {
      var left := releases.Keys - keep;
      while left != {}
        invariant left <= old(releases).Keys - keep
        invariant releases == map n | n in old(releases) && (n in keep || n in left || n in stuck) ::
                                if n in keep || n in left then old(releases)[n] else stuck[n]
        decreases left
      {
        var n :| n in left;
        releases := if n in stuck then releases[n := stuck[n]] else map x | x in releases && x != n :: releases[x];
        left := left - {n};
      }
    }

    /** `trail` is what is on disk after each of its two file operations: a crash
        leaves one of these, or what was there before. */
    method BeginSwitch(ps: Request, now: real) returns (ghost trail: seq<Disk>)
      modifies this`st, this`stateFile, this`beacon
      ensures st == Switched(old(st), ps.target, now + Window(ps.window) as real)
      ensures trail == [old(Files()).(state := st), old(Files()).(state := st, beacon := None)]
      ensures Files() == trail[1]
    {
      var window := if ps.window == 0 then PROBATION_DEFAULT else ps.window;
      window := if window < PROBATION_MAX then window else PROBATION_MAX;
      window := if window > PROBATION_MIN then window else PROBATION_MIN;
      st := st.(probation := Some(Probation(ps.target, st.active, now + window as real)));
      st := st.(active := Some(ps.target));
      stateFile := st;
      trail := [Files()];
      beacon := None;
      trail := trail + [Files()];
    }

    method Commit(stuck: map<Name, Release>)
      modifies this`st, this`stateFile, this`releases
      ensures st == Committed(old(st))
      ensures Files() == old(Files()).(state := st, releases := Pruned(old(releases), Names(st.active) + Names(st.previous), stuck))
    {
      st := st.(previous := ProbationPrevious(st));
      st := st.(probation := None);
      stateFile := st;
      PruneReleases(Names(st.active) + Names(st.previous), stuck);
    }

    method Rollback() returns (ghost fb: Option<Name>)
      modifies this`st, this`stateFile, this`beacon
      ensures Runnable(releases, ProbationPrevious(old(st))) || IsFallback(fb, releases)
      ensures st == RolledBack(old(st), releases, fb)
      ensures Files() == old(Files()).(state := st, beacon := None)
    {
      var prev := ProbationPrevious(st);
      fb := None;
      if Runnable(releases, prev) {
        st := st.(active := prev);
      } else {
        var found := DiscoverFallbackRelease();
        fb := found;
        st := st.(active := if found.Some? then found else prev);
      }
      st := st.(probation := None);
      stateFile := st;
      beacon := None;
    }

    /** The monitoring loop, fed one observation per turn.  A probation is
        committed at the first healthy observation and rolled back at the first
        late one, whichever comes first; `used` observations are consumed. */
    method Monitor(active: Name, polls: seq<Poll>, stuck: map<Name, Release>)
      returns (exited: bool, rolled: bool, committed: bool, used: nat)
      requires st.probation.Some? && st.probation.value.target == active
      modifies this
      ensures used <= |polls| && !(exited && rolled) && !(committed && rolled)
      ensures exited <==> used > 0 && polls[used - 1].exited
      ensures forall i :: 0 <= i < used - 1 ==> !polls[i].exited
      ensures committed <==> exists i :: 0 <= i < used && !polls[i].exited && Healthy(polls[i].beacon, Some(active))
                               && forall j :: 0 <= j < i ==> polls[j].now <= old(st).probation.value.deadline
      ensures rolled <==> used > 0 && !polls[used - 1].exited && polls[used - 1].now > old(st).probation.value.deadline
                            && forall i :: 0 <= i < used ==> !Healthy(polls[i].beacon, Some(active))
      ensures !exited && !rolled ==> used == |polls|
      ensures committed ==> st == Committed(old(st))
      ensures rolled ==> exists fb :: st == RolledBack(old(st), releases, fb) &&
                           (Runnable(releases, ProbationPrevious(old(st))) || IsFallback(fb, releases))
      ensures !committed && !rolled ==> st == old(st)
      ensures !committed && !rolled ==>
        forall i :: 0 <= i < used && !polls[i].exited ==> polls[i].now <= old(st).probation.value.deadline
    {
      exited, rolled, committed, used := false, false, false, 0;
      while used < |polls|
        invariant used <= |polls| && !exited && !rolled
        invariant forall i :: 0 <= i < used ==> !polls[i].exited
        invariant committed <==> exists i :: 0 <= i < used && Healthy(polls[i].beacon, Some(active))
                                   && forall j :: 0 <= j < i ==> polls[j].now <= old(st).probation.value.deadline
        invariant committed ==> st == Committed(old(st))
        invariant !committed ==> st == old(st)
        invariant !committed ==>
          forall i :: 0 <= i < used ==> polls[i].now <= old(st).probation.value.deadline && !Healthy(polls[i].beacon, Some(active))
      {
        var p := polls[used];
        used := used + 1;
        if p.exited {
          exited := true;
          return;
        }
        if st.probation.Some? && st.probation.value.target == active {
          if Healthy(p.beacon, Some(active)) {
            assert Healthy(polls[used - 1].beacon, Some(active));
            Commit(stuck);
            committed := true;
          } else if p.now > st.probation.value.deadline {
            ghost var fb := Rollback();
            rolled := true;
            return;
          }
        }
      }
    }
  }

  /** What one turn of the monitoring loop sees. */
  datatype Poll = Poll(exited: bool, beacon: Option<Beacon>, now: real)
}
