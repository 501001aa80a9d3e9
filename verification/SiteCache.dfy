/** Which probe measures a sensor.  The site tier of the cascade is served from
    a cache loaded under a lock; `World` lets readers, loaders, invalidations
    and database writes interleave.  The site table is kept with its whole
    history so that "at least as new as" can be said. */
module SiteCache {
  import opened Options

  type Probe = string
  type SiteMap = map<string, Probe>

  /** Every content the site table has had, oldest first. */
  type History = h: seq<SiteMap> | h != [] witness [map[]]

  const CENTRAL: Probe := "central"

  /** The probe fields of a device or sensor; "" means "inherit". */
  datatype Device = Device(probe: Probe, site: string)

  // ------------------------------------------------------------ the cascade

  function Unpin(p: Probe): Probe { if p == CENTRAL then "" else p }

  function SiteProbe(m: SiteMap, site: string): Probe {
    if site == "" || site !in m then "" else Unpin(m[site])
  }

  /** The documented cascade: first non-empty of sensor, device, site. */
  function Cascade(m: SiteMap, dev: Option<Device>, sensor: Option<Probe>): Probe {
    if sensor.Some? && sensor.value != "" then Unpin(sensor.value)
    else if dev.None? then ""
    else if dev.value.probe != "" then Unpin(dev.value.probe)
    else SiteProbe(m, dev.value.site)
  }

  /** The pin itself is never returned. */
  lemma NeverThePin(m: SiteMap, c: Call)
    ensures Cascade(m, c.dev, c.sensor) != CENTRAL
  {
  }

  /** The tiers in their order: the sensor's probe, else the device's, else the
      one its site is bound to, "central" standing for none at each. */
  lemma TiersInOrder(m: SiteMap, dev: Option<Device>, sensor: Option<Probe>)
    ensures var s := if sensor.Some? then sensor.value else "";
            var d := if dev.Some? then dev.value.probe else "";
            var b := if dev.Some? && dev.value.site != "" && dev.value.site in m then m[dev.value.site] else "";
            && (s != "" ==> Cascade(m, dev, sensor) == if s == "central" then "" else s)
            && (s == "" && d != "" ==> Cascade(m, dev, sensor) == if d == "central" then "" else d)
            && (s == "" && d == "" ==> Cascade(m, dev, sensor) == if b == "central" then "" else b)
  {
  }

  // ------------------------------------------------------------ the machine

  /** The arguments of `effective_probe`. */
  datatype Call = Call(dev: Option<Device>, sensor: Option<Probe>)

  /** A thread inside `effective_probe` (or `invalidate`): about to read the
      global without the lock, waiting for the lock, holding it, about to store
      a loaded version, leaving with one, or back with a result. */
  datatype Phase =
    | Glancing | Waiting | Holding | Loaded(version: nat) | Leaving(version: nat) | Returned(probe: Probe)
    | Dropping | Dropped

  datatype Thread = Thread(since: nat, call: Call, phase: Phase)

  /** `cached` is the version in `_site_map`; `floor` the newest version known
      written when some invalidation last emptied the cache. */
  datatype World = World(table: History, cached: Option<nat>, lock: Option<nat>, threads: map<nat, Thread>, floor: nat)

  datatype Event =
    | Write(m: SiteMap)
    | Enter(id: nat, call: Call)
    | Glance(id: nat)
    | Lock(id: nat)
    | Recheck(id: nat)
    | Install(id: nat)
    | Unlock(id: nat)
    | EnterInvalidate(id: nat)
    | Drop(id: nat)

  /** The result, where sensor or device alone decide it. */
  function Decided(c: Call): Option<Probe> {
    if c.sensor.Some? && c.sensor.value != "" then Some(Unpin(c.sensor.value))
    else if c.dev.None? then Some("")
    else if c.dev.value.probe != "" then Some(Unpin(c.dev.value.probe))
    else if c.dev.value.site == "" then Some("")
    else None
  }

  /** The result once the site table's version is at hand. */
  function BySite(w: World, c: Call, version: nat): Probe {
    if c.dev.Some? && version < |w.table| then SiteProbe(w.table[version], c.dev.value.site) else ""
  }

  ghost predicate At(w: World, id: nat, p: Phase) {
    id in w.threads && w.threads[id].phase == p
  }

  ghost predicate Enabled(w: World, ev: Event) {
    match ev
    case Write(_) => true
    case Enter(id, _) => id !in w.threads
    case EnterInvalidate(id) => id !in w.threads
    case Glance(id) => At(w, id, Glancing)
    case Lock(id) => w.lock.None? && At(w, id, Waiting)
    case Recheck(id) => At(w, id, Holding)
    case Install(id) => id in w.threads && w.threads[id].phase.Loaded?
    case Unlock(id) => id in w.threads && w.threads[id].phase.Leaving?
    case Drop(id) => w.lock.None? && At(w, id, Dropping)
  }

  function Go(w: World, id: nat, p: Phase): World
    requires id in w.threads
  {
    w.(threads := w.threads[id := w.threads[id].(phase := p)])
  }

  function Step(w: World, ev: Event): World
    requires Enabled(w, ev)
  {
    match ev
    case Write(m) => w.(table := w.table + [m])
    case Enter(id, call) => w.(threads := w.threads[id := Thread(w.floor, call, Glancing)])
    case EnterInvalidate(id) => w.(threads := w.threads[id := Thread(|w.table| - 1, Call(None, None), Dropping)])
    case Glance(id) =>
      var c := w.threads[id].call;
      Go(w, id,
         if Decided(c).Some? then Returned(Decided(c).value)
         else if w.cached.Some? then Returned(BySite(w, c, w.cached.value))
         else Waiting)
    case Lock(id) => Go(w, id, Holding).(lock := Some(id))
    case Recheck(id) => Go(w, id, if w.cached.None? then Loaded(|w.table| - 1) else Leaving(w.cached.value))
    case Install(id) =>
      var v := w.threads[id].phase.version;
      Go(w, id, Leaving(v)).(cached := Some(v))
    case Unlock(id) => Go(w, id, Returned(BySite(w, w.threads[id].call, w.threads[id].phase.version))).(lock := None)
    case Drop(id) =>
      var written := w.threads[id].since;
      Go(w, id, Dropped).(cached := None, floor := if written > w.floor then written else w.floor)
  }

  ghost predicate Legal(w: World, evs: seq<Event>)
    decreases |evs|
  {
    evs != [] ==> Enabled(w, evs[0]) && Legal(Step(w, evs[0]), evs[1..])
  }

  function Run(w: World, evs: seq<Event>): World
    requires Legal(w, evs)
    decreases |evs|
  {
    if evs == [] then w else Run(Step(w, evs[0]), evs[1..])
  }

  ghost predicate InLock(p: Phase) { p.Holding? || p.Loaded? || p.Leaving? }

  /** The probe is what the cascade gives over some version from `since` on. */
  ghost predicate Uncached(w: World, c: Call, since: nat, p: Probe) {
    exists n :: since <= n < |w.table| && p == Cascade(w.table[n], c.dev, c.sensor)
  }

  /** A thread inside the lock owns it; what it read is at least as new as the
      last invalidation it must respect, and so is what it returned. */
  ghost predicate ThreadOk(w: World, id: nat, t: Thread) {
    && t.since < |w.table|
    && (InLock(t.phase) ==> w.lock == Some(id))
    && (!t.phase.Dropping? ==> t.since <= w.floor)
    && (t.phase.Loaded? || t.phase.Leaving? ==> w.floor <= t.phase.version < |w.table|)
    && (t.phase.Waiting? || InLock(t.phase) ==> Decided(t.call).None?)
    && (t.phase.Returned? ==> Uncached(w, t.call, t.since, t.phase.probe))
  }

  ghost predicate Inv(w: World) {
    && w.floor < |w.table|
    && (w.cached.Some? ==> w.floor <= w.cached.value < |w.table|)
    && (forall id :: id in w.threads ==> ThreadOk(w, id, w.threads[id]))
  }

  ghost predicate Init(w: World) {
    w.cached.None? && w.lock.None? && w.threads == map[] && w.floor == 0
  }

  lemma {:induction false} RunInv(w: World, evs: seq<Event>)
    requires Inv(w) && Legal(w, evs)
    ensures Inv(Run(w, evs)) && w.table <= Run(w, evs).table && w.floor <= Run(w, evs).floor
    decreases |evs|
  {
    if evs != [] {
      StepInv(w, evs[0]);
      RunInv(Step(w, evs[0]), evs[1..]);
    }
  }

  lemma StepInv(w: World, ev: Event)
    requires Inv(w) && Enabled(w, ev)
    ensures Inv(Step(w, ev)) && w.table <= Step(w, ev).table && w.floor <= Step(w, ev).floor
  {
    var v := Step(w, ev);
    forall id | id in v.threads ensures ThreadOk(v, id, v.threads[id]) {
      if id in w.threads {
        assert ThreadOk(w, id, w.threads[id]);
        if w.threads[id] == v.threads[id] { UncachedStays(w, v, w.threads[id]); } else { MovedOk(w, ev, id); }
      }
    }
  }

  lemma UncachedStays(w: World, v: World, t: Thread)
    requires w.table <= v.table
    ensures t.phase.Returned? && Uncached(w, t.call, t.since, t.phase.probe) ==> Uncached(v, t.call, t.since, t.phase.probe)
  {
    if t.phase.Returned? && Uncached(w, t.call, t.since, t.phase.probe) {
      var n :| t.since <= n < |w.table| && t.phase.probe == Cascade(w.table[n], t.call.dev, t.call.sensor);
      assert v.table[n] == w.table[n];
    }
  }

  /** The thread that moves. */
  lemma MovedOk(w: World, ev: Event, id: nat)
    requires Inv(w) && Enabled(w, ev) && id in w.threads && Step(w, ev).threads[id] != w.threads[id]
    ensures ThreadOk(Step(w, ev), id, Step(w, ev).threads[id])
  {
    var v, t := Step(w, ev), w.threads[id];
    assert ThreadOk(w, id, t);
    if v.threads[id].phase.Returned? {
      var n := if Decided(t.call).Some? then t.since else if t.phase.Leaving? then t.phase.version else w.cached.value;
      assert v.threads[id].phase.probe == Cascade(v.table[n], t.call.dev, t.call.sensor);
    }
  }

  lemma {:induction false} SincePersists(w: World, evs: seq<Event>, id: nat)
    requires Legal(w, evs) && id in w.threads
    ensures id in Run(w, evs).threads && Run(w, evs).threads[id].since == w.threads[id].since
    ensures Run(w, evs).threads[id].call == w.threads[id].call
    decreases |evs|
  {
    if evs != [] {
      SincePersists(Step(w, evs[0]), evs[1..], id);
    }
  }

  /** Invalidation is exact.  Take any reachable state in which an invalidation
      that began at table version `written` (so at or after that write) has
      just returned.  A call of `effective_probe` that starts then or later,
      however everything interleaves, returns what the uncached cascade gives
      over a version of the site table at least that new, and never the pin. */
  lemma InvalidationIsExact(
      w: World, before: seq<Event>, invalidator: nat, after: seq<Event>, reader: nat, call: Call, last: seq<Event>)
    requires Init(w) && Legal(w, before)
    requires At(Run(w, before), invalidator, Dropped)
    requires Legal(Run(w, before), after) && Enabled(Run(Run(w, before), after), Enter(reader, call))
    requires Legal(Step(Run(Run(w, before), after), Enter(reader, call)), last)
    ensures var written := Run(w, before).threads[invalidator].since;
            var v := Run(Step(Run(Run(w, before), after), Enter(reader, call)), last);
            && reader in v.threads
            && (v.threads[reader].phase.Returned? ==>
                  && v.threads[reader].phase.probe != CENTRAL
                  && exists n :: written <= n < |v.table| && v.threads[reader].phase.probe == Cascade(v.table[n], call.dev, call.sensor))
  {
    hide Step, Cascade;
    RunInv(w, before);
    var a := Run(w, before);
    assert ThreadOk(a, invalidator, a.threads[invalidator]);
    RunInv(a, after);
    var b := Run(a, after);
    StepInv(b, Enter(reader, call));
    var c := Step(b, Enter(reader, call));
    EnteredAt(b, reader, call);
    RunInv(c, last);
    SincePersists(c, last, reader);
    var v := Run(c, last);
    assert ThreadOk(v, reader, v.threads[reader]);
    forall m: SiteMap ensures Cascade(m, call.dev, call.sensor) != CENTRAL { NeverThePin(m, call); }
  }

  lemma EnteredAt(w: World, reader: nat, call: Call)
    requires Enabled(w, Enter(reader, call))
    ensures var v := Step(w, Enter(reader, call));
            reader in v.threads && v.threads[reader].since == w.floor && v.threads[reader].call == call
  {
  }

  /** A loaded table is kept: once it is installed, a call that needs the site
      tier is answered from it at its first glance, lock or no lock. */
  lemma InstalledIsServed(w: World, id: nat, other: nat, call: Call)
    requires id in w.threads && w.threads[id].phase.Loaded? && w.threads[id].phase.version < |w.table|
    requires other !in w.threads && Decided(call).None?
    ensures var a := Step(w, Install(id));
            var b := Step(a, Enter(other, call));
            var p := Step(b, Glance(other)).threads[other].phase;
            p == Returned(Cascade(w.table[w.threads[id].phase.version], call.dev, call.sensor))
  {
  }

  // ------------------------------------------------------------- the class

  class ProbeAssign {
    var siteMap: Option<SiteMap>

    /** `db` is the table as a load would find it, `dbOk` false when the load
        raises; the empty map is then served and nothing is cached. */
    method GetSiteMap(db: SiteMap, dbOk: bool) returns (m: SiteMap)
      modifies this`siteMap
      ensures old(siteMap).Some? ==> m == old(siteMap).value && siteMap == old(siteMap)
      ensures old(siteMap).None? && dbOk ==> m == db && siteMap == Some(db)
      ensures old(siteMap).None? && !dbOk ==> m == map[] && siteMap == None
    {
      if siteMap.Some? { return siteMap.value; }
      if !dbOk { return map[]; }
      siteMap := Some(db);
      m := siteMap.value;
    }

    method Invalidate()
      modifies this`siteMap
      ensures siteMap == None
    {
      siteMap := None;
    }

    method EffectiveProbe(dev: Option<Device>, sensor: Option<Probe>, db: SiteMap, dbOk: bool) returns (p: Probe)
      modifies this`siteMap
      ensures var m := if old(siteMap).Some? then old(siteMap).value else if dbOk then db else map[];
              p == Cascade(m, dev, sensor)
      ensures siteMap != old(siteMap) ==> old(siteMap) == None && siteMap == Some(db)
    {
      if sensor.Some? && sensor.value != "" {
        return if sensor.value == CENTRAL then "" else sensor.value;
      }
      if dev.Some? {
        if dev.value.probe != "" {
          return if dev.value.probe == CENTRAL then "" else dev.value.probe;
        }
        if dev.value.site == "" { return ""; }
        var m := GetSiteMap(db, dbOk);
        var bound := if dev.value.site in m then m[dev.value.site] else "";
        return if bound == CENTRAL then "" else bound;
      }
      p := "";
    }
  }
}
