/** The importer as it runs: the inventory updated in place, loop by loop. */
module ImportRun {
  import opened Options
  import opened Text
  import opened ImportSensors
  import opened DeviceImporter
  import opened ImportModes

  /** What a run reports; entries are named by their index in the file. */
  datatype Report = Report(created: seq<nat>, updated: seq<nat>, errors: seq<nat>, deleted: seq<nat>, skipped: seq<nat>)

  /** The first `n` entries are each reported under the right heading, and there
      are as many reports as entries: each is reported exactly once. */
  ghost predicate Reports(report: Report, plan: seq<Option<nat>>, items: seq<Entry>, n: nat) {
    && n <= |items| == |plan|
    && |report.errors| + |report.created| + |report.updated| == n
    && (forall i :: i in report.errors <==> 0 <= i < n && !Usable(items[i]))
    && (forall i :: i in report.created <==> 0 <= i < n && Usable(items[i]) && plan[i].None?)
    && (forall i :: i in report.updated <==> 0 <= i < n && Usable(items[i]) && plan[i].Some?)
  }

  lemma NothingReported(plan: seq<Option<nat>>, items: seq<Entry>)
    requires |plan| == |items|
    ensures Reports(Report([], [], [], [], []), plan, items, 0)
  {
  }

  lemma OneMoreReport(report: Report, plan: seq<Option<nat>>, items: seq<Entry>, n: nat)
    requires Reports(report, plan, items, n) && n < |items|
    ensures Reports(
              if !Usable(items[n]) then report.(errors := report.errors + [n])
              else if plan[n].Some? then report.(updated := report.updated + [n])
              else report.(created := report.created + [n]), plan, items, n + 1)
  {
    hide Usable;
  }

  class Importer {
    var devices: seq<Device>
    var counter: nat

    constructor (v: Inventory)
      ensures View() == v
    {
      devices, counter := v.devices, v.counter;
    }

    function View(): Inventory reads this { Inventory(devices, counter) }

    method FindByExternalId(ext: string) returns (at: Option<nat>)
      ensures at == ByExt(devices, Strip(ext))
    {
      StripShape(ext);
      var key := Strip(ext);
      if key == "" { return None; }
      for i := 0 to |devices|
        invariant First(ExtKeys(devices)[..i], key).None?
      {
        if ExtKey(devices[i]) == key {
          FirstIs(ExtKeys(devices), key, i);
          return Some(i);
        }
        assert ExtKeys(devices)[..i + 1][..i] == ExtKeys(devices)[..i];
      }
      assert ExtKeys(devices)[..|devices|] == ExtKeys(devices);
      at := None;
    }

    method FindByHost(host: string) returns (at: Option<nat>)
      ensures at == ByHost(devices, Strip(Lower(host)))
    {
      var key := Strip(Lower(host));
      if key == "" { return None; }
      for i := 0 to |devices|
        invariant First(HostKeys(devices)[..i], key).None?
      {
        if HostKey(devices[i]) == key {
          FirstIs(HostKeys(devices), key, i);
          return Some(i);
        }
        assert HostKeys(devices)[..i + 1][..i] == HostKeys(devices)[..i];
      }
      assert HostKeys(devices)[..|devices|] == HostKeys(devices);
      at := None;
    }

    method PreviewMatch(items: seq<Entry>) returns (plan: seq<Option<nat>>)
      ensures plan == Plan(devices, items)
    {
      plan := [];
      for i := 0 to |items|
        invariant plan == Plan(devices, items)[..i]
      {
        var at := MatchOne(items[i]);
        plan := plan + [at];
      }
    }

    /** The external id first, then the host. */
    method MatchOne(e: Entry) returns (at: Option<nat>)
      ensures at == Match(devices, e)
    {
      hide First, ExtKeys, HostKeys, Lower;
      at := None;
      if e.Item? {
        MatchIs(devices, e);
        var ext := Strip(e.ext);
        StripShape(e.ext);
        StripShape(ext);
        hide Strip;
        if ext != "" { at := FindByExternalId(ext); }
        if at.None? { at := FindByHost(e.host); }
      }
    }

    /** Writes the non-empty file values that differ. */
    method UpdateInPlace(at: nat, name: string, host: string, group: string, ext: string, it: Entry, ghost fallback: string)
        returns (changed: Fields)
      requires at < |devices| && Usable(it)
      requires group == FileGroup(it, fallback) && name == FileName(it) && host == StoredHost(it) && ext == FileExt(it)
      modifies this`devices
      ensures devices == old(devices)[at := Update(old(devices)[at], it, fallback)]
      ensures changed == Changed(old(devices)[at], it, fallback)
    {
      var u: Device;
      u, changed := UpdatedCopy(devices[at], name, host, group, ext, it, fallback);
      devices := devices[at := u];
    }

    method UpdatedCopy(d: Device, name: string, host: string, group: string, ext: string, it: Entry, ghost fallback: string)
        returns (u: Device, changed: Fields)
      requires Usable(it)
      requires group == FileGroup(it, fallback) && name == FileName(it) && host == StoredHost(it) && ext == FileExt(it)
      ensures u == Update(d, it, fallback)
      ensures changed == Changed(d, it, fallback)
    {
      hide Usable, FileName, FileExt, FileGroup, StoredHost, Lower;
      var newName, newGroup, newHost, newExt := d.name, d.group, d.host, d.ext;
      newName := Overwrite(name, d.name);
      if host != "" && host != Lower(d.host) { newHost := host; }
      newGroup := Overwrite(group, d.group);
      if d.ext == "" { newExt := Overwrite(ext, d.ext); }
      var webhook := Overwrite(it.webhook, d.webhook);
      var community := Overwrite(it.community, d.community);
      var version := Overwrite(it.version, d.version);
      u := d.(name := newName, host := newHost, group := newGroup, ext := newExt, webhook := webhook,
              community := community, version := version);
      changed := Fields(Written(newName, d.name), Written(newHost, d.host), Written(newGroup, d.group), Written(newExt, d.ext),
                        Written(webhook, d.webhook), Written(community, d.community), Written(version, d.version));
    }

    /** The incoming value, unless it is empty or already there. */
    method Overwrite(v: string, cur: string) returns (r: string)
      ensures r == Or(v, cur)
    {
      r := cur;
      if v != "" && v != cur { r := v; }
    }

    method NamesOf(at: nat) returns (byName: map<string, nat>)
      requires at < |devices|
      ensures forall key :: Lookup(devices[at].sensors, key) == if key in byName then Some(byName[key]) else None
    {
      hide Key, Lookup;
      var cur := devices[at].sensors;
      assert forall key :: Lookup([], key).None?;
      byName := map[];
      for i := 0 to |cur|
        invariant forall key :: Lookup(cur[..i], key) == if key in byName then Some(byName[key]) else None
      {
        assert cur[..i + 1] == cur[..i] + [cur[i]];
        forall key ensures Lookup(cur[..i + 1], key) == if Key(cur[i].name) == key then Some(i) else Lookup(cur[..i], key) {
          LookupAppend(cur[..i], cur[i], key);
        }
        byName := byName[Key(cur[i].name) := i];
      }
      assert cur[..|cur|] == cur;
    }

    method MergeSensors(at: nat, specs: seq<Spec>) returns (added: nat)
      requires at < |devices|
      modifies this`devices
      ensures devices == old(devices)[at := old(devices)[at].(sensors := Merge(old(devices)[at].sensors, specs))]
      ensures added == |devices[at].sensors| - |old(devices)[at].sensors|
    {
      hide Kwargs, Addable, Stype, SpecName, Key, Lookup;
      ghost var base := devices[at].sensors;
      var byName := NamesOf(at);
      added := 0;
      for i := 0 to |specs|
        invariant |devices| == |old(devices)| && added == |devices[at].sensors| - |base|
        invariant devices == old(devices)[at := old(devices)[at].(sensors := MergeFrom(base, base, specs[..i]))]
      {
        assert specs[..i + 1][..i] == specs[..i];
        var s, n := specs[i], SpecName(specs[i]);
        if n == "" { continue; }
        var cur := devices[at].sensors;
        assert Lookup(base, Lower(n)) == if Lower(n) in byName then Some(byName[Lower(n)]) else None;
        if Lower(n) in byName {
          var k := byName[Lower(n)];
          devices := devices[at := devices[at].(sensors := cur[k := cur[k].(fields := cur[k].fields + Kwargs(s))])];
        } else if Addable(s) {
          devices := devices[at := devices[at].(sensors := cur + [Sensor(n, Stype(s), Kwargs(s))])];
          added := added + 1;
        }
      }
      assert specs[..|specs|] == specs;
    }

    method CreateSensors(at: nat, specs: seq<Spec>)
      requires at < |devices| && devices[at].sensors == []
      modifies this`devices
      ensures devices == old(devices)[at := old(devices)[at].(sensors := Create(specs))]
    {
      hide Kwargs, Addable, Stype, SpecName, Key, Lookup, MergeOne, Filled;
      ghost var filled := Filled(specs);
      for i := 0 to |specs|
        invariant |devices| == |old(devices)|
        invariant devices == old(devices)[at := old(devices)[at].(sensors := MergeFrom([], [], filled[..i]))]
      {
        assert filled[..i + 1][..i] == filled[..i];
        var s := specs[i];
        var n := if SpecName(s) == "" then "Sensor" else SpecName(s);
        FilledName(specs, i);
        assert MergeFrom([], [], filled[..i + 1]) == MergeOne([], MergeFrom([], [], filled[..i]), filled[i]);
        MergeIntoNone(MergeFrom([], [], filled[..i]), filled[i]);
        if Addable(s) {
          devices := devices[at := devices[at].(sensors := devices[at].sensors + [Sensor(n, Stype(s), Kwargs(s))])];
        }
      }
      assert filled[..|specs|] == filled;
    }

    /** Creates the device of an entry, its extras and its sensors. */
    method AddNew(name: string, host: string, group: string, ext: string, it: Entry, ghost fallback: string)
      requires Usable(it)
      requires group == FileGroup(it, fallback) && name == FileName(it) && host == StoredHost(it) && ext == FileExt(it)
      modifies this
      ensures View() == Added(old(View()), it, fallback)
    {
      hide Usable, FileName, StoredHost, FileExt, FileGroup, Create;
      counter := counter + 1;
      var at := |devices|;
      devices := devices + [Device(counter, name, host, group, "", "", "", "", [], [])];
      var d := devices[at];
      if ext != "" { d := d.(ext := ext); }
      if it.webhook != "" { d := d.(webhook := it.webhook); }
      if it.community != "" { d := d.(community := it.community); }
      if it.version != "" { d := d.(version := it.version); }
      devices := devices[at := d];
      CreateSensors(at, it.sensors);
    }

    method Reconcile(items: seq<Entry>, fallback: string) returns (report: Report)
      modifies this
      ensures View() == Import(old(View()), items, fallback)
      ensures report.deleted == [] && report.skipped == []
      ensures Reports(report, Plan(old(devices), items), items, |items|)
    {
      hide Apply, Match, Usable, Reports;
      ghost var v := View();
      var plan := PreviewMatch(items);
      report := Report([], [], [], [], []);
      NothingReported(plan, items);
      for i := 0 to |items|
        invariant View() == Fold(v, plan[..i], items[..i], fallback) && |v.devices| <= |devices|
        invariant report.deleted == [] && report.skipped == [] && Reports(report, plan, items, i)
      {
        assert items[..i + 1][..i] == items[..i] && plan[..i + 1][..i] == plan[..i];
        ApplyOne(plan[i], items[i], fallback);
        OneMoreReport(report, plan, items, i);
        if !Usable(items[i]) { report := report.(errors := report.errors + [i]); }
        else if plan[i].Some? { report := report.(updated := report.updated + [i]); }
        else { report := report.(created := report.created + [i]); }
      }
      assert items[..|items|] == items && plan[..|items|] == plan;
    }

    method ApplyOne(at: Option<nat>, it: Entry, fallback: string)
      requires at.Some? ==> at.value < |devices|
      modifies this
      ensures View() == Apply(old(View()), at, it, fallback)
    {
      hide Match, FileName, FileHost, FileGroup, FileExt, StoredHost, ValidHost, Update, New, Merge;
      if !Usable(it) { return; }
      var name, host, group, ext := FileName(it), StoredHost(it), FileGroup(it, fallback), FileExt(it);
      if at.Some? {
        var changed := UpdateInPlace(at.value, name, host, group, ext, it, fallback);
        UpdateKeepsSensors(old(devices)[at.value], it, fallback);
        var added := MergeSensors(at.value, it.sensors);
      } else {
        AddNew(name, host, group, ext, it, fallback);
      }
    }

    method FindOrphans(items: seq<Entry>) returns (orphans: seq<nat>)
      ensures forall n :: n in orphans <==> exists d :: d in devices && d.did == n && Orphan(d, items)
    {
      hide Orphan;
      orphans := [];
      for i := 0 to |devices|
        invariant forall n :: n in orphans <==> exists d :: d in devices[..i] && d.did == n && Orphan(d, items)
      {
        if Orphan(devices[i], items) { orphans := orphans + [devices[i].did]; }
      }
      assert devices[..|devices|] == devices;
    }

    /** The replace mode: reconcile, then try to delete every orphan. */
    method ReplaceBatch(items: seq<Entry>, fallback: string, verdict: nat -> Verdict) returns (report: Report)
      modifies this
      ensures View() == Replace(old(View()), items, fallback, verdict)
      ensures forall n :: n in report.deleted <==> n in Doomed(Import(old(View()), items, fallback).devices, items, verdict)
      ensures forall d :: d in Import(old(View()), items, fallback).devices && Orphan(d, items) ==> d.did in report.deleted + report.skipped
    {
      hide Orphan, Import;
      report := Reconcile(items, fallback);
      ghost var w := devices;
      var orphans := FindOrphans(items);
      ghost var gone: set<nat> := {};
      DropNone(w);
      for i := 0 to |orphans|
        invariant gone == set k | 0 <= k < i && verdict(orphans[k]) == Deleted :: orphans[k]
        invariant devices == Drop(w, gone) && counter == old(Import(View(), items, fallback)).counter
        invariant forall n :: n in report.deleted <==> n in gone
        invariant forall k | 0 <= k < i :: orphans[k] in report.deleted + report.skipped
      {
        var o := orphans[i];
        if verdict(o) == Deleted {
          DropMore(w, gone, {o});
          devices := Drop(devices, {o});
          gone := gone + {o};
          report := report.(deleted := report.deleted + [o]);
        } else {
          report := report.(skipped := report.skipped + [o]);
        }
      }
      OrphansDoomed(w, items, verdict, orphans);
    }

    /** The add-only path, with its running set of monitored hosts. */
    method CreateBatch(items: seq<Entry>, fallback: string) returns (report: Report)
      modifies this
      ensures View() == CreateOnly(old(View()), items, fallback)
      ensures |report.created| == |devices| - |old(devices)| && |report.created| + |report.errors| == |items|
    {
      hide Monitored, New, FileName, FileHost, FileGroup, FileExt, StoredHost, ValidHost;
      ghost var v := View();
      var known := Monitored(devices);
      report := Report([], [], [], [], []);
      for i := 0 to |items|
        invariant View() == CreateOnly(v, items[..i], fallback) && known == Monitored(devices)
        invariant |report.created| == |devices| - |v.devices| && |report.created| + |report.errors| == i
      {
        assert items[..i + 1][..i] == items[..i];
        var it := items[i];
        if !Usable(it) || StoredHost(it) in known {
          report := report.(errors := report.errors + [i]);
        } else {
          MonitoredWith(devices, counter + 1, it, fallback);
          AddNew(FileName(it), StoredHost(it), FileGroup(it, fallback), FileExt(it), it, fallback);
          known := known + {StoredHost(it)};
          report := report.(created := report.created + [i]);
        }
      }
      assert items[..|items|] == items;
    }
  }

  lemma OrphansDoomed(w: seq<Device>, items: seq<Entry>, verdict: nat -> Verdict, orphans: seq<nat>)
    requires forall n :: n in orphans <==> exists d :: d in w && d.did == n && Orphan(d, items)
    ensures (set k | 0 <= k < |orphans| && verdict(orphans[k]) == Deleted :: orphans[k]) == Doomed(w, items, verdict)
    ensures forall d :: d in w && Orphan(d, items) ==> exists k :: 0 <= k < |orphans| && orphans[k] == d.did
  {
    hide Orphan;
    var gone := set k | 0 <= k < |orphans| && verdict(orphans[k]) == Deleted :: orphans[k];
    forall n ensures n in gone <==> n in Doomed(w, items, verdict) {
      if n in gone { assert n in orphans; }
      if n in Doomed(w, items, verdict) {
        var d :| d in w && Orphan(d, items) && verdict(d.did) == Deleted && d.did == n;
        assert n in orphans;
      }
    }
    forall d | d in w && Orphan(d, items) ensures exists k :: 0 <= k < |orphans| && orphans[k] == d.did {
      assert d.did in orphans;
    }
  }

  lemma MergeIntoNone(cur: seq<Sensor>, s: Spec)
    requires SpecName(s) != ""
    ensures MergeOne([], cur, s) == if Addable(s) then cur + [Sensor(SpecName(s), Stype(s), Kwargs(s))] else cur
  {
    hide Kwargs, Addable, Stype, SpecName;
  }

  lemma FilledName(specs: seq<Spec>, i: nat)
    requires i < |specs|
    ensures var s, f := specs[i], Filled(specs)[i];
            && SpecName(f) == (if SpecName(s) == "" then "Sensor" else SpecName(s)) && SpecName(f) != ""
            && Addable(f) == Addable(s) && Kwargs(f) == Kwargs(s) && Stype(f) == Stype(s)
  {
    hide Allowed, Defaults;
    if !Named(specs[i]) { StripShape("Sensor"); }
  }

  lemma UpdateKeepsSensors(d: Device, it: Entry, fallback: string)
    requires it.Item?
    ensures Update(d, it, fallback).sensors == d.sensors
    ensures Touch(d, it, fallback) == Update(d, it, fallback).(sensors := Merge(d.sensors, it.sensors))
  {
  }
}
