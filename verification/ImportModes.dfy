/** The importer's modes: what `replace` deletes, what `add_only` creates, and
    whether the preview shows the update that is then applied. */
module ImportModes {
  import opened Options
  import opened Text
  import opened ImportSensors
  import opened DeviceImporter

  // --------------------------------------------------------------- replace

  function Exts(items: seq<Entry>): set<string> {
    set i | 0 <= i < |items| && items[i].Item? && items[i].ext != "" :: FileExt(items[i])
  }

  function Hosts(items: seq<Entry>): set<string> {
    set i | 0 <= i < |items| && items[i].Item? && items[i].host != "" :: FileHost(items[i])
  }

  predicate Orphan(d: Device, items: seq<Entry>) {
    !(ExtKey(d) != "" && ExtKey(d) in Exts(items)) && HostKey(d) !in Hosts(items)
  }

  /** A device is referred to by an entry with its external id or its host. */
  lemma OrphanIff(d: Device, items: seq<Entry>)
    ensures Orphan(d, items) <==>
              forall i | 0 <= i < |items| && items[i].Item? ::
                && !(items[i].ext != "" && Strip(d.ext) != "" && Strip(items[i].ext) == Strip(d.ext))
                && !(items[i].host != "" && Strip(Lower(items[i].host)) == Strip(Lower(d.host)))
  {
    hide Strip, Lower;
    if Orphan(d, items) {
      forall i | 0 <= i < |items| && items[i].Item?
        ensures !(items[i].ext != "" && Strip(d.ext) != "" && Strip(items[i].ext) == Strip(d.ext))
        ensures !(items[i].host != "" && Strip(Lower(items[i].host)) == Strip(Lower(d.host)))
      {
        assert items[i].ext != "" ==> FileExt(items[i]) in Exts(items);
        assert items[i].host != "" ==> FileHost(items[i]) in Hosts(items);
      }
    }
  }

  /** What deleting a device by id comes to. */
  datatype Verdict = Deleted | Refused | Crashed

  /** The devices without those of the given ids. */
  function Drop(ds: seq<Device>, gone: set<nat>): seq<Device> {
    if ds == [] then [] else Drop(ds[..|ds| - 1], gone) + if ds[|ds| - 1].did in gone then [] else [ds[|ds| - 1]]
  }

  lemma {:induction false} DropHas(ds: seq<Device>, gone: set<nat>, d: Device)
    ensures d in Drop(ds, gone) <==> d in ds && d.did !in gone
  {
    if ds != [] {
      var n := |ds| - 1;
      DropHas(ds[..n], gone, d);
      assert ds == ds[..n] + [ds[n]];
    }
  }

  function Doomed(ds: seq<Device>, items: seq<Entry>, verdict: nat -> Verdict): set<nat> {
    set d | d in ds && Orphan(d, items) && verdict(d.did) == Deleted :: d.did
  }

  function Replace(v: Inventory, items: seq<Entry>, fallback: string, verdict: nat -> Verdict): Inventory {
    var w := Import(v, items, fallback);
    w.(devices := Drop(w.devices, Doomed(w.devices, items, verdict)))
  }

  /** The inventory is keyed by id, and the counter is past every id in it. */
  ghost predicate Keyed(v: Inventory) {
    && (forall i, j | 0 <= i < j < |v.devices| :: v.devices[i].did != v.devices[j].did)
    && (forall i | 0 <= i < |v.devices| :: v.devices[i].did <= v.counter)
  }

  lemma {:induction false} FoldKeepsKeyed(v: Inventory, plan: seq<Option<nat>>, items: seq<Entry>, fallback: string)
    requires Keyed(v) && |plan| == |items| && Fits(plan, v.devices)
    ensures Keyed(Fold(v, plan, items, fallback))
  {
    hide Usable, FileName, FileHost, FileExt, FileGroup, StoredHost, Merge, Create;
    if items != [] { FoldKeepsKeyed(v, plan[..|items| - 1], items[..|items| - 1], fallback); }
  }

  /** Under any matching, the device an entry touched answers in the end to the
      stored host of some usable entry. */
  lemma {:induction false} TouchedHost(v: Inventory, plan: seq<Option<nat>>, items: seq<Entry>, fallback: string, k: nat) returns (j: nat)
    requires |plan| == |items| && Fits(plan, v.devices) && k < |items| && Usable(items[k])
    ensures j < |items| && Usable(items[j])
    ensures Slot(v, plan, items, fallback, k) < |Fold(v, plan, items, fallback).devices|
    ensures HostKey(Fold(v, plan, items, fallback).devices[Slot(v, plan, items, fallback, k)]) == StoredHost(items[j])
  {
    hide Touch, New, Usable, HostKey, StoredHost;
    var n := |items| - 1;
    SlotBound(v, plan, items, fallback, k);
    if Usable(items[n]) && Slot(v, plan, items, fallback, n) == Slot(v, plan, items, fallback, k) {
      j := n;
      var before := Fold(v, plan[..n], items[..n], fallback);
      WrittenHost(if plan[n].Some? then before.devices[plan[n].value] else New(0, items[n], fallback), before.counter + 1, items[n], fallback);
    } else {
      assert items[..n][..k] == items[..k] && plan[..n][..k] == plan[..k];
      j := TouchedHost(v, plan[..n], items[..n], fallback, k);
    }
  }

  lemma UsableHostIsListed(items: seq<Entry>, j: nat)
    requires j < |items| && Usable(items[j])
    ensures FileHost(items[j]) in Hosts(items)
  {
    BlankHost(items[j]);
  }

  lemma BlankHost(it: Entry)
    requires it.Item?
    ensures it.host == "" ==> FileHost(it) == ""
  {
  }

  /** Replace safety: no device an entry created or updated is deleted by the
      same run, whatever the duplicates and cross matches, if hosts are uncut. */
  lemma ReplaceKeepsWhatItTouched(v: Inventory, items: seq<Entry>, fallback: string, verdict: nat -> Verdict, k: nat)
    requires Keyed(v) && k < |items| && Usable(items[k])
    requires forall i | 0 <= i < |items| && Usable(items[i]) :: Uncut(items[i])
    ensures var plan, w := Plan(v.devices, items), Import(v, items, fallback);
            var q := Slot(v, plan, items, fallback, k);
            q < |w.devices| && w.devices[q] in Replace(v, items, fallback, verdict).devices
  {
    hide Usable, Fold, Match, HostKey, FileHost, StoredHost, Slot;
    var plan, w := Plan(v.devices, items), Import(v, items, fallback);
    var j := TouchedHost(v, plan, items, fallback, k);
    FileHostClean(items[j]);
    UsableHostIsListed(items, j);
    FoldKeepsKeyed(v, plan, items, fallback);
    DropHas(w.devices, Doomed(w.devices, items, verdict), w.devices[Slot(v, plan, items, fallback, k)]);
  }

  /** It deletes exactly orphans whose deletion succeeds; where none does, as
      with a store that has no such operation, replace is the plain import. */
  lemma ReplaceDeletesOnlyOrphans(v: Inventory, items: seq<Entry>, fallback: string, verdict: nat -> Verdict, d: Device)
    requires Keyed(v) && d in Import(v, items, fallback).devices
    ensures d !in Replace(v, items, fallback, verdict).devices <==> Orphan(d, items) && verdict(d.did) == Deleted
    ensures (forall n :: verdict(n) == Crashed) ==> Replace(v, items, fallback, verdict) == Import(v, items, fallback)
  {
    hide Orphan, Fold, Plan;
    var w := Import(v, items, fallback);
    FoldKeepsKeyed(v, Plan(v.devices, items), items, fallback);
    hide Import, Keyed;
    DropHas(w.devices, Doomed(w.devices, items, verdict), d);
    KeyedDoom(w, items, verdict, d);
    DropNone(w.devices);
    if forall n :: verdict(n) == Crashed { assert Doomed(w.devices, items, verdict) == {}; }
  }

  lemma KeyedDoom(w: Inventory, items: seq<Entry>, verdict: nat -> Verdict, d: Device)
    requires Keyed(w) && d in w.devices
    ensures d.did in Doomed(w.devices, items, verdict) <==> Orphan(d, items) && verdict(d.did) == Deleted
  {
    hide Orphan;
  }

  lemma {:induction false} DropNone(ds: seq<Device>)
    ensures Drop(ds, {}) == ds
  {
    if ds != [] { DropNone(ds[..|ds| - 1]); }
  }

  lemma {:induction false} DropMore(ds: seq<Device>, a: set<nat>, b: set<nat>)
    ensures Drop(Drop(ds, a), b) == Drop(ds, a + b)
  {
    if ds != [] {
      var d := ds[|ds| - 1];
      var pre := Drop(ds[..|ds| - 1], a);
      DropMore(ds[..|ds| - 1], a, b);
      assert (pre + [d])[..|pre|] == pre && pre + [] == pre;
    }
  }

  /** The cap matters.  In any inventory, the device an entry touches, if no
      other entry matches it, is an orphan of its own batch exactly when its
      stored host is no host of the file (which only a cut host can be) and the
      external id left on it, if any, is none of the file's. */
  lemma TouchedIsOrphanIff(v: Inventory, items: seq<Entry>, fallback: string, k: nat)
    requires k < |items| && Usable(items[k]) && NoSharedMatch(Plan(v.devices, items), items)
    ensures var plan := Plan(v.devices, items);
            var q := Slot(v, plan, items, fallback, k);
            var ext := LeftExt(v, plan[k], items[k]);
            && q < |Import(v, items, fallback).devices|
            && (Orphan(Import(v, items, fallback).devices[q], items) <==>
                StoredHost(items[k]) !in Hosts(items) && (ext == "" || ext !in Exts(items)))
    ensures StoredHost(items[k]) !in Hosts(items) ==> !Uncut(items[k])
  {
    hide Usable, Fold, HostKey, FileHost, StoredHost, Slot, New, Touch, Hosts, ExtKey;
    var plan := Plan(v.devices, items);
    EntryIsPlaced(v, plan, items, fallback, k);
    var d := Import(v, items, fallback).devices[Slot(v, plan, items, fallback, k)];
    if plan[k].Some? {
      WrittenHost(v.devices[plan[k].value], 0, items[k], fallback);
      WrittenExt(v.devices[plan[k].value], 0, items[k], fallback);
    } else {
      var did :| d == New(did, items[k], fallback);
      WrittenHost(d, did, items[k], fallback);
      WrittenExt(d, did, items[k], fallback);
    }
    FileHostClean(items[k]);
    UsableHostIsListed(items, k);
  }

  /** The external id at a position after the run: the device's own if it had
      one, else the first non-blank one of the usable entries it was given to. */
  function ExtLeft(v: Inventory, plan: seq<Option<nat>>, items: seq<Entry>, fallback: string, q: nat): string
    requires |plan| == |items| && Fits(plan, v.devices)
  {
    if items == [] then if q < |v.devices| then v.devices[q].ext else ""
    else
      var n := |items| - 1;
      var before := ExtLeft(v, plan[..n], items[..n], fallback, q);
      if before == "" && Usable(items[n]) && Slot(v, plan, items, fallback, n) == q then FileExt(items[n]) else before
  }

  lemma {:induction false} NoExtBeyond(v: Inventory, plan: seq<Option<nat>>, items: seq<Entry>, fallback: string, q: nat)
    requires |plan| == |items| && Fits(plan, v.devices) && q >= |Fold(v, plan, items, fallback).devices|
    ensures ExtLeft(v, plan, items, fallback, q) == ""
  {
    hide Usable, Touch, New, FileExt;
    if items != [] {
      var n := |items| - 1;
      NoExtBeyond(v, plan[..n], items[..n], fallback, q);
      if Usable(items[n]) { SlotBound(v, plan, items, fallback, n); }
    }
  }

  lemma {:induction false} ExtLeftIsThere(v: Inventory, plan: seq<Option<nat>>, items: seq<Entry>, fallback: string, q: nat)
    requires |plan| == |items| && Fits(plan, v.devices) && q < |Fold(v, plan, items, fallback).devices|
    ensures Fold(v, plan, items, fallback).devices[q].ext == ExtLeft(v, plan, items, fallback, q)
  {
    hide Usable, FileName, FileHost, FileExt, FileGroup, StoredHost, Merge, Create;
    if items != [] {
      var n := |items| - 1;
      if q < |Fold(v, plan[..n], items[..n], fallback).devices| {
        ExtLeftIsThere(v, plan[..n], items[..n], fallback, q);
      } else {
        NoExtBeyond(v, plan[..n], items[..n], fallback, q);
      }
    }
  }

  /** No later usable entry touches the same device. */
  ghost predicate LastToTouch(v: Inventory, plan: seq<Option<nat>>, items: seq<Entry>, fallback: string, k: nat)
    requires |plan| == |items| && Fits(plan, v.devices) && k < |items|
  {
    forall j | k < j < |items| && Usable(items[j]) :: Slot(v, plan, items, fallback, j) != Slot(v, plan, items, fallback, k)
  }

  lemma {:induction false} LastHostStays(v: Inventory, plan: seq<Option<nat>>, items: seq<Entry>, fallback: string, k: nat)
    requires |plan| == |items| && Fits(plan, v.devices) && k < |items| && Usable(items[k])
    requires LastToTouch(v, plan, items, fallback, k)
    ensures Slot(v, plan, items, fallback, k) < |Fold(v, plan, items, fallback).devices|
    ensures HostKey(Fold(v, plan, items, fallback).devices[Slot(v, plan, items, fallback, k)]) == StoredHost(items[k])
  {
    hide Touch, New, Usable, HostKey, StoredHost;
    var n := |items| - 1;
    SlotBound(v, plan, items, fallback, k);
    var before := Fold(v, plan[..n], items[..n], fallback);
    if k == n {
      WrittenHost(if plan[n].Some? then before.devices[plan[n].value] else New(0, items[n], fallback), before.counter + 1, items[n], fallback);
    } else {
      assert items[..n][..k] == items[..k] && plan[..n][..k] == plan[..k];
      forall j | k < j < n && Usable(items[j])
        ensures Slot(v, plan[..n], items[..n], fallback, j) != Slot(v, plan[..n], items[..n], fallback, k)
      {
        assert items[..n][..j] == items[..j] && plan[..n][..j] == plan[..j];
        assert Slot(v, plan, items, fallback, j) != Slot(v, plan, items, fallback, k);
      }
      LastHostStays(v, plan[..n], items[..n], fallback, k);
    }
  }

  /** The same under any duplicates and cross matches: a touched device is an
      orphan of its own batch exactly when the stored host of the last entry to
      touch it is no host of the file and the external id left on it, if any,
      is none of the file's. */
  lemma LastTouchedIsOrphanIff(v: Inventory, items: seq<Entry>, fallback: string, k: nat)
    requires k < |items| && Usable(items[k]) && LastToTouch(v, Plan(v.devices, items), items, fallback, k)
    ensures var plan, w := Plan(v.devices, items), Import(v, items, fallback).devices;
            var q := Slot(v, plan, items, fallback, k);
            var ext := Strip(ExtLeft(v, plan, items, fallback, q));
            && q < |w|
            && (Orphan(w[q], items) <==> StoredHost(items[k]) !in Hosts(items) && (ext == "" || ext !in Exts(items)))
  {
    hide Usable, Fold, HostKey, FileHost, StoredHost, Slot, Hosts, Exts, LastToTouch, Match;
    var plan := Plan(v.devices, items);
    LastHostStays(v, plan, items, fallback, k);
    ExtLeftIsThere(v, plan, items, fallback, Slot(v, plan, items, fallback, k));
  }

  /** A device created without an external id is one exactly when its stored
      host is no host of the file. */
  lemma FirstImportOrphansIff(items: seq<Entry>, fallback: string, k: nat)
    requires k < |items| && Usable(items[k])
    ensures var v := Inventory([], 0);
            var q := Slot(v, Plan([], items), items, fallback, k);
            && q < |Import(v, items, fallback).devices|
            && (Orphan(Import(v, items, fallback).devices[q], items) <==> FileExt(items[k]) == "" && StoredHost(items[k]) !in Hosts(items))
  {
    hide Usable, Fold, HostKey, FileHost, StoredHost, Slot, New, Hosts, Import;
    TouchedIsOrphanIff(Inventory([], 0), items, fallback, k);
    BlankExt(items[k]);
  }

  lemma BlankExt(it: Entry)
    requires it.Item?
    ensures it.ext == "" ==> FileExt(it) == ""
  {
  }

  // -------------------------------------------------------------- add only

  /** The hosts already monitored: primary and secondary, lower-cased. */
  function Monitored(ds: seq<Device>): set<string> {
    (set d | d in ds && d.host != "" :: Lower(d.host)) + (set d, x | d in ds && x in d.secondary && x != "" :: Lower(x))
  }

  /** A host is monitored as some device's own or secondary one. */
  lemma MonitoredIff(ds: seq<Device>, h: string)
    ensures h in Monitored(ds) <==>
              exists d :: d in ds && ((d.host != "" && Lower(d.host) == h) || exists x :: x in d.secondary && x != "" && Lower(x) == h)
  {
    hide Lower;
    if h in Monitored(ds) {
      if d :| d in ds && d.host != "" && Lower(d.host) == h {
      } else {
        var d, x :| d in ds && x in d.secondary && x != "" && Lower(x) == h;
      }
    }
  }

  predicate Creates(known: set<string>, e: Entry) { Usable(e) && StoredHost(e) !in known }

  function CreateOnly(v: Inventory, items: seq<Entry>, fallback: string): Inventory {
    if items == [] then v
    else
      var n := |items| - 1;
      var w := CreateOnly(v, items[..n], fallback);
      if Creates(Monitored(w.devices), items[n]) then Added(w, items[n], fallback) else w
  }

  function UsableHosts(items: seq<Entry>): set<string> {
    set i | 0 <= i < |items| && Usable(items[i]) :: StoredHost(items[i])
  }

  lemma MonitoredWith(ds: seq<Device>, did: nat, it: Entry, fallback: string)
    requires Usable(it)
    ensures Monitored(ds + [New(did, it, fallback)]) == Monitored(ds) + {StoredHost(it)}
  {
    hide Create, Usable, Monitored, StoredHost, Lower;
    FileHostClean(it);
    UsableHasHost(it);
    MonitoredBoth(ds, New(did, it, fallback));
  }

  lemma MonitoredBoth(ds: seq<Device>, d: Device)
    requires d.host != "" && d.secondary == []
    ensures Monitored(ds + [d]) == Monitored(ds) + {Lower(d.host)}
  {
    hide Lower;
    var all := ds + [d];
    assert all[|ds|] == d;
    forall x | x in Monitored(ds) ensures x in Monitored(all) {
      assert forall e | e in ds :: e in all;
    }
    forall x | x in Monitored(all) ensures x in Monitored(ds) + {Lower(d.host)} {
      assert forall e | e in all :: e in ds || e == d;
    }
  }

  /** `w` adds to `v` devices with hosts nothing in `v` monitored, no two alike. */
  ghost predicate AddsNewHosts(v: Inventory, w: Inventory) {
    && v.devices <= w.devices
    && (forall i | |v.devices| <= i < |w.devices| :: w.devices[i].host != "" && Lower(w.devices[i].host) !in Monitored(v.devices))
    && (forall i, j | |v.devices| <= i < j < |w.devices| :: Lower(w.devices[i].host) != Lower(w.devices[j].host))
  }

  /** Afterwards every usable host of the file is monitored, every device that
      was there is as it was, and the new ones have hosts that nothing
      monitored before and no two of them share. */
  lemma {:induction false} CreateOnlyIsExact(v: Inventory, items: seq<Entry>, fallback: string)
    ensures AddsNewHosts(v, CreateOnly(v, items, fallback))
    ensures Monitored(CreateOnly(v, items, fallback).devices) == Monitored(v.devices) + UsableHosts(items)
  {
    hide Usable, Monitored, StoredHost, AddsNewHosts;
    if items == [] {
      assert AddsNewHosts(v, v) by { NothingNew(v); }
    } else {
      var n := |items| - 1;
      var u, it := CreateOnly(v, items[..n], fallback), items[n];
      CreateOnlyIsExact(v, items[..n], fallback);
      assert UsableHosts(items) == UsableHosts(items[..n]) + if Usable(it) then {StoredHost(it)} else {};
      if Creates(Monitored(u.devices), it) {
        MonitoredWith(u.devices, u.counter + 1, it, fallback);
        OneMoreHost(v, u, it, fallback);
      }
    }
  }

  lemma NothingNew(v: Inventory)
    ensures AddsNewHosts(v, v)
  {
  }

  lemma OneMoreHost(v: Inventory, u: Inventory, it: Entry, fallback: string)
    requires AddsNewHosts(v, u) && Usable(it) && StoredHost(it) !in Monitored(u.devices)
    requires Monitored(v.devices) <= Monitored(u.devices)
    ensures AddsNewHosts(v, Added(u, it, fallback))
  {
    hide Usable, Monitored, StoredHost, Create, Lower, FileName, FileExt, FileGroup, FileHost;
    FileHostClean(it);
    UsableHasHost(it);
    forall i | |v.devices| <= i < |u.devices| ensures Lower(u.devices[i].host) != StoredHost(it) {
      MonitoredHas(u.devices, i);
    }
  }

  lemma MonitoredHas(ds: seq<Device>, i: nat)
    requires i < |ds| && ds[i].host != ""
    ensures Lower(ds[i].host) in Monitored(ds)
  {
  }

  /** Adding the same file twice creates nothing the second time, for every
      inventory and every file. */
  lemma CreateOnlyTwice(v: Inventory, items: seq<Entry>, fallback: string)
    ensures CreateOnly(CreateOnly(v, items, fallback), items, fallback) == CreateOnly(v, items, fallback)
  {
    CreateOnlyIsExact(v, items, fallback);
    NothingToCreate(CreateOnly(v, items, fallback), items, fallback);
  }

  lemma {:induction false} NothingToCreate(v: Inventory, items: seq<Entry>, fallback: string)
    requires UsableHosts(items) <= Monitored(v.devices)
    ensures CreateOnly(v, items, fallback) == v
  {
    hide Usable, Monitored, StoredHost;
    if items != [] {
      var n := |items| - 1;
      assert UsableHosts(items[..n]) <= UsableHosts(items);
      assert Usable(items[n]) ==> StoredHost(items[n]) in UsableHosts(items);
      NothingToCreate(v, items[..n], fallback);
    }
  }

  // --------------------------------------------------------------- preview

  /** New values for some of a device's fields. */
  datatype Fields = Fields(
    name: Option<string>, host: Option<string>, group: Option<string>, ext: Option<string>,
    webhook: Option<string>, community: Option<string>, version: Option<string>)

  function Fresh(v: string, cur: string): Option<string> { if v != "" && v != cur then Some(v) else None }
  function Written(v: string, cur: string): Option<string> { if v != cur then Some(v) else None }

  /** The new values the preview shows. */
  function Diff(d: Device, it: Entry): Fields
    requires it.Item?
  {
    Fields(Fresh(Strip(it.name), d.name), Fresh(FileHost(it), Lower(d.host)), Fresh(Strip(it.group), d.group), None,
           Fresh(it.webhook, d.webhook), Fresh(it.community, d.community), Fresh(it.version, d.version))
  }

  /** The new values an applied update leaves. */
  function Changed(d: Device, it: Entry, fallback: string): Fields
    requires it.Item?
  {
    var u := Update(d, it, fallback);
    Fields(Written(u.name, d.name), Written(u.host, d.host), Written(u.group, d.group), Written(u.ext, d.ext),
           Written(u.webhook, d.webhook), Written(u.community, d.community), Written(u.version, d.version))
  }

  /** The new values by which `after` differs from `before`. */
  function Changes(before: Device, after: Device): Fields {
    Fields(Written(after.name, before.name), Written(after.host, before.host), Written(after.group, before.group),
           Written(after.ext, before.ext), Written(after.webhook, before.webhook),
           Written(after.community, before.community), Written(after.version, before.version))
  }

  /** The names under which sensors are compared. */
  function LowerNames(cur: seq<Sensor>): set<string> {
    if cur == [] then {} else LowerNames(cur[..|cur| - 1]) + {Lower(cur[|cur| - 1].name)}
  }

  /** The names the preview lists as added: those of the file the device lacks. */
  function ShownSensors(d: Device, specs: seq<Spec>): set<string> {
    set i | 0 <= i < |specs| && Lookup(d.sensors, Key(specs[i].name)).None? :: Key(specs[i].name)
  }

  const NOTHING := Fields(None, None, None, None, None, None, None)

  /** The preview's word on entry `k`, taken of the inventory before the run,
      against what the run does when it comes to the entry: a new entry creates
      a device; a matched one gives its device exactly the values shown, and
      appends exactly the sensors listed. */
  ghost predicate Honest(v: Inventory, items: seq<Entry>, fallback: string, k: nat)
    requires k < |items| && items[k].Item?
  {
    var plan, it := Plan(v.devices, items), items[k];
    var before, after := Fold(v, plan[..k], items[..k], fallback).devices, Fold(v, plan[..k + 1], items[..k + 1], fallback).devices;
    if plan[k].None? then |after| == |before| + 1
    else
      var p := plan[k].value;
      && |before[p].sensors| <= |after[p].sensors|
      && Diff(v.devices[p], it) == Changes(before[p], after[p])
      && ShownSensors(v.devices[p], it.sensors) == LowerNames(after[p].sensors[|before[p].sensors|..])
  }

  /** When the preview is right about a device's fields: nothing is cut, a blank
      group's fallback changes nothing, and no external id is set. */
  predicate FieldsTold(d: Device, it: Entry, fallback: string)
    requires it.Item?
  {
    && |Strip(it.name)| <= 255 && Uncut(it)
    && (if Strip(it.group) != "" then |Strip(it.group)| <= 255
        else Cut(fallback, 255) == "" || Cut(fallback, 255) == d.group)
    && (d.ext != "" || FileExt(it) == "")
  }

  /** The merge appends a sensor for this spec. */
  predicate Appends(d: Device, s: Spec) {
    Named(s) && Lookup(d.sensors, Lower(SpecName(s))).None? && !SaysTooMuch(s)
  }

  /** When it is right about the sensors: each name it lists is the shortened
      name of an addable sensor of the file, and each sensor appended under a
      shortened name has that name listed. */
  predicate SensorsTold(d: Device, specs: seq<Spec>) {
    && (forall i | 0 <= i < |specs| && Lookup(d.sensors, Key(specs[i].name)).None? ::
          exists j :: 0 <= j < |specs| && Named(specs[j]) && !SaysTooMuch(specs[j]) && Lower(SpecName(specs[j])) == Key(specs[i].name))
    && (forall j | 0 <= j < |specs| && Appends(d, specs[j]) && |Strip(specs[j].name)| > 255 ::
          exists i :: 0 <= i < |specs| && Key(specs[i].name) == Lower(SpecName(specs[j])))
  }

  /** The preview of an entry is honest, exactly: for a new entry, if the run
      can use it; for a usable entry, if it tells fields and sensors; for a
      matched entry the run rejects, if it shows nothing.  So a blank group
      moves the device silently, an external id is set silently, an unnamed or
      unaddable sensor is announced and never comes, and a rejected entry may be
      announced as an update. */
  lemma PreviewIsHonestIff(v: Inventory, items: seq<Entry>, fallback: string, k: nat)
    requires k < |items| && items[k].Item? && NoSharedMatch(Plan(v.devices, items), items)
    ensures Honest(v, items, fallback, k) <==>
              var it, at := items[k], Match(v.devices, items[k]);
              if at.None? then Usable(it)
              else
                var d := v.devices[at.value];
                if Usable(it) then FieldsTold(d, it, fallback) && SensorsTold(d, it.sensors)
                else Diff(d, it) == NOTHING && ShownSensors(d, it.sensors) == {}
  {
    hide Diff, Changes, ShownSensors, LowerNames, FieldsTold, SensorsTold, Touch, New, Match;
    var plan, it := Plan(v.devices, items), items[k];
    var before := Fold(v, plan[..k], items[..k], fallback);
    assert items[..k + 1][..k] == items[..k] && plan[..k + 1][..k] == plan[..k];
    if plan[k].Some? {
      var p := plan[k].value;
      var d := v.devices[p];
      if Usable(it) {
        UntargetedIsUntouched(v, plan[..k], items[..k], fallback, p);
        TouchHonestIff(d, it, fallback);
      } else {
        NoChanges(before.devices[p]);
        assert before.devices[p].sensors[|before.devices[p].sensors|..] == [];
      }
    }
  }

  lemma NoChanges(d: Device)
    ensures Changes(d, d) == NOTHING && LowerNames([]) == {}
  {
  }

  lemma TouchHonestIff(d: Device, it: Entry, fallback: string)
    requires Usable(it)
    ensures var t := Touch(d, it, fallback);
            && |d.sensors| <= |t.sensors|
            && ((Diff(d, it) == Changes(d, t) && ShownSensors(d, it.sensors) == LowerNames(t.sensors[|d.sensors|..]))
                <==> FieldsTold(d, it, fallback) && SensorsTold(d, it.sensors))
  {
    hide Diff, ShownSensors, LowerNames, FieldsTold, SensorsTold, Merge;
    assert Changes(d, Touch(d, it, fallback)) == Changed(d, it, fallback) by { hide Update; }
    hide Changes, Changed;
    FieldsHonestIff(d, it, fallback);
    MergeAppends(d.sensors, it.sensors);
    SensorsHonestIff(d, it.sensors);
  }

  lemma FieldsHonestIff(d: Device, it: Entry, fallback: string)
    requires Usable(it)
    ensures Diff(d, it) == Changed(d, it, fallback) <==> FieldsTold(d, it, fallback)
  {
    hide Update;
    var u := Update(d, it, fallback);
    NameHonestIff(d, it);
    HostHonestIff(d, it);
    GroupHonestIff(d, it, fallback);
    hide Strip, Lower, FileHost, StoredHost, FileName, FileExt, FileGroup, Usable, Uncut, Cut;
    assert u == Update(d, it, fallback);
    UpdateParts(d, it, fallback);
  }

  lemma UpdateParts(d: Device, it: Entry, fallback: string)
    requires Usable(it)
    ensures var u := Update(d, it, fallback);
            && u.name == Or(FileName(it), d.name) && u.group == Or(FileGroup(it, fallback), d.group)
            && u.host == (if StoredHost(it) == Lower(d.host) then d.host else StoredHost(it))
            && u.ext == (if d.ext == "" then FileExt(it) else d.ext)
            && u.webhook == Or(it.webhook, d.webhook) && u.community == Or(it.community, d.community)
            && u.version == Or(it.version, d.version)
  {
    UsableHasHost(it);
  }

  lemma NameHonestIff(d: Device, it: Entry)
    requires Usable(it)
    ensures Fresh(Strip(it.name), d.name) == Written(Or(FileName(it), d.name), d.name) <==> |Strip(it.name)| <= 255
  {
    hide Strip;
  }

  lemma HostHonestIff(d: Device, it: Entry)
    requires Usable(it)
    ensures Fresh(FileHost(it), Lower(d.host))
         == Written(if StoredHost(it) == Lower(d.host) then d.host else StoredHost(it), d.host)
       <==> Uncut(it)
  {
    FileHostClean(it);
    UsableHasHost(it);
    if !Uncut(it) { CutHostIsShorter(it); }
    hide FileHost, StoredHost;
  }

  lemma CutHostIsShorter(it: Entry)
    requires it.Item? && !Uncut(it)
    ensures |StoredHost(it)| < |FileHost(it)|
  {
    var c := Cut(FileHost(it), HOSTNAME_MAX);
    StripShrinks(c);
  }

  lemma GroupHonestIff(d: Device, it: Entry, fallback: string)
    requires it.Item?
    ensures Fresh(Strip(it.group), d.group) == Written(Or(FileGroup(it, fallback), d.group), d.group)
       <==> if Strip(it.group) != "" then |Strip(it.group)| <= 255
            else Cut(fallback, 255) == "" || Cut(fallback, 255) == d.group
  {
    hide Strip;
  }

  /** The names listed are the names appended exactly when each side's are
      accounted for by the other. */
  lemma SensorsHonestIff(d: Device, specs: seq<Spec>)
    ensures ShownSensors(d, specs) == LowerNames(AllAdded(d.sensors, specs)) <==> SensorsTold(d, specs)
  {
    var shown, added := ShownSensors(d, specs), AppendedNames(d, specs);
    AppendedNamesAreAdded(d, specs);
    hide Strip, Lower, Lookup, SaysTooMuch, LowerNames, AllAdded, SpecName, Cut;
    ListedIff(d, specs);
    AppendedIff(d, specs);
    assert shown == added <==> shown <= added && added <= shown;
  }

  function AppendedNames(d: Device, specs: seq<Spec>): set<string> {
    set j | 0 <= j < |specs| && Appends(d, specs[j]) :: Lower(SpecName(specs[j]))
  }

  lemma ListedIff(d: Device, specs: seq<Spec>)
    ensures ShownSensors(d, specs) <= AppendedNames(d, specs) <==>
              forall i | 0 <= i < |specs| && Lookup(d.sensors, Key(specs[i].name)).None? ::
                exists j :: 0 <= j < |specs| && Named(specs[j]) && !SaysTooMuch(specs[j]) && Lower(SpecName(specs[j])) == Key(specs[i].name)
  {
    hide Strip, Lower, Lookup, SaysTooMuch, SpecName, Key;
    var shown, added := ShownSensors(d, specs), AppendedNames(d, specs);
    if shown <= added {
      forall i | 0 <= i < |specs| && Lookup(d.sensors, Key(specs[i].name)).None?
        ensures exists j :: 0 <= j < |specs| && Named(specs[j]) && !SaysTooMuch(specs[j]) && Lower(SpecName(specs[j])) == Key(specs[i].name)
      {
        assert Key(specs[i].name) in shown;
      }
    }
  }

  lemma AppendedIff(d: Device, specs: seq<Spec>)
    ensures AppendedNames(d, specs) <= ShownSensors(d, specs) <==>
              forall j | 0 <= j < |specs| && Appends(d, specs[j]) && |Strip(specs[j].name)| > 255 ::
                exists i :: 0 <= i < |specs| && Key(specs[i].name) == Lower(SpecName(specs[j]))
  {
    var shown, added := ShownSensors(d, specs), AppendedNames(d, specs);
    forall j | 0 <= j < |specs| ensures |Strip(specs[j].name)| <= 255 ==> Lower(SpecName(specs[j])) == Key(specs[j].name) {
      UncutName(specs[j]);
    }
    hide Strip, Lower, Lookup, SaysTooMuch, SpecName, Key;
    if added <= shown {
      forall j | 0 <= j < |specs| && Appends(d, specs[j]) && |Strip(specs[j].name)| > 255
        ensures exists i :: 0 <= i < |specs| && Key(specs[i].name) == Lower(SpecName(specs[j]))
      {
        assert Lower(SpecName(specs[j])) in added;
      }
    }
  }

  lemma UncutName(s: Spec)
    ensures |Strip(s.name)| <= 255 ==> Lower(SpecName(s)) == Key(s.name)
  {
  }

  lemma {:induction false} AppendedNamesAreAdded(d: Device, specs: seq<Spec>)
    ensures AppendedNames(d, specs) == LowerNames(AllAdded(d.sensors, specs))
  {
    hide AppendedNames, AddedBy, Appends, SpecName, Lower;
    AppendedNamesGrow(d, specs);
    if specs != [] {
      var n := |specs| - 1;
      AppendedNamesAreAdded(d, specs[..n]);
      AddedIffAppends(d, specs[n]);
      LowerNamesOfBoth(AllAdded(d.sensors, specs[..n]), AddedBy(d.sensors, specs[n]));
    }
  }

  lemma AddedIffAppends(d: Device, s: Spec)
    ensures var a := AddedBy(d.sensors, s);
            if Appends(d, s) then |a| == 1 && a[0].name == SpecName(s) else a == []
  {
    hide SaysTooMuch, Lookup, Lower, SpecName;
  }

  lemma AppendedNamesGrow(d: Device, specs: seq<Spec>)
    ensures specs == [] ==> AppendedNames(d, specs) == {}
    ensures specs != [] ==>
              var n := |specs| - 1;
              AppendedNames(d, specs) == AppendedNames(d, specs[..n]) + if Appends(d, specs[n]) then {Lower(SpecName(specs[n]))} else {}
  {
    hide Appends, SpecName, Lower;
    if specs != [] {
      var n := |specs| - 1;
      var front, all := AppendedNames(d, specs[..n]), AppendedNames(d, specs);
      forall x | x in all ensures x in front || (Appends(d, specs[n]) && x == Lower(SpecName(specs[n]))) {
        var j :| 0 <= j < |specs| && Appends(d, specs[j]) && x == Lower(SpecName(specs[j]));
        if j < n { assert specs[..n][j] == specs[j]; }
      }
      forall x | x in front ensures x in all {
        var j :| 0 <= j < n && Appends(d, specs[..n][j]) && x == Lower(SpecName(specs[..n][j]));
        assert specs[..n][j] == specs[j];
      }
    }
  }

  lemma LowerNamesOfBoth(front: seq<Sensor>, last: seq<Sensor>)
    requires |last| <= 1
    ensures LowerNames(front + last) == LowerNames(front) + if last == [] then {} else {Lower(last[0].name)}
  {
    assert if last == [] then front + last == front else (front + last)[..|front|] == front;
  }

  /** Why matches must not be shared: an entry that only renames its device is
      not told once an earlier entry has renamed that device. */
  lemma SharedMatchMisleads(d: Device, a: Entry, b: Entry, fallback: string)
    requires Usable(a) && Usable(b) && FileName(b) == Strip(b.name) == d.name != FileName(a)
    ensures Diff(d, b).name == None && Changes(Touch(d, a, fallback), Touch(Touch(d, a, fallback), b, fallback)).name == Some(d.name)
  {
    hide Strip, Lower, Merge, FileHost, StoredHost, FileExt, FileGroup;
  }
}
