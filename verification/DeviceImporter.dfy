/** The bulk device importer: matching a parsed file against the inventory,
    updating in place, creating what is new, and in `replace` mode deleting
    what the file does not mention.  The inventory is the insertion-ordered
    device dictionary; until orphans are deleted a run only appends, so a
    position in it stands for the device id. */
module DeviceImporter {
  import opened Options
  import opened Text
  import opened ImportSensors

  const HOSTNAME_MAX := 253

  datatype Device = Device(
    did: nat, name: string, host: string, group: string, ext: string, webhook: string, community: string,
    version: string, secondary: seq<string>, sensors: seq<Sensor>)

  /** An entry of the parsed file; "" stands for a missing or empty value. */
  datatype Entry =
    | Junk
    | Item(name: string, host: string, group: string, ext: string, webhook: string, community: string,
           version: string, sensors: seq<Spec>)

  datatype Inventory = Inventory(devices: seq<Device>, counter: nat)

  // ------------------------------------------------------ reading an entry

  predicate HostChar(c: char) {
    'a' <= c <= 'z' || 'A' <= c <= 'Z' || '0' <= c <= '9' || c == '.' || c == '-' || c == '_' || c == ':'
  }

  predicate ValidHost(h: string) {
    0 < |h| <= HOSTNAME_MAX && h[0] != '-' && forall i | 0 <= i < |h| :: HostChar(h[i])
  }

  function FileName(it: Entry): string requires it.Item? { Cut(Strip(it.name), NAME_MAX) }
  function FileHost(it: Entry): string requires it.Item? { Strip(Lower(it.host)) }
  function FileExt(it: Entry): string requires it.Item? { Strip(it.ext) }
  function FileGroup(it: Entry, fallback: string): string requires it.Item? {
    Cut(if Strip(it.group) == "" then fallback else Strip(it.group), NAME_MAX)
  }

  /** The host as stored: cut to 253 characters, then validated. */
  function StoredHost(it: Entry): string requires it.Item? { Strip(Cut(FileHost(it), HOSTNAME_MAX)) }

  predicate Usable(e: Entry): (r: bool)
    ensures r ==> e.Item?
  {
    e.Item? && FileName(e) != "" && ValidHost(StoredHost(e))
  }

  /** A host that the cut leaves alone. */
  predicate Uncut(e: Entry) { e.Item? ==> |FileHost(e)| <= 253 }

  /** What a host may look like: 1 to 253 letters, digits, dots, dashes,
      underscores and colons, no dash first. */
  lemma HostRules(h: string)
    ensures ValidHost(h) <==>
              1 <= |h| <= 253 && h[0] != '-'
              && forall i | 0 <= i < |h| ::
                   h[i] in "abcdefghijklmnopqrstuvwxyz" || h[i] in "ABCDEFGHIJKLMNOPQRSTUVWXYZ" || h[i] in "0123456789" || h[i] in ".-_:"
  {
    forall c: char ensures HostChar(c) <==>
                             c in "abcdefghijklmnopqrstuvwxyz" || c in "ABCDEFGHIJKLMNOPQRSTUVWXYZ" || c in "0123456789" || c in ".-_:"
    {
      SmallLetter(c);
      Capital(c);
      DigitOrSign(c);
    }
  }

  lemma SmallLetter(c: char)
    ensures 'a' <= c <= 'z' <==> c in "abcdefghijklmnopqrstuvwxyz"
  {
    if 'a' <= c <= 'z' { assert "abcdefghijklmnopqrstuvwxyz"[c as int - 'a' as int] == c; }
  }

  lemma Capital(c: char)
    ensures 'A' <= c <= 'Z' <==> c in "ABCDEFGHIJKLMNOPQRSTUVWXYZ"
  {
    if 'A' <= c <= 'Z' { assert "ABCDEFGHIJKLMNOPQRSTUVWXYZ"[c as int - 'A' as int] == c; }
  }

  lemma DigitOrSign(c: char)
    ensures '0' <= c <= '9' <==> c in "0123456789"
    ensures c == '.' || c == '-' || c == '_' || c == ':' <==> c in ".-_:"
  {
    if '0' <= c <= '9' { assert "0123456789"[c as int - '0' as int] == c; }
  }

  function ExtKey(d: Device): string { Strip(d.ext) }
  function HostKey(d: Device): string { Strip(Lower(d.host)) }

  // ------------------------------------------------------------- one entry

  function Or(v: string, cur: string): string { if v == "" then cur else v }

  /** What the file may overwrite: never with nothing, and never an external
      id that is already set. */
  function Update(d: Device, it: Entry, fallback: string): Device
    requires it.Item?
  {
    d.(name := Or(FileName(it), d.name),
       host := if StoredHost(it) == "" || StoredHost(it) == Lower(d.host) then d.host else StoredHost(it),
       group := Or(FileGroup(it, fallback), d.group),
       ext := if d.ext == "" then FileExt(it) else d.ext,
       webhook := Or(it.webhook, d.webhook), community := Or(it.community, d.community), version := Or(it.version, d.version))
  }

  function Touch(d: Device, it: Entry, fallback: string): Device
    requires it.Item?
  {
    Update(d, it, fallback).(sensors := Merge(d.sensors, it.sensors))
  }

  function New(did: nat, it: Entry, fallback: string): Device
    requires it.Item?
  {
    Device(did, FileName(it), StoredHost(it), FileGroup(it, fallback), FileExt(it), it.webhook, it.community, it.version,
           [], Create(it.sensors))
  }

  function Added(v: Inventory, it: Entry, fallback: string): Inventory
    requires it.Item?
  {
    Inventory(v.devices + [New(v.counter + 1, it, fallback)], v.counter + 1)
  }

  // -------------------------------------------------------------- matching

  /** The first position holding a key. */
  function First(keys: seq<string>, key: string): (r: Option<nat>)
    ensures r.Some? ==> r.value < |keys| && keys[r.value] == key && forall i | 0 <= i < r.value :: keys[i] != key
    ensures r.None? ==> key !in keys
  {
    if keys == [] then None
    else
      var r := First(keys[..|keys| - 1], key);
      if r.Some? then r else if keys[|keys| - 1] == key then Some(|keys| - 1) else None
  }

  function ExtKeys(ds: seq<Device>): seq<string> { seq(|ds|, i requires 0 <= i < |ds| => ExtKey(ds[i])) }
  function HostKeys(ds: seq<Device>): seq<string> { seq(|ds|, i requires 0 <= i < |ds| => HostKey(ds[i])) }

  function ByExt(ds: seq<Device>, ext: string): Option<nat> { if ext == "" then None else First(ExtKeys(ds), ext) }
  function ByHost(ds: seq<Device>, host: string): Option<nat> { if host == "" then None else First(HostKeys(ds), host) }

  function Match(ds: seq<Device>, e: Entry): (r: Option<nat>)
    ensures r.Some? ==> r.value < |ds|
  {
    if e.Junk? then None
    else
      var byExt := ByExt(ds, FileExt(e));
      if byExt.Some? then byExt else ByHost(ds, FileHost(e))
  }

  function Plan(ds: seq<Device>, items: seq<Entry>): (r: seq<Option<nat>>)
    ensures |r| == |items| && Fits(r, ds)
  {
    seq(|items|, i requires 0 <= i < |items| => Match(ds, items[i]))
  }

  predicate Fits(plan: seq<Option<nat>>, ds: seq<Device>) {
    forall i | 0 <= i < |plan| :: plan[i].Some? ==> plan[i].value < |ds|
  }

  // ------------------------------------------------------------- whole run

  function Apply(v: Inventory, at: Option<nat>, e: Entry, fallback: string): (r: Inventory)
    requires at.Some? ==> at.value < |v.devices|
    ensures |v.devices| <= |r.devices|
  {
    if !Usable(e) then v
    else if at.Some? then v.(devices := v.devices[at.value := Touch(v.devices[at.value], e, fallback)])
    else Added(v, e, fallback)
  }

  function Fold(v: Inventory, plan: seq<Option<nat>>, items: seq<Entry>, fallback: string): (r: Inventory)
    requires |plan| == |items| && Fits(plan, v.devices)
    ensures |v.devices| <= |r.devices|
  {
    if items == [] then v
    else
      var n := |items| - 1;
      Apply(Fold(v, plan[..n], items[..n], fallback), plan[n], items[n], fallback)
  }

  /** The `add_update` import: match everything first, then apply. */
  function Import(v: Inventory, items: seq<Entry>, fallback: string): Inventory {
    Fold(v, Plan(v.devices, items), items, fallback)
  }

  /** The position entry `k` updates or creates. */
  function Slot(v: Inventory, plan: seq<Option<nat>>, items: seq<Entry>, fallback: string, k: nat): nat
    requires |plan| == |items| && Fits(plan, v.devices) && k < |items|
  {
    if plan[k].Some? then plan[k].value else |Fold(v, plan[..k], items[..k], fallback).devices|
  }

  /** No two usable entries match the same device. */
  ghost predicate NoSharedMatch(plan: seq<Option<nat>>, items: seq<Entry>)
    requires |plan| == |items|
  {
    forall i, j | 0 <= i < j < |items| :: Usable(items[i]) && Usable(items[j]) && plan[i].Some? ==> plan[i] != plan[j]
  }

  ghost predicate Untargeted(plan: seq<Option<nat>>, items: seq<Entry>, p: nat)
    requires |plan| == |items|
  {
    forall j | 0 <= j < |items| :: Usable(items[j]) ==> plan[j] != Some(p)
  }

  lemma {:induction false} UntargetedIsUntouched(v: Inventory, plan: seq<Option<nat>>, items: seq<Entry>, fallback: string, p: nat)
    requires |plan| == |items| && Fits(plan, v.devices) && p < |v.devices| && Untargeted(plan, items, p)
    ensures Fold(v, plan, items, fallback).devices[p] == v.devices[p]
  {
    hide Usable, Touch, New;
    if items != [] {
      var n := |items| - 1;
      UntargetedIsUntouched(v, plan[..n], items[..n], fallback, p);
    }
  }

  lemma {:induction false} SlotBound(v: Inventory, plan: seq<Option<nat>>, items: seq<Entry>, fallback: string, k: nat)
    requires |plan| == |items| && Fits(plan, v.devices) && k < |items| && Usable(items[k])
    ensures plan[k].None? ==> |v.devices| <= Slot(v, plan, items, fallback, k)
    ensures Slot(v, plan, items, fallback, k) < |Fold(v, plan, items, fallback).devices|
    ensures forall j | k < j < |items| :: Usable(items[j]) ==> Slot(v, plan, items, fallback, j) != Slot(v, plan, items, fallback, k) || plan[j].Some?
  {
    hide Usable, Touch, New;
    var n := |items| - 1;
    if k < n {
      SlotBound(v, plan[..n], items[..n], fallback, k);
      assert items[..n][..k] == items[..k] && plan[..n][..k] == plan[..k];
      forall j | k < j < |items| && Usable(items[j]) && plan[j].None?
        ensures Slot(v, plan, items, fallback, j) != Slot(v, plan, items, fallback, k)
      {
        SlotBound(v, plan[..j], items[..j], fallback, k);
        assert items[..j][..k] == items[..k] && plan[..j][..k] == plan[..k];
      }
    }
  }

  /** The device an entry leaves behind, if no other entry targets it. */
  ghost predicate Placed(v: Inventory, d: Device, at: Option<nat>, it: Entry, fallback: string) {
    && it.Item?
    && if at.Some? then at.value < |v.devices| && d == Touch(v.devices[at.value], it, fallback)
       else exists did :: d == New(did, it, fallback)
  }

  lemma {:induction false} EntryIsPlaced(v: Inventory, plan: seq<Option<nat>>, items: seq<Entry>, fallback: string, k: nat)
    requires |plan| == |items| && Fits(plan, v.devices) && k < |items| && Usable(items[k]) && NoSharedMatch(plan, items)
    ensures Slot(v, plan, items, fallback, k) < |Fold(v, plan, items, fallback).devices|
    ensures Placed(v, Fold(v, plan, items, fallback).devices[Slot(v, plan, items, fallback, k)], plan[k], items[k], fallback)
  {
    hide Touch, New;
    var n := |items| - 1;
    SlotBound(v, plan, items, fallback, k);
    if k < n {
      EntryIsPlaced(v, plan[..n], items[..n], fallback, k);
      assert items[..n][..k] == items[..k] && plan[..n][..k] == plan[..k];
    } else if plan[k].Some? {
      UntargetedIsUntouched(v, plan[..n], items[..n], fallback, plan[k].value);
    }
  }

  /** Where a device of the result comes from. */
  ghost predicate From(v: Inventory, plan: seq<Option<nat>>, items: seq<Entry>, fallback: string, r: nat)
    requires |plan| == |items| && Fits(plan, v.devices)
  {
    var ds := Fold(v, plan, items, fallback).devices;
    && r < |ds|
    && ((r < |v.devices| && Untargeted(plan, items, r) && ds[r] == v.devices[r])
        || exists k :: 0 <= k < |items| && Usable(items[k]) && Slot(v, plan, items, fallback, k) == r)
  }

  lemma {:induction false} EveryDeviceIsFrom(v: Inventory, plan: seq<Option<nat>>, items: seq<Entry>, fallback: string, r: nat)
    requires |plan| == |items| && Fits(plan, v.devices) && r < |Fold(v, plan, items, fallback).devices|
    ensures From(v, plan, items, fallback, r)
  {
    hide Touch, New, Usable;
    if r < |v.devices| {
      if Untargeted(plan, items, r) {
        UntargetedIsUntouched(v, plan, items, fallback, r);
      } else {
        var k :| 0 <= k < |items| && Usable(items[k]) && plan[k] == Some(r);
        assert Slot(v, plan, items, fallback, k) == r;
      }
    } else {
      var n := |items| - 1;
      if r < |Fold(v, plan[..n], items[..n], fallback).devices| {
        EveryDeviceIsFrom(v, plan[..n], items[..n], fallback, r);
        var k :| 0 <= k < n && Usable(items[k]) && Slot(v, plan[..n], items[..n], fallback, k) == r;
        assert items[..n][..k] == items[..k] && plan[..n][..k] == plan[..k];
        assert Slot(v, plan, items, fallback, k) == r;
      } else {
        assert Slot(v, plan, items, fallback, n) == r;
      }
    }
  }

  // ------------------------------------------------- what an entry writes

  lemma FileHostClean(it: Entry)
    requires it.Item?
    ensures Clean(FileHost(it)) && NoUpper(FileHost(it)) && Lower(FileHost(it)) == FileHost(it)
    ensures Clean(StoredHost(it)) && NoUpper(StoredHost(it)) && Lower(StoredHost(it)) == StoredHost(it)
    ensures StoredHost(it) == FileHost(it) <==> Uncut(it)
    ensures |StoredHost(it)| <= HOSTNAME_MAX
  {
    StripShrinks(Cut(FileHost(it), HOSTNAME_MAX));
    StripShape(Lower(it.host));
    StripKeepsLower(Lower(it.host));
    StripKeepsLower(FileHost(it));
    StripShape(FileHost(it));
    StripShape(Cut(FileHost(it), HOSTNAME_MAX));
    StripKeepsLower(Cut(FileHost(it), HOSTNAME_MAX));
    StripKeepsLower(StoredHost(it));
  }

  /** After an update or a creation the device answers to the stored host. */
  lemma WrittenHost(d: Device, did: nat, it: Entry, fallback: string)
    requires Usable(it)
    ensures HostKey(Touch(d, it, fallback)) == StoredHost(it) == HostKey(New(did, it, fallback))
  {
    FileHostClean(it);
    StripShape(StoredHost(it));
  }

  lemma WrittenExt(d: Device, did: nat, it: Entry, fallback: string)
    requires it.Item?
    ensures ExtKey(Touch(d, it, fallback)) == if d.ext == "" then FileExt(it) else ExtKey(d)
    ensures ExtKey(New(did, it, fallback)) == FileExt(it)
  {
    StripShape(it.ext);
    StripShape(FileExt(it));
  }

  /** Writing the same entry again changes no field of the device. */
  lemma TouchTwice(d: Device, did: nat, it: Entry, fallback: string)
    requires Usable(it)
    ensures var t := Touch(d, it, fallback); Update(t, it, fallback) == t
    ensures var c := New(did, it, fallback); Update(c, it, fallback) == c
  {
    FileHostClean(it);
  }

  // ------------------------------------------------- the second run's matches

  /** A batch whose usable entries have distinct hosts and distinct external ids
      and match distinct devices. */
  ghost predicate WellFormed(v: Inventory, items: seq<Entry>) {
    && NoSharedMatch(Plan(v.devices, items), items)
    && (forall i, j | 0 <= i < |items| && 0 <= j < |items| && i != j && Usable(items[i]) && Usable(items[j]) ::
          && FileHost(items[i]) != FileHost(items[j])
          && (FileExt(items[i]) != "" ==> FileExt(items[i]) != FileExt(items[j])))
  }

  /** The external id an entry leaves on the device it touches. */
  function LeftExt(v: Inventory, at: Option<nat>, it: Entry): string
    requires it.Item? && (at.Some? ==> at.value < |v.devices|)
  {
    if at.Some? && v.devices[at.value].ext != "" then ExtKey(v.devices[at.value]) else FileExt(it)
  }

  /** After the run the entry's device carries the entry's external id. */
  predicate KnownById(v: Inventory, it: Entry)
    requires it.Item?
  {
    FileExt(it) != "" && LeftExt(v, Match(v.devices, it), it) == FileExt(it)
  }

  /** Another entry's cut host is this entry's host, on an earlier device. */
  ghost predicate Overshadowed(v: Inventory, items: seq<Entry>, fallback: string, k: nat)
    requires k < |items| && items[k].Item?
  {
    var plan := Plan(v.devices, items);
    exists j :: 0 <= j < |items| && j != k && Usable(items[j]) && StoredHost(items[j]) == FileHost(items[k])
                && Slot(v, plan, items, fallback, j) < Slot(v, plan, items, fallback, k)
  }

  /** What an entry's slot holds after the run. */
  lemma SlotKeys(v: Inventory, items: seq<Entry>, fallback: string, k: nat)
    requires WellFormed(v, items) && k < |items| && Usable(items[k])
    ensures var plan, w := Plan(v.devices, items), Import(v, items, fallback).devices;
            var q := Slot(v, plan, items, fallback, k);
            && q < |w| && (plan[k].None? ==> |v.devices| <= q)
            && HostKey(w[q]) == StoredHost(items[k])
            && ExtKey(w[q]) == LeftExt(v, plan[k], items[k])
  {
    hide Touch, New, Fold, ExtKey, HostKey, FileHost, FileExt, First, Match;
    var plan, it, w := Plan(v.devices, items), items[k], Import(v, items, fallback).devices;
    var q := Slot(v, plan, items, fallback, k);
    EntryIsPlaced(v, plan, items, fallback, k);
    SlotBound(v, plan, items, fallback, k);
    if plan[k].Some? {
      WrittenHost(v.devices[q], 0, it, fallback);
      WrittenExt(v.devices[q], 0, it, fallback);
    } else {
      var did :| w[q] == New(did, it, fallback);
      WrittenHost(w[q], did, it, fallback);
      WrittenExt(w[q], did, it, fallback);
    }
  }

  /** Another device of the result carries entry `k`'s external id only if it
      already did and was left alone; it carries `k`'s host only if it already
      did and was left alone, or if it is that of an entry whose cut host this is. */
  lemma KeyOfOther(v: Inventory, items: seq<Entry>, fallback: string, k: nat, r: nat)
    requires WellFormed(v, items) && k < |items| && Usable(items[k])
    requires r < |Import(v, items, fallback).devices| && r != Slot(v, Plan(v.devices, items), items, fallback, k)
    ensures var plan, d := Plan(v.devices, items), Import(v, items, fallback).devices[r];
            && (HostKey(d) == FileHost(items[k]) ==>
                  || (r < |v.devices| && Untargeted(plan, items, r) && HostKey(v.devices[r]) == HostKey(d))
                  || exists j :: 0 <= j < |items| && j != k && Usable(items[j]) && Slot(v, plan, items, fallback, j) == r
                                 && StoredHost(items[j]) == FileHost(items[k]))
            && (ExtKey(d) == FileExt(items[k]) != "" ==> r < |v.devices| && ExtKey(v.devices[r]) == ExtKey(d))
  {
    hide Touch, New, Fold, ExtKey, HostKey, Match, Plan, FileHost, FileExt, Slot;
    var plan := Plan(v.devices, items);
    EveryDeviceIsFrom(v, plan, items, fallback, r);
    if j :| 0 <= j < |items| && Usable(items[j]) && Slot(v, plan, items, fallback, j) == r {
      SlotKeys(v, items, fallback, j);
      SlotOfMatch(v, plan, items, fallback, j);
    }
  }

  /** An entry with a match has its slot there. */
  lemma SlotOfMatch(v: Inventory, plan: seq<Option<nat>>, items: seq<Entry>, fallback: string, j: nat)
    requires |plan| == |items| && Fits(plan, v.devices) && j < |items|
    ensures plan[j].Some? ==> Slot(v, plan, items, fallback, j) == plan[j].value
  {
  }

  lemma FirstIs(keys: seq<string>, key: string, q: nat)
    requires q < |keys| && keys[q] == key && forall i | 0 <= i < q :: keys[i] != key
    ensures First(keys, key) == Some(q)
  {
  }

  lemma MatchIs(ds: seq<Device>, it: Entry)
    requires it.Item?
    ensures Match(ds, it) == if ByExt(ds, FileExt(it)).Some? then ByExt(ds, FileExt(it)) else ByHost(ds, FileHost(it))
  {
  }

  /** The first run's match, key by key. */
  lemma MatchedBy(v: Inventory, it: Entry)
    requires it.Item?
    ensures var at := Match(v.devices, it);
            if ByExt(v.devices, FileExt(it)).Some?
            then at == ByExt(v.devices, FileExt(it)) && LeftExt(v, at, it) == FileExt(it) != ""
            else at == ByHost(v.devices, FileHost(it)) && (at.Some? ==> ExtKey(v.devices[at.value]) != FileExt(it) || FileExt(it) == "")
  {
    hide First, FileExt, FileHost, HostKey;
    MatchIs(v.devices, it);
    var byExt := ByExt(v.devices, FileExt(it));
    if byExt.Some? {
      assert ExtKeys(v.devices)[byExt.value] == FileExt(it);
      EmptyExtKey(v.devices[byExt.value]);
    } else if FileExt(it) != "" {
      assert forall i | 0 <= i < |v.devices| :: ExtKeys(v.devices)[i] == ExtKey(v.devices[i]);
    }
  }

  lemma EmptyExtKey(d: Device)
    ensures d.ext == "" ==> ExtKey(d) == ""
  {
  }

  /** The second run finds an entry by external id exactly when its device
      carries that id, and then on that device. */
  lemma RematchByExt(v: Inventory, items: seq<Entry>, fallback: string, k: nat)
    requires WellFormed(v, items) && k < |items| && Usable(items[k])
    ensures ByExt(Import(v, items, fallback).devices, FileExt(items[k]))
         == if KnownById(v, items[k]) then Some(Slot(v, Plan(v.devices, items), items, fallback, k)) else None
  {
    var plan, it, w := Plan(v.devices, items), items[k], Import(v, items, fallback).devices;
    var q := Slot(v, plan, items, fallback, k);
    SlotKeys(v, items, fallback, k);
    MatchedBy(v, it);
    SlotOfMatch(v, plan, items, fallback, k);
    hide Touch, New, Fold, ExtKey, HostKey, FileHost, FileExt, First, WellFormed, Slot, Usable, StoredHost;
    forall r | 0 <= r < |w| && r != q
      ensures ExtKeys(w)[r] == FileExt(it) != "" ==> r < |v.devices| && ExtKeys(v.devices)[r] == FileExt(it)
    {
      KeyOfOther(v, items, fallback, k, r);
    }
    hide Match, Plan, Import, LeftExt;
    if KnownById(v, it) { FirstIs(ExtKeys(w), FileExt(it), q); }
  }

  /** Exactly when the second run matches an entry to the device the first run
      gave it: it is known there by its external id, or by its host, if that was
      not cut and no earlier device got it as another entry's cut host. */
  lemma RematchIff(v: Inventory, items: seq<Entry>, fallback: string, k: nat)
    requires WellFormed(v, items) && k < |items| && Usable(items[k])
    ensures Match(Import(v, items, fallback).devices, items[k]) == Some(Slot(v, Plan(v.devices, items), items, fallback, k))
       <==> KnownById(v, items[k]) || (Uncut(items[k]) && !Overshadowed(v, items, fallback, k))
  {
    RematchByExt(v, items, fallback, k);
    MatchIs(Import(v, items, fallback).devices, items[k]);
    UsableHasHost(items[k]);
    if !KnownById(v, items[k]) { RematchByHost(v, items, fallback, k); }
    hide Usable, Match, Fold, Slot, WellFormed, KnownById, Overshadowed, Uncut;
  }

  lemma RematchByHost(v: Inventory, items: seq<Entry>, fallback: string, k: nat)
    requires WellFormed(v, items) && k < |items| && Usable(items[k]) && !KnownById(v, items[k])
    ensures ByHost(Import(v, items, fallback).devices, FileHost(items[k])) == Some(Slot(v, Plan(v.devices, items), items, fallback, k))
       <==> Uncut(items[k]) && !Overshadowed(v, items, fallback, k)
  {
    hide Touch, New, Fold, ExtKey, HostKey, FileHost, FileExt, First, WellFormed, Slot, Usable, StoredHost, Match, Uncut;
    var plan, it, w := Plan(v.devices, items), items[k], Import(v, items, fallback).devices;
    var q := Slot(v, plan, items, fallback, k);
    SlotKeys(v, items, fallback, k);
    FileHostClean(it);
    UsableHasHost(it);
    if Overshadowed(v, items, fallback, k) {
      var j :| 0 <= j < |items| && j != k && Usable(items[j]) && StoredHost(items[j]) == FileHost(it)
               && Slot(v, plan, items, fallback, j) < q;
      SlotKeys(v, items, fallback, j);
      assert HostKeys(w)[Slot(v, plan, items, fallback, j)] == FileHost(it);
    } else {
      NoHostBefore(v, items, fallback, k);
    }
    hide KnownById, Overshadowed, Import, Plan;
    assert HostKeys(w)[q] == HostKey(w[q]);
    if HostKeys(w)[q] == FileHost(it) && forall r | 0 <= r < q :: HostKeys(w)[r] != FileHost(it) {
      FirstIs(HostKeys(w), FileHost(it), q);
    }
  }

  lemma UsableHasHost(it: Entry)
    requires Usable(it)
    ensures StoredHost(it) != "" && FileHost(it) != ""
  {
    StripShrinks(FileHost(it));
  }

  /** On the devices before an entry's slot its host is at most a cut one. */
  lemma NoHostBefore(v: Inventory, items: seq<Entry>, fallback: string, k: nat)
    requires WellFormed(v, items) && k < |items| && Usable(items[k]) && !KnownById(v, items[k])
    requires !Overshadowed(v, items, fallback, k)
    ensures var w := Import(v, items, fallback).devices;
            var q := Slot(v, Plan(v.devices, items), items, fallback, k);
            q <= |w| && forall r | 0 <= r < q :: HostKeys(w)[r] != FileHost(items[k])
  {
    var plan, it, w := Plan(v.devices, items), items[k], Import(v, items, fallback).devices;
    var q := Slot(v, plan, items, fallback, k);
    SlotKeys(v, items, fallback, k);
    MatchedBy(v, it);
    SlotOfMatch(v, plan, items, fallback, k);
    hide Touch, New, Fold, ExtKey, HostKey, FileHost, FileExt, First, WellFormed, Slot, Usable, StoredHost;
    forall r | 0 <= r < q ensures HostKeys(w)[r] != FileHost(it) {
      KeyOfOther(v, items, fallback, k, r);
      assert r < |v.devices| ==> HostKeys(v.devices)[r] == HostKey(v.devices[r]);
    }
  }

  /** Exactly when the second run creates a device for an entry: its host was
      cut, it is not known by its external id, and no device the first run left
      alone has its whole host. */
  lemma CreatedAgainIff(v: Inventory, items: seq<Entry>, fallback: string, k: nat)
    requires WellFormed(v, items) && k < |items| && Usable(items[k])
    ensures Match(Import(v, items, fallback).devices, items[k]).None?
       <==> !KnownById(v, items[k]) && !Uncut(items[k]) && !LeftAlone(v, items, FileHost(items[k]))
  {
    var plan, it, w := Plan(v.devices, items), items[k], Import(v, items, fallback).devices;
    var q := Slot(v, plan, items, fallback, k);
    RematchByExt(v, items, fallback, k);
    MatchIs(w, it);
    SlotKeys(v, items, fallback, k);
    FileHostClean(it);
    UsableHasHost(it);
    if !KnownById(v, it) {
      assert HostKeys(w)[q] == StoredHost(it);
      if LeftAlone(v, items, FileHost(it)) {
        var r :| 0 <= r < |v.devices| && Untargeted(plan, items, r) && HostKey(v.devices[r]) == FileHost(it);
        UntargetedIsUntouched(v, plan, items, fallback, r);
        assert HostKeys(w)[r] == FileHost(it);
      } else if !Uncut(it) {
        NoneHasWholeHost(v, items, fallback, k);
      }
    }
  }

  /** A device with this host that no usable entry matches. */
  ghost predicate LeftAlone(v: Inventory, items: seq<Entry>, host: string) {
    exists r :: 0 <= r < |v.devices| && Untargeted(Plan(v.devices, items), items, r) && HostKey(v.devices[r]) == host
  }

  lemma NoneHasWholeHost(v: Inventory, items: seq<Entry>, fallback: string, k: nat)
    requires WellFormed(v, items) && k < |items| && Usable(items[k]) && !Uncut(items[k])
    requires !LeftAlone(v, items, FileHost(items[k]))
    ensures ByHost(Import(v, items, fallback).devices, FileHost(items[k])).None?
  {
    hide Touch, New, Fold, ExtKey, HostKey, FileExt, FileHost, StoredHost, WellFormed, Slot, Usable, Match, First, Lower, Strip, Cut;
    var w := Import(v, items, fallback).devices;
    SlotKeys(v, items, fallback, k);
    FileHostClean(items[k]);
    forall r | 0 <= r < |w| ensures HostKeys(w)[r] != FileHost(items[k]) {
      if r != Slot(v, Plan(v.devices, items), items, fallback, k) {
        KeyOfOther(v, items, fallback, k, r);
        if j :| 0 <= j < |items| && j != k && Usable(items[j]) && Slot(v, Plan(v.devices, items), items, fallback, j) == r
                && StoredHost(items[j]) == FileHost(items[k]) {
          FileHostClean(items[j]);
        }
      }
    }
  }

  /** In particular a first import with a cut host and no external id is created
      once more by the second, and nothing else is. */
  lemma FirstImportCreatedAgainIff(items: seq<Entry>, fallback: string, k: nat)
    requires WellFormed(Inventory([], 0), items) && k < |items| && Usable(items[k])
    ensures Match(Import(Inventory([], 0), items, fallback).devices, items[k]).None? <==> !Uncut(items[k]) && FileExt(items[k]) == ""
  {
    var v := Inventory([], 0);
    CreatedAgainIff(v, items, fallback, k);
    assert Match(v.devices, items[k]).None?;
  }

  function Unmatched(plan: seq<Option<nat>>, items: seq<Entry>): set<nat>
    requires |plan| == |items|
  {
    set i | 0 <= i < |items| && Usable(items[i]) && plan[i].None?
  }

  /** A run adds one device for each usable entry without a match. */
  lemma {:induction false} RunCreates(v: Inventory, plan: seq<Option<nat>>, items: seq<Entry>, fallback: string)
    requires |plan| == |items| && Fits(plan, v.devices)
    ensures |Fold(v, plan, items, fallback).devices| == |v.devices| + |Unmatched(plan, items)|
  {
    hide Usable, Touch, New, Unmatched;
    if items == [] {
      assert Unmatched(plan, items) == {} by { UnmatchedGrows(plan, items); }
    } else {
      var n := |items| - 1;
      RunCreates(v, plan[..n], items[..n], fallback);
      UnmatchedGrows(plan, items);
    }
  }

  lemma UnmatchedGrows(plan: seq<Option<nat>>, items: seq<Entry>)
    requires |plan| == |items|
    ensures items == [] ==> Unmatched(plan, items) == {}
    ensures items != [] ==>
              var n := |items| - 1;
              var before := Unmatched(plan[..n], items[..n]);
              |Unmatched(plan, items)| == |before| + if Usable(items[n]) && plan[n].None? then 1 else 0
  {
    hide Usable;
    if items != [] {
      var n := |items| - 1;
      assert Unmatched(plan, items) == Unmatched(plan[..n], items[..n]) + if Usable(items[n]) && plan[n].None? then {n} else {};
    }
  }

  /** The smallest case: one entry, imported twice into nothing, makes two
      devices exactly when its host is cut and it has no external id. */
  lemma OneEntryTwice(it: Entry, fallback: string)
    requires Usable(it)
    ensures var v := Inventory([], 0);
            var w := Import(v, [it], fallback);
            && |w.devices| == 1
            && |Import(w, [it], fallback).devices| == if !Uncut(it) && FileExt(it) == "" then 2 else 1
  {
    hide Usable, Fold, Match, Uncut, FileExt;
    var v, items := Inventory([], 0), [it];
    var w := Import(v, items, fallback);
    NoMatchInNothing(it);
    RunCreates(v, Plan(v.devices, items), items, fallback);
    RunCreates(w, Plan(w.devices, items), items, fallback);
    FirstImportCreatedAgainIff(items, fallback, 0);
    assert Unmatched(Plan(v.devices, items), items) == {0};
    assert Unmatched(Plan(w.devices, items), items) == if Match(w.devices, it).None? then {0} else {};
  }

  lemma NoMatchInNothing(it: Entry)
    ensures Match([], it).None?
  {
  }

  /** The second run creates nothing, for a whole batch, exactly when every
      usable entry is known by its external id, or its host was not cut, or a
      device left alone has its whole host. */
  lemma SecondRunCreatesNoneIff(v: Inventory, items: seq<Entry>, fallback: string)
    requires WellFormed(v, items)
    ensures var w := Import(v, items, fallback);
            |Import(w, items, fallback).devices| == |w.devices| <==>
              forall k | 0 <= k < |items| && Usable(items[k]) ::
                KnownById(v, items[k]) || Uncut(items[k]) || LeftAlone(v, items, FileHost(items[k]))
  {
    hide Usable, Fold, Match, Uncut, KnownById, LeftAlone, WellFormed;
    var w := Import(v, items, fallback);
    var again := Plan(w.devices, items);
    RunCreates(w, again, items, fallback);
    forall k | 0 <= k < |items| && Usable(items[k])
      ensures k in Unmatched(again, items) <==> !(KnownById(v, items[k]) || Uncut(items[k]) || LeftAlone(v, items, FileHost(items[k])))
    {
      CreatedAgainIff(v, items, fallback, k);
    }
    assert |Unmatched(again, items)| == 0 <==> Unmatched(again, items) == {};
  }

  // ----------------------------------------------------------- idempotence

  /** Every usable entry is matched again to its own device. */
  ghost predicate AllSteady(v: Inventory, items: seq<Entry>, fallback: string) {
    forall k | 0 <= k < |items| && Usable(items[k]) ::
      KnownById(v, items[k]) || (Uncut(items[k]) && !Overshadowed(v, items, fallback, k))
  }

  // The sensor clauses of a batch, over its usable entries.
  predicate AllSensorsFindable(items: seq<Entry>) { forall i | 0 <= i < |items| && Usable(items[i]) :: AllFindable(items[i].sensors) }
  predicate DistinctSensorNames(items: seq<Entry>) { forall i | 0 <= i < |items| && Usable(items[i]) :: DistinctNames(items[i].sensors) }

  ghost predicate SameFields(a: Device, b: Device) { a.(sensors := []) == b.(sensors := []) }

  lemma SlotsDiffer(v: Inventory, items: seq<Entry>, fallback: string, i: nat, j: nat)
    requires i < j < |items| && WellFormed(v, items) && Usable(items[i]) && Usable(items[j])
    ensures var plan := Plan(v.devices, items); Slot(v, plan, items, fallback, i) != Slot(v, plan, items, fallback, j)
  {
    hide Usable, Match;
    var plan := Plan(v.devices, items);
    SlotBound(v, plan, items, fallback, i);
    SlotBound(v, plan, items, fallback, j);
  }

  /** What the second run's plan is, entry by entry. */
  lemma SecondPlan(v: Inventory, items: seq<Entry>, fallback: string)
    requires WellFormed(v, items) && AllSteady(v, items, fallback)
    ensures var w := Import(v, items, fallback);
            var again := Plan(w.devices, items);
            && NoSharedMatch(again, items)
            && forall k | 0 <= k < |items| && Usable(items[k]) :: again[k] == Some(Slot(v, Plan(v.devices, items), items, fallback, k))
  {
    hide Usable, Match, Fold, Slot, WellFormed, KnownById, Overshadowed, Uncut;
    var w := Import(v, items, fallback);
    var again := Plan(w.devices, items);
    forall k | 0 <= k < |items| && Usable(items[k])
      ensures again[k] == Some(Slot(v, Plan(v.devices, items), items, fallback, k))
    {
      RematchIff(v, items, fallback, k);
    }
    forall i, j | 0 <= i < j < |items| && Usable(items[i]) && Usable(items[j]) && again[i].Some? ensures again[i] != again[j] {
      SlotsDiffer(v, items, fallback, i, j);
    }
  }

  lemma {:induction false} AllMatchedAddsNone(v: Inventory, plan: seq<Option<nat>>, items: seq<Entry>, fallback: string)
    requires |plan| == |items| && Fits(plan, v.devices)
    requires forall k | 0 <= k < |items| && Usable(items[k]) :: plan[k].Some?
    ensures var w := Fold(v, plan, items, fallback); |w.devices| == |v.devices| && w.counter == v.counter
  {
    hide Usable, Touch, New;
    if items != [] {
      var n := |items| - 1;
      AllMatchedAddsNone(v, plan[..n], items[..n], fallback);
    }
  }

  /** Importing a well-formed batch twice: the second run touches each entry's
      device once more and no other. */
  lemma SecondRun(v: Inventory, items: seq<Entry>, fallback: string)
    requires WellFormed(v, items) && AllSteady(v, items, fallback)
    ensures var plan, w := Plan(v.devices, items), Import(v, items, fallback);
            var x := Import(w, items, fallback);
            && |x.devices| == |w.devices| && x.counter == w.counter
            && (forall k | 0 <= k < |items| && Usable(items[k]) ::
                  var q := Slot(v, plan, items, fallback, k);
                  q < |w.devices| && x.devices[q] == Touch(w.devices[q], items[k], fallback))
            && (forall r | 0 <= r < |w.devices| ::
                  x.devices[r] == w.devices[r]
                  || exists k :: 0 <= k < |items| && Usable(items[k]) && Slot(v, plan, items, fallback, k) == r)
  {
    hide Usable, Match, Fold, Touch, New, WellFormed, AllSteady;
    var plan, w := Plan(v.devices, items), Import(v, items, fallback);
    var again := Plan(w.devices, items);
    SecondPlan(v, items, fallback);
    AllMatchedAddsNone(w, again, items, fallback);
    var x := Import(w, items, fallback);
    forall k | 0 <= k < |items| && Usable(items[k])
      ensures var q := Slot(v, plan, items, fallback, k); q < |w.devices| && x.devices[q] == Touch(w.devices[q], items[k], fallback)
    {
      EntryIsPlaced(w, again, items, fallback, k);
    }
    forall r | 0 <= r < |w.devices| && x.devices[r] != w.devices[r]
      ensures exists k :: 0 <= k < |items| && Usable(items[k]) && Slot(v, plan, items, fallback, k) == r
    {
      EveryDeviceIsFrom(w, again, items, fallback, r);
      var k :| 0 <= k < |items| && Usable(items[k]) && Slot(w, again, items, fallback, k) == r;
    }
  }

  /** Touching once more what an entry already wrote: no field changes, and no
      sensor is added exactly when the entry's sensor names are findable. */
  lemma TouchAgain(v: Inventory, d: Device, at: Option<nat>, it: Entry, fallback: string)
    requires Usable(it) && Placed(v, d, at, it, fallback)
    ensures SameFields(Touch(d, it, fallback), d)
    ensures |Touch(d, it, fallback).sensors| == |d.sensors| <==> AllFindable(it.sensors)
    ensures AllFindable(it.sensors) && DistinctNames(it.sensors) ==> Touch(d, it, fallback) == d
  {
    hide Merge, Create, AllFindable, DistinctNames, Usable;
    var was, did: nat := if at.Some? then v.devices[at.value] else d, 0;
    if at.None? { did :| d == New(did, it, fallback); }
    TouchTwice(was, did, it, fallback);
    MergeTwiceAddsNothingIff(was.sensors, it.sensors);
    CreateThenMergeAddsNothingIff(it.sensors);
    if AllFindable(it.sensors) && DistinctNames(it.sensors) {
      MergeTwiceIsOnce(was.sensors, it.sensors);
      CreateThenMergeIsFixed(it.sensors);
    }
  }

  /** Import idempotence: if every usable entry is matched again to its own
      device, the second run creates no device and changes no device field; it
      adds no sensor exactly when every sensor name of the usable entries is
      findable. */
  lemma ImportTwice(v: Inventory, items: seq<Entry>, fallback: string)
    requires WellFormed(v, items) && AllSteady(v, items, fallback)
    ensures var w := Import(v, items, fallback);
            var x := Import(w, items, fallback);
            && |x.devices| == |w.devices| && x.counter == w.counter
            && (forall r | 0 <= r < |w.devices| :: SameFields(x.devices[r], w.devices[r]))
            && ((forall r | 0 <= r < |w.devices| :: |x.devices[r].sensors| == |w.devices[r].sensors|) <==> AllSensorsFindable(items))
            && (AllSensorsFindable(items) && DistinctSensorNames(items) ==> x == w)
  {
    hide Usable, Match, Fold, Touch, New, WellFormed, AllSteady, AllFindable, DistinctNames, Slot, Placed;
    var plan, w := Plan(v.devices, items), Import(v, items, fallback);
    var x := Import(w, items, fallback);
    SecondRun(v, items, fallback);
    forall k | 0 <= k < |items| && Usable(items[k])
      ensures var q := Slot(v, plan, items, fallback, k);
              && q < |w.devices| && SameFields(x.devices[q], w.devices[q])
              && (|x.devices[q].sensors| == |w.devices[q].sensors| <==> AllFindable(items[k].sensors))
              && (AllFindable(items[k].sensors) && DistinctNames(items[k].sensors) ==> x.devices[q] == w.devices[q])
    {
      var q := Slot(v, plan, items, fallback, k);
      assert NoSharedMatch(plan, items) by { WellFormedShares(v, items); }
      EntryIsPlaced(v, plan, items, fallback, k);
      TouchAgain(v, w.devices[q], plan[k], items[k], fallback);
    }
  }

  lemma WellFormedShares(v: Inventory, items: seq<Entry>)
    requires WellFormed(v, items)
    ensures NoSharedMatch(Plan(v.devices, items), items)
  {
  }

  // ------------------------------------------- exactly when it is idempotent

  /** No two usable entries are stored under the same host, cut or not. */
  ghost predicate DistinctStoredHosts(items: seq<Entry>) {
    forall i, j | 0 <= i < |items| && 0 <= j < |items| && i != j && Usable(items[i]) && Usable(items[j]) ::
      StoredHost(items[i]) != StoredHost(items[j])
  }

  lemma NeverOvershadowed(v: Inventory, items: seq<Entry>, fallback: string, k: nat)
    requires DistinctStoredHosts(items) && k < |items| && Usable(items[k]) && Uncut(items[k])
    ensures !Overshadowed(v, items, fallback, k)
  {
    FileHostClean(items[k]);
    hide Usable, Match, Fold, Slot;
  }

  /** What the second run matches an entry to if it is not its own device: one
      that has the entry's whole host, longer than any stored one. */
  lemma StrayMatch(v: Inventory, items: seq<Entry>, fallback: string, k: nat)
    requires WellFormed(v, items) && DistinctStoredHosts(items) && k < |items| && Usable(items[k])
    ensures var w := Import(v, items, fallback).devices;
            var at := Match(w, items[k]);
            if KnownById(v, items[k]) || Uncut(items[k]) then at == Some(Slot(v, Plan(v.devices, items), items, fallback, k))
            else at.Some? ==> HostKey(w[at.value]) == FileHost(items[k]) && |FileHost(items[k])| > HOSTNAME_MAX
  {
    var w := Import(v, items, fallback).devices;
    if KnownById(v, items[k]) || Uncut(items[k]) {
      if Uncut(items[k]) { NeverOvershadowed(v, items, fallback, k); }
      RematchIff(v, items, fallback, k);
    } else {
      RematchByExt(v, items, fallback, k);
      MatchIs(w, items[k]);
      hide Fold, Slot, WellFormed, HostKey, FileHost, Usable;
      var at := Match(w, items[k]);
      assert at.Some? ==> HostKeys(w)[at.value] == FileHost(items[k]);
    }
  }

  lemma StraysShareNoMatch(v: Inventory, items: seq<Entry>, fallback: string)
    requires WellFormed(v, items) && DistinctStoredHosts(items)
    ensures NoSharedMatch(Plan(Import(v, items, fallback).devices, items), items)
  {
    hide Usable, Match, Fold, Slot, HostKey, KnownById, Uncut, StoredHost, FileHost, FileExt, DistinctStoredHosts;
    var w := Import(v, items, fallback).devices;
    var again := Plan(w, items);
    forall i, j | 0 <= i < j < |items| && Usable(items[i]) && Usable(items[j]) && again[i].Some? ensures again[i] != again[j] {
      StrayMatch(v, items, fallback, i);
      StrayMatch(v, items, fallback, j);
      SlotKeys(v, items, fallback, i);
      SlotKeys(v, items, fallback, j);
      FileHostClean(items[i]);
      FileHostClean(items[j]);
      SlotsDiffer(v, items, fallback, i, j);
    }
  }

  /** If an entry has neither its external id on its device nor an uncut host,
      the second run creates a device or changes the host of another one. */
  lemma StrayChangesSomething(v: Inventory, items: seq<Entry>, fallback: string, k: nat)
    requires WellFormed(v, items) && DistinctStoredHosts(items) && k < |items| && Usable(items[k])
    requires !KnownById(v, items[k]) && !Uncut(items[k])
    ensures var w := Import(v, items, fallback);
            var x := Import(w, items, fallback);
            |x.devices| > |w.devices| || exists r :: 0 <= r < |w.devices| && !SameFields(x.devices[r], w.devices[r])
  {
    hide Usable, Match, Fold, Slot, KnownById, FileExt, DistinctStoredHosts, WellFormed, Touch, New, HostKey, StoredHost, FileHost;
    var w := Import(v, items, fallback);
    var again := Plan(w.devices, items);
    var x := Import(w, items, fallback);
    RunCreates(w, again, items, fallback);
    if again[k].None? {
      assert k in Unmatched(again, items);
    } else {
      StrayMatch(v, items, fallback, k);
      StraysShareNoMatch(v, items, fallback);
      EntryIsPlaced(w, again, items, fallback, k);
      SlotOfMatch(w, again, items, fallback, k);
      var r := again[k].value;
      WrittenHost(w.devices[r], 0, items[k], fallback);
      FileHostClean(items[k]);
      SameFieldsSameHost(x.devices[r], w.devices[r]);
    }
  }

  lemma SameFieldsSameHost(a: Device, b: Device)
    ensures SameFields(a, b) ==> HostKey(a) == HostKey(b)
  {
    assert SameFields(a, b) ==> a.(sensors := []).host == b.(sensors := []).host;
  }

  /** Import idempotence, exactly: for a batch whose stored hosts differ, the
      second run creates no device and changes no device field if and only if
      every usable entry has an uncut host, or an external id that its device
      carries. */
  lemma ImportTwiceIff(v: Inventory, items: seq<Entry>, fallback: string)
    requires WellFormed(v, items) && DistinctStoredHosts(items)
    ensures var w := Import(v, items, fallback);
            var x := Import(w, items, fallback);
            (|x.devices| == |w.devices| && forall r | 0 <= r < |w.devices| :: SameFields(x.devices[r], w.devices[r]))
            <==> forall k | 0 <= k < |items| && Usable(items[k]) :: Uncut(items[k]) || KnownById(v, items[k])
  {
    hide Usable, Match, Import, KnownById, DistinctStoredHosts, WellFormed, Uncut, SameFields, Overshadowed;
    if k :| 0 <= k < |items| && Usable(items[k]) && !Uncut(items[k]) && !KnownById(v, items[k]) {
      StrayChangesSomething(v, items, fallback, k);
    } else {
      forall k | 0 <= k < |items| && Usable(items[k]) && Uncut(items[k]) ensures !Overshadowed(v, items, fallback, k) {
        NeverOvershadowed(v, items, fallback, k);
      }
      ImportTwice(v, items, fallback);
    }
  }
}
