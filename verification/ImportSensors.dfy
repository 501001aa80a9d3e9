/** The sensor half of the bulk importer: cleaning names, filtering the fields a
    file may set, and merging a file's sensors into a device by name. */
module ImportSensors {
  import opened Options
  import opened Text

  const NAME_MAX := 255

  // ------------------------------------------------------------- entities

  datatype Sensor = Sensor(name: string, stype: string, fields: map<string, string>)

  /** A parsed sensor; "" stands for a missing or empty value. */
  datatype Spec = Spec(name: string, stype: string, fields: map<string, string>)

  // -------------------------------------------------------------- sensors

  function Allowed(stype: string): Option<set<string>> {
    match stype
    case "ping" => Some({})
    case "tcp" => Some({"port"})
    case "http" => Some({"port", "url", "verify_ssl", "http_expected_status", "keyword", "keyword_case"})
    case "http_keyword" => Some({"port", "url", "verify_ssl", "keyword", "keyword_case"})
    case "tls" => Some({"port"})
    case "snmp" => Some({"port", "snmp_community", "snmp_version", "snmp_oid", "snmp_unit"})
    case "banner" => Some({"port", "banner_regex"})
    case "dns" => Some({"port", "dns_query", "dns_record_type", "dns_server"})
    case "vmware" => Some({"vmware_user", "vmware_password", "vmware_vm_id", "vmware_vm_name", "vmware_metric"})
    case "smtp" => Some({"port", "smtp_tls", "smtp_user", "smtp_password", "smtp_from", "smtp_rcpt", "smtp_test_level"})
    case "ssh" => Some({"port", "ssh_user", "ssh_password", "ssh_private_key", "ssh_auth_type", "ssh_test_level"})
    case "sftp" => Some({"port", "sftp_user", "sftp_password", "sftp_private_key", "sftp_auth_type",
                         "sftp_test_level", "sftp_remote_path", "sftp_expected_sha256"})
    case "radius" => Some({"port", "radius_secret", "radius_test_level", "radius_username", "radius_password", "radius_nas_id"})
    case _ => None
  }

  function Defaults(stype: string): map<string, string> {
    match stype
    case "snmp" => map["snmp_community" := "public", "snmp_version" := "2c", "snmp_oid" := "1.3.6.1.2.1.1.3.0"]
    case "smtp" => map["smtp_test_level" := "ehlo", "smtp_tls" := "starttls"]
    case "ssh" => map["ssh_test_level" := "banner", "ssh_auth_type" := "password"]
    case "sftp" => map["sftp_test_level" := "open", "sftp_auth_type" := "password"]
    case "radius" => map["radius_test_level" := "reachable"]
    case _ => map[]
  }

  function Stype(s: Spec): string {
    var t := Lower(Strip(s.stype));
    if Allowed(t).Some? then t else "ping"
  }

  function Kwargs(s: Spec): map<string, string> {
    var allowed := Allowed(Stype(s));
    Defaults(Stype(s)) + map k | k in s.fields && allowed.Some? && k in allowed.value && s.fields[k] != "" :: s.fields[k]
  }

  /** What the sensor constructor has no parameter for. */
  const UNKNOWN := {"dns_query", "dns_record_type", "dns_server", "http_expected_status"}

  /** The constructor takes these arguments; otherwise the add raises and is logged away. */
  predicate Addable(s: Spec) { Kwargs(s).Keys !! UNKNOWN }

  predicate Fills(s: Spec, field: string) { field in s.fields && s.fields[field] != "" }

  /** The file says of a sensor what the sensor constructor cannot be told. */
  predicate SaysTooMuch(s: Spec) {
    || (Stype(s) == "dns" && (Fills(s, "dns_query") || Fills(s, "dns_record_type") || Fills(s, "dns_server")))
    || (Stype(s) == "http" && Fills(s, "http_expected_status"))
  }

  /** An imported sensor never carries a field outside its type's list, and it
      can be added exactly when the file does not fill in what to ask a DNS
      server, nor the status expected of an HTTP one. */
  lemma AddableIff(s: Spec)
    ensures Allowed(Stype(s)).Some? && Kwargs(s).Keys <= Allowed(Stype(s)).value
    ensures Addable(s) <==> !SaysTooMuch(s)
  {
    StypeIsListed(s);
    DefaultsAreListed(Stype(s));
    DefaultsAreKnown(Stype(s));
    UnknownFields(Stype(s));
    var t, ks := Stype(s), Kwargs(s).Keys;
    hide Stype, Allowed, Defaults;
    assert forall k | k in UNKNOWN :: k in ks <==> k in Allowed(t).value && Fills(s, k);
    assert ks * UNKNOWN == set k | k in UNKNOWN && k in Allowed(t).value && Fills(s, k);
  }

  /** The type is the file's, stripped and lower-cased, if it is one of these. */
  lemma StypeIsTheFiles(s: Spec)
    ensures var t := Lower(Strip(s.stype));
            Stype(s) == if t in ["ping", "tcp", "http", "http_keyword", "tls", "snmp", "banner", "dns", "vmware", "smtp", "ssh",
                                 "sftp", "radius"] then t else "ping"
  {
    TypeList(Lower(Strip(s.stype)));
    hide Allowed, Lower, Strip;
  }

  lemma TypeList(t: string)
    ensures Allowed(t).Some? <==>
              t in ["ping", "tcp", "http", "http_keyword", "tls", "snmp", "banner", "dns", "vmware", "smtp", "ssh", "sftp", "radius"]
  {
  }

  /** The defaults, type by type. */
  lemma DefaultValues(t: string)
    ensures Defaults(t) ==
              if t == "snmp" then map["snmp_community" := "public", "snmp_version" := "2c", "snmp_oid" := "1.3.6.1.2.1.1.3.0"]
              else if t == "smtp" then map["smtp_test_level" := "ehlo", "smtp_tls" := "starttls"]
              else if t == "ssh" then map["ssh_test_level" := "banner", "ssh_auth_type" := "password"]
              else if t == "sftp" then map["sftp_test_level" := "open", "sftp_auth_type" := "password"]
              else if t == "radius" then map["radius_test_level" := "reachable"]
              else map[]
  {
  }

  /** The file fills in a field of the type's list. */
  predicate Says(s: Spec, k: string) {
    Allowed(Stype(s)).Some? && k in Allowed(Stype(s)).value && Fills(s, k)
  }

  /** The file's word prevails: a listed field it fills has its value, any other
      field is there exactly if the type has a default for it, with that. */
  lemma FilePrevails(s: Spec, k: string)
    ensures Says(s, k) ==> k in Kwargs(s) && Kwargs(s)[k] == s.fields[k]
    ensures !Says(s, k) ==> (k in Kwargs(s) <==> k in Defaults(Stype(s)))
    ensures !Says(s, k) && k in Defaults(Stype(s)) ==> Kwargs(s)[k] == Defaults(Stype(s))[k]
  {
    hide Stype, Allowed, Defaults;
  }

  lemma DefaultsAreKnown(t: string)
    ensures Defaults(t).Keys !! UNKNOWN
  {
  }

  lemma UnknownFields(t: string)
    requires Allowed(t).Some?
    ensures Allowed(t).value * UNKNOWN ==
              if t == "dns" then {"dns_query", "dns_record_type", "dns_server"}
              else if t == "http" then {"http_expected_status"}
              else {}
  {
  }

  lemma StypeIsListed(s: Spec)
    ensures Allowed(Stype(s)).Some?
  {
    var t := Lower(Strip(s.stype));
    assert Allowed("ping") == Some({});
    hide Allowed, Lower, Strip;
  }

  lemma DefaultsAreListed(stype: string)
    requires Allowed(stype).Some?
    ensures Defaults(stype).Keys <= Allowed(stype).value
  {
  }

  function Key(name: string): string { Lower(Strip(name)) }
  function SpecName(s: Spec): string { Cut(Strip(s.name), NAME_MAX) }

  /** The position of the last sensor with a key: the by-name map's answer. */
  function Lookup(cur: seq<Sensor>, key: string): (r: Option<nat>)
    ensures r.Some? ==> r.value < |cur| && Key(cur[r.value].name) == key
    ensures forall i | (if r.Some? then r.value + 1 else 0) <= i < |cur| :: Key(cur[i].name) != key
  {
    if cur == [] then None
    else if Key(cur[|cur| - 1].name) == key then Some(|cur| - 1)
    else Lookup(cur[..|cur| - 1], key)
  }

  /** One sensor of the file, against the by-name map taken of `base`. */
  function MergeOne(base: seq<Sensor>, cur: seq<Sensor>, s: Spec): (r: seq<Sensor>)
    requires |base| <= |cur|
    ensures |cur| <= |r|
  {
    var n := SpecName(s);
    var at := Lookup(base, Lower(n));
    if n == "" then cur
    else if at.Some? then cur[at.value := cur[at.value].(fields := cur[at.value].fields + Kwargs(s))]
    else if Addable(s) then cur + [Sensor(n, Stype(s), Kwargs(s))]
    else cur
  }

  function MergeFrom(base: seq<Sensor>, cur: seq<Sensor>, specs: seq<Spec>): (r: seq<Sensor>)
    requires |base| <= |cur|
    ensures |cur| <= |r|
  {
    if specs == [] then cur
    else MergeOne(base, MergeFrom(base, cur, specs[..|specs| - 1]), specs[|specs| - 1])
  }

  function Merge(cur: seq<Sensor>, specs: seq<Spec>): seq<Sensor> { MergeFrom(cur, cur, specs) }

  predicate Named(s: Spec) { SpecName(s) != "" }

  /** A new device calls its unnamed sensors "Sensor". */
  function Filled(specs: seq<Spec>): (r: seq<Spec>)
    ensures |r| == |specs|
  {
    seq(|specs|, i requires 0 <= i < |specs| => if Named(specs[i]) then specs[i] else specs[i].(name := "Sensor"))
  }

  function Create(specs: seq<Spec>): seq<Sensor> { Merge([], Filled(specs)) }

  // ---------------------------------------------------- what a merge appends

  /** The sensor a file's spec adds to a device that had the sensors `base`. */
  function AddedBy(base: seq<Sensor>, s: Spec): seq<Sensor> {
    if Named(s) && Lookup(base, Lower(SpecName(s))).None? && !SaysTooMuch(s) then [Sensor(SpecName(s), Stype(s), Kwargs(s))]
    else []
  }

  function AllAdded(base: seq<Sensor>, specs: seq<Spec>): seq<Sensor> {
    if specs == [] then [] else AllAdded(base, specs[..|specs| - 1]) + AddedBy(base, specs[|specs| - 1])
  }

  /** A merge appends, in file order, exactly the named sensors the device did
      not have and whose specs do not say too much. */
  lemma {:induction false} MergeAppends(base: seq<Sensor>, specs: seq<Spec>)
    ensures |base| <= |Merge(base, specs)| && Merge(base, specs)[|base|..] == AllAdded(base, specs)
  {
    hide Kwargs, Addable, Stype, SpecName, SaysTooMuch;
    if specs != [] {
      var n := |specs| - 1;
      MergeAppends(base, specs[..n]);
      AddableIff(specs[n]);
    }
  }

  /** A new device gets every sensor of the file, unnamed ones included, whose
      spec does not say too much. */
  lemma {:induction false} CreateCounts(specs: seq<Spec>)
    ensures |Create(specs)| == |set i | 0 <= i < |specs| && !SaysTooMuch(specs[i])|
  {
    hide Kwargs, Addable, Stype, SaysTooMuch;
    MergeAppends([], Filled(specs));
    CreateCountsUpTo(specs, |specs|);
    assert Filled(specs)[..|specs|] == Filled(specs);
  }

  lemma {:induction false} CreateCountsUpTo(specs: seq<Spec>, n: nat)
    requires n <= |specs|
    ensures |AllAdded([], Filled(specs)[..n])| == |set i | 0 <= i < n && !SaysTooMuch(specs[i])|
  {
    hide Kwargs, Stype, SaysTooMuch, SpecName, Filled, Lookup;
    if n > 0 {
      var f := Filled(specs);
      CreateCountsUpTo(specs, n - 1);
      FilledSays(specs, n - 1);
      assert Lookup([], Lower(SpecName(f[n - 1]))).None?;
      assert f[..n][..n - 1] == f[..n - 1];
      var before, after := set i | 0 <= i < n - 1 && !SaysTooMuch(specs[i]), set i | 0 <= i < n && !SaysTooMuch(specs[i]);
      assert after == before + if SaysTooMuch(specs[n - 1]) then {} else {n - 1};
    }
  }

  lemma FilledSays(specs: seq<Spec>, i: nat)
    requires i < |specs|
    ensures Named(Filled(specs)[i]) && (SaysTooMuch(Filled(specs)[i]) <==> SaysTooMuch(specs[i]))
  {
    hide Allowed;
    if !Named(specs[i]) { StripShape("Sensor"); }
  }

  // ------------------------------------------------------- merging again

  /** A name the importer finds again: cutting it to 255 characters leaves no
      white space at its end. */
  predicate Findable(s: Spec) { !Named(s) || !Addable(s) || Clean(SpecName(s)) }
  predicate AllFindable(specs: seq<Spec>) { forall i | 0 <= i < |specs| :: Findable(specs[i]) }

  /** The merge keeps every sensor it had, in place, with its name and type. */
  ghost predicate Keeps(a: seq<Sensor>, b: seq<Sensor>) {
    && |a| <= |b|
    && forall i | 0 <= i < |a| :: b[i].name == a[i].name && b[i].stype == a[i].stype && a[i].fields.Keys <= b[i].fields.Keys
  }

  lemma {:induction false} MergeKeeps(base: seq<Sensor>, cur: seq<Sensor>, specs: seq<Spec>)
    requires |base| <= |cur|
    ensures Keeps(cur, MergeFrom(base, cur, specs))
  {
    hide Kwargs, Addable, Stype;
    if specs != [] { MergeKeeps(base, cur, specs[..|specs| - 1]); }
  }

  /** A spec that a merge into `cur` would not add. */
  predicate Known(cur: seq<Sensor>, s: Spec) { Named(s) && Addable(s) ==> Lookup(cur, Lower(SpecName(s))).Some? }

  lemma {:induction false} AddsNothingIffKnown(cur: seq<Sensor>, specs: seq<Spec>)
    ensures |Merge(cur, specs)| == |cur| <==> forall i | 0 <= i < |specs| :: Known(cur, specs[i])
  {
    hide Kwargs, Addable, Stype, Lookup, SpecName;
    if specs != [] {
      var pre := specs[..|specs| - 1];
      AddsNothingIffKnown(cur, pre);
      assert (forall i | 0 <= i < |specs| :: Known(cur, specs[i])) <==>
        (forall i | 0 <= i < |pre| :: Known(cur, pre[i])) && Known(cur, specs[|specs| - 1]);
    }
  }

  /** After a merge an addable sensor of the file is found again exactly when
      its shortened name is clean. */
  lemma {:induction false} KnownAfterIffFindable(base: seq<Sensor>, specs: seq<Spec>, i: nat)
    requires i < |specs|
    ensures Known(Merge(base, specs), specs[i]) <==> Findable(specs[i])
  {
    hide Kwargs, Addable, Stype, SpecName, MergeOne, Lookup, Key, Clean;
    var n, s := |specs| - 1, specs[i];
    var pre := Merge(base, specs[..n]);
    MergeKeeps(base, base, specs[..n]);
    if i < n {
      KnownAfterIffFindable(base, specs[..n], i);
      OneKeeps(base, pre, specs[n]);
      LookupKept(pre, Merge(base, specs), Lower(SpecName(s)));
      KeyClean(SpecName(s));
      LookupIsClean(Merge(base, specs), Lower(SpecName(s)));
    } else {
      OneKnown(base, pre, s);
    }
  }

  lemma OneKeeps(base: seq<Sensor>, cur: seq<Sensor>, s: Spec)
    requires |base| <= |cur|
    ensures Keeps(cur, MergeOne(base, cur, s))
  {
    hide Kwargs, Addable, Stype, SpecName, Lower;
  }

  /** A spec just merged is known exactly if its name is findable. */
  lemma OneKnown(base: seq<Sensor>, cur: seq<Sensor>, s: Spec)
    requires Keeps(base, cur)
    ensures Known(MergeOne(base, cur, s), s) <==> Findable(s)
  {
    hide Kwargs, Addable, Stype, SpecName, Key, Clean, Lookup;
    var next, key := MergeOne(base, cur, s), Lower(SpecName(s));
    KeyClean(SpecName(s));
    LookupIsClean(next, key);
    if Named(s) && Addable(s) {
      if Lookup(base, key).Some? {
        LookupIsClean(base, key);
        LookupByNames(cur, next, key);
        LookupKept(base, cur, key);
      } else {
        LookupAppend(cur, next[|cur|], key);
      }
    }
  }

  lemma KeyClean(n: string)
    ensures Clean(Key(n))
    ensures Clean(Lower(n)) <==> Clean(n)
    ensures Clean(n) ==> Key(n) == Lower(n)
  {
    StripShape(n);
    LowerClean(n);
    LowerClean(Strip(n));
  }

  lemma LookupIsClean(cur: seq<Sensor>, key: string)
    ensures Lookup(cur, key).Some? ==> Clean(key)
  {
    var at := Lookup(cur, key);
    if at.Some? { KeyClean(cur[at.value].name); }
  }

  lemma LookupKept(a: seq<Sensor>, b: seq<Sensor>, key: string)
    requires Keeps(a, b)
    ensures Lookup(a, key).Some? ==> Lookup(b, key).Some?
  {
  }

  /** Importing the same sensors again adds none of them exactly when every
      name is findable; the others are added once more by every run. */
  lemma MergeTwiceAddsNothingIff(base: seq<Sensor>, specs: seq<Spec>)
    ensures |Merge(Merge(base, specs), specs)| == |Merge(base, specs)| <==> AllFindable(specs)
  {
    hide Kwargs, Addable, Stype, SpecName, Merge;
    AddsNothingIffKnown(Merge(base, specs), specs);
    forall i | 0 <= i < |specs| ensures Known(Merge(base, specs), specs[i]) <==> Findable(specs[i]) {
      KnownAfterIffFindable(base, specs, i);
    }
  }

  lemma CreateThenMergeAddsNothingIff(specs: seq<Spec>)
    ensures |Merge(Create(specs), specs)| == |Create(specs)| <==> AllFindable(specs)
  {
    hide Kwargs, Addable, Stype, Merge;
    AddsNothingIffKnown(Create(specs), specs);
    forall i | 0 <= i < |specs| ensures Known(Create(specs), specs[i]) <==> Findable(specs[i]) {
      if Named(specs[i]) { KnownAfterIffFindable([], Filled(specs), i); }
    }
  }

  /** Such names exist, for every type of sensor that can be added at all: a
      word of 254 characters, a blank, and anything more. */
  lemma LongNameIsLost(s: Spec, word: string, rest: string)
    requires |word| == 254 && Clean(word) && rest != "" && Clean(rest) && s.name == word + " " + rest
    requires Addable(s)
    ensures !Findable(s)
  {
    hide Addable;
    StripShape(s.name);
    assert s.name[0] == word[0] && s.name[|s.name| - 1] == rest[|rest| - 1];
    assert SpecName(s) == word + " ";
  }

  // ------------------------------------------------------- a fixed point

  /** No other sensor of the file has this one's name. */
  predicate Alone(specs: seq<Spec>, i: nat)
    requires i < |specs|
  {
    forall j | 0 <= j < |specs| && j != i && Named(specs[j]) :: Lower(SpecName(specs[j])) != Lower(SpecName(specs[i]))
  }

  /** Distinct names, an unnamed sensor counting as "sensor". */
  predicate DistinctNames(specs: seq<Spec>) {
    forall i | 0 <= i < |specs| && Named(specs[i]) :: Alone(Filled(specs), i)
  }

  /** A spec that a merge into `cur` would change nothing for. */
  predicate Settled(cur: seq<Sensor>, s: Spec) {
    var at := Lookup(cur, Lower(SpecName(s)));
    Named(s) ==> if at.Some? then cur[at.value].fields + Kwargs(s) == cur[at.value].fields else !Addable(s)
  }

  lemma {:induction false} SettledIsFixed(cur: seq<Sensor>, specs: seq<Spec>)
    requires forall i | 0 <= i < |specs| :: Settled(cur, specs[i])
    ensures Merge(cur, specs) == cur
  {
    hide Kwargs, Addable, Stype, SpecName;
    if specs != [] {
      SettledIsFixed(cur, specs[..|specs| - 1]);
      assert Settled(cur, specs[|specs| - 1]);
    }
  }

  lemma {:induction false} LookupUnmoved(base: seq<Sensor>, specs: seq<Spec>, key: string)
    requires AllFindable(specs)
    requires forall j | 0 <= j < |specs| && Named(specs[j]) :: Lower(SpecName(specs[j])) != key
    ensures Lookup(Merge(base, specs), key) == Lookup(base, key)
  {
    hide Kwargs, Stype, SpecName, Addable;
    if specs != [] {
      var n := |specs| - 1;
      LookupUnmoved(base, specs[..n], key);
      MergeKeeps(base, base, specs[..n]);
      LookupAfterOther(base, Merge(base, specs[..n]), specs[n], key);
    }
  }

  lemma LookupAppend(cur: seq<Sensor>, x: Sensor, key: string)
    ensures Lookup(cur + [x], key) == if Key(x.name) == key then Some(|cur|) else Lookup(cur, key)
  {
    assert (cur + [x])[..|cur|] == cur;
  }

  lemma {:induction false} LookupByNames(a: seq<Sensor>, b: seq<Sensor>, key: string)
    requires |a| == |b| && forall i | 0 <= i < |a| :: a[i].name == b[i].name
    ensures Lookup(a, key) == Lookup(b, key)
  {
    hide Key;
    if a != [] { LookupByNames(a[..|a| - 1], b[..|b| - 1], key); }
  }

  /** Merging a differently named sensor moves and changes nothing under `key`. */
  lemma LookupAfterOther(base: seq<Sensor>, cur: seq<Sensor>, s: Spec, key: string)
    requires Keeps(base, cur) && Findable(s) && (Named(s) ==> Lower(SpecName(s)) != key)
    ensures var at, next := Lookup(cur, key), MergeOne(base, cur, s);
            && Lookup(next, key) == at
            && (at.Some? ==> next[at.value] == cur[at.value])
  {
    hide Kwargs, Stype, SpecName, Addable, Key, Lookup, Clean;
    KeyClean(SpecName(s));
    var next := MergeOne(base, cur, s);
    var at := Lookup(base, Lower(SpecName(s)));
    if Named(s) && at.Some? {
      assert Key(cur[at.value].name) == Lower(SpecName(s));
      LookupByNames(cur, next, key);
    } else if Named(s) && Addable(s) {
      LookupAppend(cur, next[|cur|], key);
    }
  }

  /** The sensor just merged is settled, if `cur` has moved nothing of that name. */
  lemma JustMerged(base: seq<Sensor>, cur: seq<Sensor>, s: Spec)
    requires Keeps(base, cur) && Findable(s) && Lookup(cur, Lower(SpecName(s))) == Lookup(base, Lower(SpecName(s)))
    ensures Settled(MergeOne(base, cur, s), s)
  {
    hide Kwargs, Stype, SpecName, Addable, Key, Lookup, Clean;
    KeyClean(SpecName(s));
    var next := MergeOne(base, cur, s);
    var at := Lookup(base, Lower(SpecName(s)));
    if Named(s) && at.Some? {
      LookupByNames(cur, next, Lower(SpecName(s)));
      assert next[at.value].fields + Kwargs(s) == next[at.value].fields;
    } else if Named(s) && Addable(s) {
      LookupAppend(cur, next[|cur|], Lower(SpecName(s)));
      assert next[|cur|].fields + Kwargs(s) == next[|cur|].fields;
    }
  }

  lemma {:induction false} Settles(base: seq<Sensor>, specs: seq<Spec>, i: nat)
    requires i < |specs| && AllFindable(specs) && Alone(specs, i)
    ensures Settled(Merge(base, specs), specs[i])
  {
    hide Kwargs, Stype, SpecName, Addable, Key, Lookup, Clean, MergeOne;
    var n, s := |specs| - 1, specs[i];
    var pre := Merge(base, specs[..n]);
    MergeKeeps(base, base, specs[..n]);
    if i < n {
      Settles(base, specs[..n], i);
      LookupAfterOther(base, pre, specs[n], Lower(SpecName(s)));
    } else {
      LookupUnmoved(base, specs[..n], Lower(SpecName(s)));
      JustMerged(base, pre, s);
    }
  }

  /** What becomes of the sensor a spec names, or of the new one. */
  function MergedFrom(base: seq<Sensor>, s: Spec): Sensor {
    var at := Lookup(base, Lower(SpecName(s)));
    if at.Some? then base[at.value].(fields := base[at.value].fields + Kwargs(s)) else Sensor(SpecName(s), Stype(s), Kwargs(s))
  }

  lemma {:induction false} EachIsMerged(base: seq<Sensor>, specs: seq<Spec>, i: nat)
    requires i < |specs| && AllFindable(specs) && Alone(specs, i) && Named(specs[i])
    requires Lookup(base, Lower(SpecName(specs[i]))).Some? || Addable(specs[i])
    ensures var at := Lookup(Merge(base, specs), Lower(SpecName(specs[i])));
            at.Some? && Merge(base, specs)[at.value] == MergedFrom(base, specs[i])
  {
    hide Kwargs, Stype, SpecName, Addable, Key, Lookup, Clean, MergeOne, MergedFrom;
    var n, s := |specs| - 1, specs[i];
    var pre := Merge(base, specs[..n]);
    MergeKeeps(base, base, specs[..n]);
    if i < n {
      EachIsMerged(base, specs[..n], i);
      LookupAfterOther(base, pre, specs[n], Lower(SpecName(s)));
    } else {
      LookupUnmoved(base, specs[..n], Lower(SpecName(s)));
      UntouchedSoFar(base, specs[..n], Lower(SpecName(s)));
      OneIsMerged(base, pre, s);
    }
  }

  /** A sensor no spec names keeps its fields. */
  lemma {:induction false} UntouchedSoFar(base: seq<Sensor>, specs: seq<Spec>, key: string)
    requires AllFindable(specs)
    requires forall j | 0 <= j < |specs| && Named(specs[j]) :: Lower(SpecName(specs[j])) != key
    ensures var at := Lookup(base, key);
            at.Some? ==> at.value < |Merge(base, specs)| && Merge(base, specs)[at.value] == base[at.value]
  {
    hide Kwargs, Stype, SpecName, Addable, Key, MergeOne;
    if specs != [] {
      var n := |specs| - 1;
      UntouchedSoFar(base, specs[..n], key);
      LookupUnmoved(base, specs[..n], key);
      MergeKeeps(base, base, specs[..n]);
      LookupAfterOther(base, Merge(base, specs[..n]), specs[n], key);
    }
  }

  lemma OneIsMerged(base: seq<Sensor>, cur: seq<Sensor>, s: Spec)
    requires Keeps(base, cur) && Findable(s) && Named(s)
    requires var at := Lookup(base, Lower(SpecName(s)));
             Lookup(cur, Lower(SpecName(s))) == at && (at.Some? ==> cur[at.value] == base[at.value]) && (at.Some? || Addable(s))
    ensures var next := MergeOne(base, cur, s);
            var at := Lookup(next, Lower(SpecName(s)));
            at.Some? && next[at.value] == MergedFrom(base, s)
  {
    hide Kwargs, Stype, SpecName, Addable, Key, Lookup, Clean;
    KeyClean(SpecName(s));
    var next := MergeOne(base, cur, s);
    var at := Lookup(base, Lower(SpecName(s)));
    if at.Some? {
      LookupByNames(cur, next, Lower(SpecName(s)));
    } else {
      LookupAppend(cur, next[|cur|], Lower(SpecName(s)));
    }
  }

  /** The merge, field by field, for a file with distinct findable names: the
      sensor each spec names, if it was there or can be added, ends with every
      field the file fills at the file's value; a field it does not fill has the
      type's default, if there is one, even over what was there; any other is as
      it was, and on a new sensor absent. */
  lemma MergeStoresTheFile(base: seq<Sensor>, specs: seq<Spec>, i: nat, k: string)
    requires i < |specs| && AllFindable(specs) && Alone(specs, i) && Named(specs[i])
    requires Lookup(base, Lower(SpecName(specs[i]))).Some? || !SaysTooMuch(specs[i])
    ensures var s, was := specs[i], Lookup(base, Lower(SpecName(specs[i])));
            var at := Lookup(Merge(base, specs), Lower(SpecName(s)));
            && at.Some? && (was.Some? ==> at == was)
            && var now := Merge(base, specs)[at.value];
               && (if was.Some? then now.name == base[was.value].name && now.stype == base[was.value].stype
                   else now.name == SpecName(s) && now.stype == Stype(s))
               && (if Says(s, k) then k in now.fields && now.fields[k] == s.fields[k]
                   else if k in Defaults(Stype(s)) then k in now.fields && now.fields[k] == Defaults(Stype(s))[k]
                   else if was.Some? then (k in now.fields <==> k in base[was.value].fields)
                                          && (k in now.fields ==> now.fields[k] == base[was.value].fields[k])
                   else k !in now.fields)
  {
    hide Kwargs, Stype, SpecName, Addable, Lookup, Merge, Says, SaysTooMuch, Defaults, Findable, Alone, Key, Clean;
    AddableIff(specs[i]);
    EachIsMerged(base, specs, i);
    FilePrevails(specs[i], k);
    PlaceStays(base, specs, Lower(SpecName(specs[i])), i);
  }

  /** A sensor that was there is found at the same place afterwards. */
  lemma PlaceStays(base: seq<Sensor>, specs: seq<Spec>, key: string, i: nat)
    requires i < |specs| && AllFindable(specs) && Alone(specs, i) && Named(specs[i]) && key == Lower(SpecName(specs[i]))
    ensures Lookup(base, key).Some? ==> Lookup(Merge(base, specs), key) == Lookup(base, key)
  {
    PlaceStaysUpTo(base, specs, i);
  }

  lemma {:induction false} PlaceStaysUpTo(base: seq<Sensor>, specs: seq<Spec>, i: nat)
    requires i < |specs| && AllFindable(specs) && Alone(specs, i) && Named(specs[i])
    ensures var key := Lower(SpecName(specs[i])); Lookup(base, key).Some? ==> Lookup(Merge(base, specs), key) == Lookup(base, key)
  {
    hide Kwargs, Stype, SpecName, Addable, Key, Lookup, Clean, MergeOne;
    var n, key := |specs| - 1, Lower(SpecName(specs[i]));
    var pre := Merge(base, specs[..n]);
    MergeKeeps(base, base, specs[..n]);
    if i < n {
      PlaceStaysUpTo(base, specs[..n], i);
      LookupAfterOther(base, pre, specs[n], key);
    } else {
      LookupUnmoved(base, specs[..n], key);
      if Lookup(base, key).Some? { UpdateMovesNothing(base, pre, specs[n]); }
    }
  }

  lemma UpdateMovesNothing(base: seq<Sensor>, cur: seq<Sensor>, s: Spec)
    requires Keeps(base, cur) && Named(s) && Lookup(base, Lower(SpecName(s))).Some?
    ensures Lookup(MergeOne(base, cur, s), Lower(SpecName(s))) == Lookup(cur, Lower(SpecName(s)))
  {
    hide Kwargs, SpecName, Key;
    LookupByNames(cur, MergeOne(base, cur, s), Lower(SpecName(s)));
  }

  /** The sensors of a new device: each addable spec's, in file order, under its
      name or "Sensor", with its type and its fields. */
  function NewSensors(specs: seq<Spec>): seq<Sensor> {
    if specs == [] then []
    else
      var s := specs[|specs| - 1];
      NewSensors(specs[..|specs| - 1])
      + if SaysTooMuch(s) then [] else [Sensor(if Named(s) then SpecName(s) else "Sensor", Stype(s), Kwargs(s))]
  }

  lemma {:induction false} CreateMakesThese(specs: seq<Spec>)
    ensures Create(specs) == NewSensors(specs)
  {
    hide Kwargs, Stype, SpecName, Addable, SaysTooMuch, Lookup, MergeOne;
    if specs != [] {
      var n := |specs| - 1;
      CreateMakesThese(specs[..n]);
      assert Filled(specs)[..n] == Filled(specs[..n]);
      FilledIsAdded(specs, MergeFrom([], [], Filled(specs)[..n]));
    }
  }

  lemma FilledIsAdded(specs: seq<Spec>, cur: seq<Sensor>)
    requires specs != []
    ensures var s, f := specs[|specs| - 1], Filled(specs)[|specs| - 1];
            MergeOne([], cur, f)
              == cur + if SaysTooMuch(s) then [] else [Sensor(if Named(s) then SpecName(s) else "Sensor", Stype(s), Kwargs(s))]
  {
    hide Kwargs, Stype, SaysTooMuch, SpecName, Lower, Filled, Addable;
    FilledIs(specs, |specs| - 1);
    AddableIff(Filled(specs)[|specs| - 1]);
  }

  lemma FilledIs(specs: seq<Spec>, i: nat)
    requires i < |specs|
    ensures var s, f := specs[i], Filled(specs)[i];
            && Stype(f) == Stype(s) && Kwargs(f) == Kwargs(s) && (SaysTooMuch(f) <==> SaysTooMuch(s))
            && Named(f) && SpecName(f) == if Named(s) then SpecName(s) else "Sensor"
  {
    hide Allowed, Defaults;
    if !Named(specs[i]) { StripShape("Sensor"); }
  }

  /** With distinct findable names a second import of the same sensors changes
      nothing at all, fields included. */
  lemma MergeTwiceIsOnce(base: seq<Sensor>, specs: seq<Spec>)
    requires AllFindable(specs) && DistinctNames(specs)
    ensures Merge(Merge(base, specs), specs) == Merge(base, specs)
  {
    hide Kwargs, Stype, SpecName, Addable, Merge;
    forall i | 0 <= i < |specs| ensures Settled(Merge(base, specs), specs[i]) {
      if Named(specs[i]) {
        forall j | 0 <= j < |specs| && j != i && Named(specs[j]) ensures Lower(SpecName(specs[j])) != Lower(SpecName(specs[i])) {
          assert Filled(specs)[j] == specs[j];
        }
        Settles(base, specs, i);
      }
    }
    SettledIsFixed(Merge(base, specs), specs);
  }

  lemma CreateThenMergeIsFixed(specs: seq<Spec>)
    requires AllFindable(specs) && DistinctNames(specs)
    ensures Merge(Create(specs), specs) == Create(specs)
  {
    hide Kwargs, Stype, Merge;
    forall i | 0 <= i < |specs| ensures Settled(Create(specs), specs[i]) {
      if Named(specs[i]) { Settles([], Filled(specs), i); }
    }
    SettledIsFixed(Create(specs), specs);
  }
}
