/** The API-token cache: lookups read the cache under a lock, the database
    outside it, and store the answer later.  `World` is the state request
    threads, revocations and evictions share; each event is one locked region
    or one database statement.  `hash` is the token hash function. */
module TokenCache {
  import opened Options

  const TTL: real := 300.0

  type Token = string
  type Hash = string

  datatype Row = Row(id: nat, expires: Option<real>, revoked: Option<real>)

  datatype Entry = Entry(id: nat, expires: Option<real>, hash: Hash, cachedAt: real)

  /** What a request thread does next. */
  datatype Phase = Looking | Querying | Storing(entry: Entry) | Popping | Done(accepted: bool)

  datatype Request = Request(token: Token, start: real, phase: Phase)

  datatype World = World(now: real, rows: map<Hash, Row>, cache: map<Token, Entry>, requests: map<nat, Request>)

  datatype Event =
    | Tick(d: real)
    | Create(h: Hash, row: Row)
    | Revoke(h: Hash)
    | Evict(h: Hash)
    | Begin(id: nat, token: Token)
    | Look(id: nat)
    | Query(id: nat, dbOk: bool)
    | Store(id: nat)
    | Pop(id: nat)

  function Popped(m: map<Token, Entry>, t: Token): map<Token, Entry> { m - {t} }

  function Evicted(m: map<Token, Entry>, h: Hash): map<Token, Entry> {
    map t | t in m && m[t].hash != h :: m[t]
  }

  predicate WellFormed(t: Token) { |t| >= 3 && t[..3] == "pw_" }

  predicate Past(expires: Option<real>, now: real) { expires.Some? && expires.value < now }

  /** The database's answer: the row unless missing, revoked or expired. */
  predicate RowValid(rows: map<Hash, Row>, h: Hash, now: real) {
    h in rows && rows[h].revoked.None? && !Past(rows[h].expires, now)
  }

  predicate Fresh(cache: map<Token, Entry>, t: Token, now: real) {
    t in cache && now - cache[t].cachedAt < TTL
  }

  predicate Enabled(w: World, ev: Event) {
    match ev
    case Tick(d) => d >= 0.0
    case Create(h, row) => h !in w.rows && row.revoked.None?
    case Revoke(h) => true
    case Evict(_) => true
    case Begin(id, _) => id !in w.requests
    case Look(id) => id in w.requests && w.requests[id].phase.Looking?
    case Query(id, _) => id in w.requests && w.requests[id].phase.Querying?
    case Store(id) => id in w.requests && w.requests[id].phase.Storing?
    case Pop(id) => id in w.requests && w.requests[id].phase.Popping?
  }

  function Go(w: World, id: nat, phase: Phase): World
    requires id in w.requests
  {
    w.(requests := w.requests[id := w.requests[id].(phase := phase)])
  }

  function Step(w: World, ev: Event, hash: Token -> Hash): World
    requires Enabled(w, ev)
  {
    match ev
    case Tick(d) => w.(now := w.now + d)
    case Create(h, row) => w.(rows := w.rows[h := row])
    case Revoke(h) =>
      if h in w.rows && w.rows[h].revoked.None? then w.(rows := w.rows[h := w.rows[h].(revoked := Some(w.now))]) else w
    case Evict(h) => w.(cache := Evicted(w.cache, h))
    case Begin(id, token) =>
      w.(requests := w.requests[id := Request(token, w.now, if WellFormed(token) then Looking else Done(false))])
    case Look(id) =>
      var r := w.requests[id];
      if Fresh(w.cache, r.token, r.start) then
        Go(w, id, if Past(w.cache[r.token].expires, r.start) then Popping else Done(true))
      else Go(w, id, Querying)
    case Query(id, dbOk) =>
      var r := w.requests[id];
      var h := hash(r.token);
      if !dbOk then Go(w, id, Done(false))
      else if RowValid(w.rows, h, w.now) then Go(w, id, Storing(Entry(w.rows[h].id, w.rows[h].expires, h, r.start)))
      else Go(w, id, Popping)
    case Store(id) =>
      var r := w.requests[id];
      Go(w, id, Done(true)).(cache := w.cache[r.token := r.phase.entry])
    case Pop(id) => Go(w, id, Done(false)).(cache := Popped(w.cache, w.requests[id].token))
  }

  predicate Legal(w: World, evs: seq<Event>, hash: Token -> Hash)
    decreases |evs|
  {
    evs != [] ==> Enabled(w, evs[0]) && Legal(Step(w, evs[0], hash), evs[1..], hash)
  }

  function Run(w: World, evs: seq<Event>, hash: Token -> Hash): World
    requires Legal(w, evs, hash)
    decreases |evs|
  {
    if evs == [] then w else Run(Step(w, evs[0], hash), evs[1..], hash)
  }

  /** A revocation takes effect once, at its time, and touches nothing else; an
      eviction takes the entries of the hash. */
  lemma RevokesAndEvicts(w: World, h: Hash, hash: Token -> Hash)
    ensures var v := Step(w, Revoke(h), hash);
            && v.cache == w.cache && v.requests == w.requests && v.rows.Keys == w.rows.Keys
            && (h in w.rows ==> v.rows[h] == if w.rows[h].revoked.None? then w.rows[h].(revoked := Some(w.now)) else w.rows[h])
            && forall g :: g in w.rows && g != h ==> v.rows[g] == w.rows[g]
    ensures var v := Step(w, Evict(h), hash);
            v.rows == w.rows && forall t :: t in v.cache <==> t in w.cache && w.cache[t].hash != h
  {
  }

  // ------------------------------------------------------------ invariants

  /** A cached answer is about its token, repeats the row's expiry, and was
      sampled no later than any revocation. */
  ghost predicate Backed(w: World, t: Token, e: Entry, hash: Token -> Hash) {
    && e.hash == hash(t) && hash(t) in w.rows && e.cachedAt <= w.now
    && e.id == w.rows[hash(t)].id && e.expires == w.rows[hash(t)].expires
    && (w.rows[hash(t)].revoked.Some? ==> e.cachedAt <= w.rows[hash(t)].revoked.value)
  }

  /** What acceptance guarantees about the request's start. */
  ghost predicate Justified(w: World, r: Request, hash: Token -> Hash) {
    && hash(r.token) in w.rows
    && (w.rows[hash(r.token)].revoked.Some? ==> r.start < w.rows[hash(r.token)].revoked.value + TTL)
    && !Past(w.rows[hash(r.token)].expires, r.start)
  }

  ghost predicate Inv(w: World, hash: Token -> Hash) {
    && (forall h :: h in w.rows && w.rows[h].revoked.Some? ==> w.rows[h].revoked.value <= w.now)
    && (forall t :: t in w.cache ==> Backed(w, t, w.cache[t], hash))
    && (forall id :: id in w.requests ==> w.requests[id].start <= w.now)
    && (forall id :: id in w.requests && w.requests[id].phase.Storing? ==>
          Backed(w, w.requests[id].token, w.requests[id].phase.entry, hash)
          && w.requests[id].phase.entry.cachedAt == w.requests[id].start
          && !Past(w.requests[id].phase.entry.expires, w.requests[id].start))
    && (forall id :: id in w.requests && w.requests[id].phase == Done(true) ==> Justified(w, w.requests[id], hash))
  }

  /** A process start: nothing cached, nobody asking. */
  ghost predicate Init(w: World) {
    && w.cache == map[] && w.requests == map[]
    && forall h :: h in w.rows && w.rows[h].revoked.Some? ==> w.rows[h].revoked.value <= w.now
  }

  lemma StepInv(w: World, ev: Event, hash: Token -> Hash)
    requires Inv(w, hash) && Enabled(w, ev)
    ensures Inv(Step(w, ev, hash), hash)
  {
    if ev.Tick? || ev.Create? || ev.Revoke? || ev.Evict? {
      TableStepInv(w, ev, hash);
    } else {
      RequestStepInv(w, ev, hash);
    }
  }

  lemma TableStepInv(w: World, ev: Event, hash: Token -> Hash)
    requires Inv(w, hash) && Enabled(w, ev) && (ev.Tick? || ev.Create? || ev.Revoke? || ev.Evict?)
    ensures Inv(Step(w, ev, hash), hash)
  {
  }

  lemma RequestStepInv(w: World, ev: Event, hash: Token -> Hash)
    requires Inv(w, hash) && Enabled(w, ev) && !(ev.Tick? || ev.Create? || ev.Revoke? || ev.Evict?)
    ensures Inv(Step(w, ev, hash), hash)
  {
    if ev.Store? || ev.Pop? {
      CacheStepInv(w, ev, hash);
    } else {
      PhaseStepInv(w, ev, hash);
    }
  }

  lemma CacheStepInv(w: World, ev: Event, hash: Token -> Hash)
    requires Inv(w, hash) && Enabled(w, ev) && (ev.Store? || ev.Pop?)
    ensures Inv(Step(w, ev, hash), hash)
  {
  }

  /** A step that only moves one request on keeps the invariant if that
      request's new phase does. */
  lemma PhaseStepInv(w: World, ev: Event, hash: Token -> Hash)
    requires Inv(w, hash) && Enabled(w, ev) && (ev.Begin? || ev.Look? || ev.Query?)
    ensures Inv(Step(w, ev, hash), hash)
  {
    var v := Step(w, ev, hash);
    var r := v.requests[ev.id];
    assert v.now == w.now && v.rows == w.rows && v.cache == w.cache && v.requests == w.requests[ev.id := r];
    assert r.start <= w.now;
    assert r.phase == Done(true) ==> Justified(w, r, hash);
    assert r.phase.Storing? ==> Backed(w, r.token, r.phase.entry, hash) && r.phase.entry.cachedAt == r.start;
    assert r.phase.Storing? ==> !Past(r.phase.entry.expires, r.start);
    OtherRequests(w, v, ev.id, r, hash);
  }

  lemma OtherRequests(w: World, v: World, id: nat, r: Request, hash: Token -> Hash)
    requires Inv(w, hash) && v == w.(requests := w.requests[id := r]) && r.start <= w.now
    requires r.phase == Done(true) ==> Justified(w, r, hash)
    requires r.phase.Storing? ==> Backed(w, r.token, r.phase.entry, hash)
    requires r.phase.Storing? ==> r.phase.entry.cachedAt == r.start && !Past(r.phase.entry.expires, r.start)
    ensures Inv(v, hash)
  {
  }

  lemma {:induction false} RunInv(w: World, evs: seq<Event>, hash: Token -> Hash)
    requires Inv(w, hash) && Legal(w, evs, hash)
    ensures Inv(Run(w, evs, hash), hash)
    decreases |evs|
  {
    if evs != [] {
      StepInv(w, evs[0], hash);
      RunInv(Step(w, evs[0], hash), evs[1..], hash);
    }
  }

  // -------------------------------------------------------------- theorems

  /** Whatever lookups, revocations and evictions interleave, no request that
      starts 300 s or more after its token was revoked is accepted. */
  lemma StaleAcceptsAreBounded(w: World, evs: seq<Event>, hash: Token -> Hash, id: nat)
    requires Init(w) && Legal(w, evs, hash) && id in Run(w, evs, hash).requests
    requires var v := Run(w, evs, hash);
             var h := hash(v.requests[id].token);
             h in v.rows && v.rows[h].revoked.Some? && v.requests[id].start >= v.rows[h].revoked.value + 300.0
    ensures Run(w, evs, hash).requests[id].phase != Done(true)
  {
    RunInv(w, evs, hash);
  }

  /** No request that starts after its token's expiry is accepted, cached or
      not, and none for a token the database does not know. */
  lemma ExpiryIsExact(w: World, evs: seq<Event>, hash: Token -> Hash, id: nat)
    requires Init(w) && Legal(w, evs, hash) && id in Run(w, evs, hash).requests
    requires var v := Run(w, evs, hash);
             var h := hash(v.requests[id].token);
             h in v.rows ==> v.rows[h].expires.Some? && v.rows[h].expires.value < v.requests[id].start
    ensures Run(w, evs, hash).requests[id].phase != Done(true)
  {
    RunInv(w, evs, hash);
  }

  /** The hash is revoked, uncached, and no lookup holds a positive answer. */
  ghost predicate Gone(w: World, h: Hash, hash: Token -> Hash) {
    && h in w.rows && w.rows[h].revoked.Some?
    && (forall t :: t in w.cache ==> hash(t) != h)
    && (forall id :: id in w.requests && w.requests[id].phase.Storing? ==> hash(w.requests[id].token) != h)
  }

  lemma {:induction false} GoneStays(w: World, evs: seq<Event>, hash: Token -> Hash, h: Hash, id: nat)
    requires Gone(w, h, hash) && Legal(w, evs, hash)
    requires (id in w.requests && hash(w.requests[id].token) == h) ==> w.requests[id].phase != Done(true)
    ensures var v := Run(w, evs, hash);
            Gone(v, h, hash) && (id in v.requests && hash(v.requests[id].token) == h ==> v.requests[id].phase != Done(true))
    decreases |evs|
  {
    if evs != [] {
      GoneStays(Step(w, evs[0], hash), evs[1..], hash, h, id);
    }
  }

  /** Revoking and then evicting is final at once: from the eviction on, no
      request for the token is accepted, whatever happens, provided no lookup
      already held the old answer. */
  lemma EvictionIsFinal(w: World, hash: Token -> Hash, h: Hash, evs: seq<Event>, id: nat)
    requires Inv(w, hash) && h in w.rows && w.rows[h].revoked.Some? && id !in w.requests
    requires forall i :: i in w.requests && w.requests[i].phase.Storing? ==> hash(w.requests[i].token) != h
    requires Legal(Step(w, Evict(h), hash), evs, hash)
    ensures var v := Run(Step(w, Evict(h), hash), evs, hash);
            id in v.requests && hash(v.requests[id].token) == h ==> v.requests[id].phase != Done(true)
  {
    GoneStays(Step(w, Evict(h), hash), evs, hash, h, id);
  }

  lemma RunCons(w: World, ev: Event, evs: seq<Event>, hash: Token -> Hash)
    requires Enabled(w, ev) && Legal(Step(w, ev, hash), evs, hash)
    ensures Legal(w, [ev] + evs, hash) && Run(w, [ev] + evs, hash) == Run(Step(w, ev, hash), evs, hash)
  {
    assert ([ev] + evs)[1..] == evs;
  }

  /** The proviso is exact: a lookup that holds the old answer when the token
      is evicted can bring it back, and then every start less than 300 s after
      that lookup's own is accepted.  So 300 s is also the least bound. */
  lemma HeldAnswerRevives(w: World, hash: Token -> Hash, h: Hash, id: nat, later: nat, d: real) returns (evs: seq<Event>)
    requires Inv(w, hash) && id in w.requests && w.requests[id].phase.Storing? && later !in w.requests
    requires hash(w.requests[id].token) == h && WellFormed(w.requests[id].token)
    requires d >= 0.0 && w.now + d < w.requests[id].start + 300.0 && !Past(w.requests[id].phase.entry.expires, w.now + d)
    ensures Legal(Step(w, Evict(h), hash), evs, hash)
    ensures var v := Run(Step(w, Evict(h), hash), evs, hash);
            later in v.requests && v.requests[later] == Request(w.requests[id].token, w.now + d, Done(true))
  {
    var w0 := Step(w, Evict(h), hash);
    var w1 := Step(w0, Store(id), hash);
    var w2 := Step(w1, Tick(d), hash);
    var w3 := Step(w2, Begin(later, w.requests[id].token), hash);
    var w4 := Step(w3, Look(later), hash);
    assert w4.requests[later].phase == Done(true);
    evs := [];
    RunCons(w3, Look(later), evs, hash);
    evs := [Look(later)] + evs;
    RunCons(w2, Begin(later, w.requests[id].token), evs, hash);
    evs := [Begin(later, w.requests[id].token)] + evs;
    RunCons(w1, Tick(d), evs, hash);
    evs := [Tick(d)] + evs;
    RunCons(w0, Store(id), evs, hash);
    evs := [Store(id)] + evs;
  }

  /** The events of one lookup with nobody in between. */
  function Solo(w: World, token: Token, hash: Token -> Hash, lag: real, dbOk: bool): (v: World)
    requires w.requests == map[] && lag >= 0.0
    ensures 0 in v.requests && v.requests[0].phase.Done?
  {
    var a := Step(w, Begin(0, token), hash);
    if a.requests[0].phase.Done? then a
    else
      var b := Step(Step(a, Look(0), hash), Tick(lag), hash);
      var c := if b.requests[0].phase.Querying? then Step(b, Query(0, dbOk), hash) else b;
      match c.requests[0].phase
      case Storing(_) => Step(c, Store(0), hash)
      case Popping => Step(c, Pop(0), hash)
      case _ => c
  }

  /** A lookup alone accepts exactly when the cache holds a fresh unexpired
      answer, or holds no fresh one and the database row is valid when read;
      every other lookup that reaches a verdict on the row drops the entry. */
  lemma SoloVerdict(w: World, token: Token, hash: Token -> Hash, lag: real, dbOk: bool)
    requires w.requests == map[] && lag >= 0.0
    ensures var v := Solo(w, token, hash, lag, dbOk);
            var cached := Fresh(w.cache, token, w.now);
            var stored := RowValid(w.rows, hash(token), w.now + lag);
            && (v.requests[0].phase == Done(true) <==>
                  WellFormed(token) && (if cached then !Past(w.cache[token].expires, w.now) else dbOk && stored))
            && v.cache ==
                 if !WellFormed(token) || (!cached && !dbOk) then w.cache
                 else if cached then if Past(w.cache[token].expires, w.now) then Popped(w.cache, token) else w.cache
                 else if stored then
                   w.cache[token := Entry(w.rows[hash(token)].id, w.rows[hash(token)].expires, hash(token), w.now)]
                 else Popped(w.cache, token)
  {
    if WellFormed(token) {
      if Fresh(w.cache, token, w.now) { SoloHit(w, token, hash, lag, dbOk); } else { SoloMiss(w, token, hash, lag, dbOk); }
      hide Solo;
    }
  }

  lemma SoloHit(w: World, token: Token, hash: Token -> Hash, lag: real, dbOk: bool)
    requires w.requests == map[] && lag >= 0.0 && WellFormed(token) && Fresh(w.cache, token, w.now)
    ensures var v, past := Solo(w, token, hash, lag, dbOk), Past(w.cache[token].expires, w.now);
            && v.requests[0].phase == Done(!past)
            && v.cache == if past then Popped(w.cache, token) else w.cache
  {
  }

  lemma SoloMiss(w: World, token: Token, hash: Token -> Hash, lag: real, dbOk: bool)
    requires w.requests == map[] && lag >= 0.0 && WellFormed(token) && !Fresh(w.cache, token, w.now)
    ensures var v, h := Solo(w, token, hash, lag, dbOk), hash(token);
            var stored := RowValid(w.rows, h, w.now + lag);
            && v.requests[0].phase == Done(dbOk && stored)
            && v.cache == if !dbOk then w.cache
                          else if stored then w.cache[token := Entry(w.rows[h].id, w.rows[h].expires, h, w.now)]
                          else Popped(w.cache, token)
  {
  }

  // ------------------------------------------------------------- the class

  /** The module-level cache and the token table, when one caller runs alone. */
  class TokenAuth {
    var cache: map<Token, Entry>
    var rows: map<Hash, Row>

    /** `asked` is the time of the request, `queried` that of the database
        read; `dbOk` is false when that read raises. */
    method CheckApiToken(token: Token, hash: Token -> Hash, asked: real, queried: real, dbOk: bool) returns (id: Option<nat>)
      requires asked <= queried
      modifies this`cache
      ensures var v := Solo(World(asked, rows, old(cache), map[]), token, hash, queried - asked, dbOk);
              cache == v.cache && (id.Some? <==> v.requests[0].phase == Done(true))
      ensures id.Some? <==>
                && |token| >= 3 && token[0] == 'p' && token[1] == 'w' && token[2] == '_'
                && (if token in old(cache) && asked - old(cache)[token].cachedAt < 300.0 then
                      old(cache)[token].expires.None? || asked <= old(cache)[token].expires.value
                    else
                      dbOk && hash(token) in rows && rows[hash(token)].revoked.None?
                      && (rows[hash(token)].expires.None? || queried <= rows[hash(token)].expires.value))
      ensures forall t :: t != token ==> (t in cache <==> t in old(cache)) && (t in cache ==> cache[t] == old(cache)[t])
      ensures id.Some? && Fresh(old(cache), token, asked) ==> id.value == old(cache)[token].id && cache == old(cache)
      ensures id.Some? && !Fresh(old(cache), token, asked) ==> hash(token) in rows && id.value == rows[hash(token)].id
    {
      hide Solo;
      SoloVerdict(World(asked, rows, cache, map[]), token, hash, queried - asked, dbOk);
      if !WellFormed(token) { return None; }
      if token in cache {
        var c := cache[token];
        if asked - c.cachedAt < TTL {
          if c.expires.Some? && c.expires.value < asked {
            cache := cache - {token};
            return None;
          }
          return Some(c.id);
        }
      }
      var h := hash(token);
      if !dbOk { return None; }
      if h !in rows || rows[h].revoked.Some? || (rows[h].expires.Some? && rows[h].expires.value < queried) {
        cache := cache - {token};
        return None;
      }
      cache := cache[token := Entry(rows[h].id, rows[h].expires, h, asked)];
      id := Some(rows[h].id);
    }

    /** `updateOk` is false when the UPDATE fails; nobody else revokes in between. */
    method RevokeToken(h: Hash, now: real, updateOk: bool) returns (done: bool)
      modifies this`rows
      ensures done == (h in old(rows) && old(rows)[h].revoked.None? && updateOk)
      ensures rows == if done then old(rows)[h := old(rows)[h].(revoked := Some(now))] else old(rows)
    {
      if h !in rows || rows[h].revoked.Some? { return false; }
      if !updateOk { return false; }
      rows := rows[h := rows[h].(revoked := Some(now))];
      done := true;
    }

    /** Collects the entries of the hash, then pops them one by one. */
    method EvictHash(h: Hash)
      modifies this`cache
      ensures cache == Evicted(old(cache), h)
      ensures forall t :: t in cache <==> t in old(cache) && old(cache)[t].hash != h
      ensures forall t :: t in cache ==> cache[t] == old(cache)[t]
    {
      var victims := set t | t in cache && cache[t].hash == h;
      while victims != {}
        invariant victims <= set t | t in old(cache) && old(cache)[t].hash == h
        invariant cache == map t | t in old(cache) && (old(cache)[t].hash != h || t in victims) :: old(cache)[t]
        decreases victims
      {
        var t :| t in victims;
        cache := cache - {t};
        victims := victims - {t};
      }
    }
  }
}
