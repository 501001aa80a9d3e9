/** RADIUS logins with challenges (RFC 2865, sections 4.4 and 5.24).  Two
    maps in two modules follow one conversation: `challenges` holds what must
    go back to the server, `logins` whose login it is.  `World` lets phase-1
    and phase-2 calls, pruning and the clock interleave; each event is one
    locked region or one exchange with a server. */
module RadiusChallenge {
  import opened Options

  const CHALLENGE_TTL: real := 120.0
  const CTX_TTL: real := 120.0

  /** Challenge ids are random in the program; here they are numbered in the
      order they are issued, which is all that freshness means. */
  type Cid = nat

  type Blob = seq<bv8>

  /** Which servers are configured, and which of them have a secret. */
  datatype Config = Config(primary: bool, secret1: bool, secondary: bool, secret2: bool, prefix: string, suffix: string) {
    predicate Configured(i: nat) { (i == 0 && primary) || (i == 1 && secondary) }
    predicate HasSecret(i: nat) { (i == 0 && secret1) || (i == 1 && secret2) }
    function Realm(user: string): string { prefix + user + suffix }
  }

  datatype Challenge = Challenge(username: string, sendName: string, state: Option<Blob>, created: real, server: nat)

  datatype Ctx = Ctx(username: string, created: real)

  datatype Reply = Accept | Reject | Ask(state: Option<Blob>) | Failure

  datatype Verdict = Accepted(username: string) | Rejected | Challenged(cid: Cid)

  /** Phase 1 asks servers in turn and then records whose challenge it was.
      Phase 2 reads the login, takes the challenge, sends it, and tidies up. */
  datatype Phase =
    | Asking(user: string, server: nat) | Carrying(user: string, cid: Cid)
    | Reading(cid: Cid) | Holding(cid: Cid, user: string) | Sending(cid: Cid, user: string, ch: Challenge)
    | Failing(cid: Cid) | Accepting(cid: Cid, user: string) | Forwarding(cid: Cid, user: string, next: Cid)
    | Done(verdict: Verdict)

  /** History: every challenge issued, why, and by which server; every
      continuation request sent; when each challenge was taken. */
  datatype Cause = Root(user: string) | From(parent: Cid)
  datatype Issue = Issue(server: nat, state: Option<Blob>, at: real, cause: Cause)
  datatype Sent = Sent(cid: Cid, server: nat, state: Option<Blob>, name: string, accepted: bool)

  datatype World = World(
    now: real, challenges: map<Cid, Challenge>, logins: map<Cid, Ctx>, threads: map<nat, Phase>,
    issued: seq<Issue>, taken: map<Cid, real>, sent: seq<Sent>)

  datatype Event =
    | Tick(d: real)
    | Login(id: nat, user: string)
    | AskServer(id: nat, reply: Reply)
    | Remember(id: nat)
    | Answer(id: nat, cid: Cid)
    | ReadLogin(id: nat)
    | Take(id: nat)
    | Send(id: nat, reply: Reply)
    | Finish(id: nat)

  function LiveChallenges(m: map<Cid, Challenge>, now: real): map<Cid, Challenge> {
    map c | c in m && now - m[c].created <= CHALLENGE_TTL :: m[c]
  }

  function LiveLogins(m: map<Cid, Ctx>, now: real): map<Cid, Ctx> {
    map c | c in m && now - m[c].created <= CTX_TTL :: m[c]
  }

  function Go(w: World, id: nat, p: Phase): World {
    w.(threads := w.threads[id := p])
  }

  /** Stores a challenge under a fresh id, pruning first. */
  function IssueChallenge(w: World, ch: Challenge, cause: Cause): World {
    w.(challenges := LiveChallenges(w.challenges, w.now)[|w.issued| := ch],
       issued := w.issued + [Issue(ch.server, ch.state, w.now, cause)])
  }

  ghost predicate Enabled(w: World, ev: Event) {
    match ev
    case Tick(d) => d >= 0.0
    case Login(id, _) => id !in w.threads
    case AskServer(id, _) => id in w.threads && w.threads[id].Asking?
    case Remember(id) => id in w.threads && w.threads[id].Carrying?
    case Answer(id, _) => id !in w.threads
    case ReadLogin(id) => id in w.threads && w.threads[id].Reading?
    case Take(id) => id in w.threads && w.threads[id].Holding?
    case Send(id, _) => id in w.threads && w.threads[id].Sending?
    case Finish(id) => id in w.threads && (w.threads[id].Failing? || w.threads[id].Accepting? || w.threads[id].Forwarding?)
  }

  /** `radius_authenticate`'s failover loop, one server per turn. */
  function Asked(w: World, id: nat, reply: Reply, cfg: Config): World
    requires id in w.threads && w.threads[id].Asking?
  {
    var user, i := w.threads[id].user, w.threads[id].server;
    if i >= 2 then Go(w, id, Done(Rejected))
    else if !cfg.Configured(i) || !cfg.HasSecret(i) then Go(w, id, Asking(user, i + 1))
    else
      match reply
      case Accept => Go(w, id, Done(Accepted(user)))
      case Reject => Go(w, id, Done(Rejected))
      case Failure => Go(w, id, Asking(user, i + 1))
      case Ask(state) =>
        Go(IssueChallenge(w, Challenge(user, cfg.Realm(user), state, w.now, i), Root(user)), id, Carrying(user, |w.issued|))
  }

  function Looked(w: World, id: nat): World
    requires id in w.threads && w.threads[id].Reading?
  {
    var cid, live := w.threads[id].cid, LiveLogins(w.logins, w.now);
    Go(w, id, if cid in live then Holding(cid, live[cid].username) else Done(Rejected)).(logins := live)
  }

  /** The entry is pruned if old, popped if there, and gone either way. */
  function TakenBy(w: World, id: nat): World
    requires id in w.threads && w.threads[id].Holding?
  {
    var cid, live := w.threads[id].cid, LiveChallenges(w.challenges, w.now);
    if cid in live then
      Go(w, id, Sending(cid, w.threads[id].user, live[cid])).(challenges := live - {cid}, taken := w.taken[cid := w.now])
    else Go(w, id, Failing(cid)).(challenges := live)
  }

  function SentBy(w: World, id: nat, reply: Reply, cfg: Config): World
    requires id in w.threads && w.threads[id].Sending?
  {
    var cid, user, ch := w.threads[id].cid, w.threads[id].user, w.threads[id].ch;
    if !cfg.Configured(ch.server) then Go(w, id, Failing(cid))
    else
      var v := w.(sent := w.sent + [Sent(cid, ch.server, ch.state, ch.sendName, reply.Accept?)]);
      match reply
      case Accept => Go(v, id, Accepting(cid, user))
      case Reject => Go(v, id, Failing(cid))
      case Failure => Go(v, id, Failing(cid))
      case Ask(state) =>
        Go(IssueChallenge(v, ch.(state := state, created := w.now), From(cid)), id, Forwarding(cid, user, |w.issued|))
  }

  function Finished(w: World, id: nat): World
    requires id in w.threads
  {
    match w.threads[id]
    case Failing(cid) => Go(w, id, Done(Rejected)).(logins := w.logins - {cid})
    case Accepting(cid, user) => Go(w, id, Done(Accepted(user))).(logins := w.logins - {cid})
    case Forwarding(cid, user, next) => Go(w, id, Done(Challenged(next))).(logins := w.logins[next := Ctx(user, w.now)] - {cid})
    case _ => w
  }

  function Remembered(w: World, id: nat): World
    requires id in w.threads && w.threads[id].Carrying?
  {
    var user, cid := w.threads[id].user, w.threads[id].cid;
    Go(w, id, Done(Challenged(cid))).(logins := LiveLogins(w.logins, w.now)[cid := Ctx(user, w.now)])
  }

  function Step(w: World, ev: Event, cfg: Config): World
    requires Enabled(w, ev)
  {
    match ev
    case Tick(d) => w.(now := w.now + d)
    case Login(id, user) => Go(w, id, if user == "" || !cfg.primary then Done(Rejected) else Asking(user, 0))
    case AskServer(id, reply) => Asked(w, id, reply, cfg)
    case Remember(id) => Remembered(w, id)
    case Answer(id, cid) => Go(w, id, Reading(cid))
    case ReadLogin(id) => Looked(w, id)
    case Take(id) => TakenBy(w, id)
    case Send(id, reply) => SentBy(w, id, reply, cfg)
    case Finish(id) => Finished(w, id)
  }

  ghost predicate Legal(w: World, evs: seq<Event>, cfg: Config)
    decreases |evs|
  {
    evs != [] ==> Enabled(w, evs[0]) && Legal(Step(w, evs[0], cfg), evs[1..], cfg)
  }

  function Run(w: World, evs: seq<Event>, cfg: Config): World
    requires Legal(w, evs, cfg)
    decreases |evs|
  {
    if evs == [] then w else Run(Step(w, evs[0], cfg), evs[1..], cfg)
  }

  // ------------------------------------------------------------ invariants

  /** Who started the conversation a challenge belongs to. */
  ghost function Origin(issued: seq<Issue>, cid: Cid): string {
    if cid >= |issued| then ""
    else match issued[cid].cause
      case Root(user) => user
      case From(parent) => if parent < cid then Origin(issued, parent) else ""
  }

  /** A stored challenge is the issued one, addressed to the server that issued
      it, in the name of the user who started the conversation. */
  ghost predicate Genuine(w: World, cid: Cid, ch: Challenge, cfg: Config) {
    && cid < |w.issued|
    && ch.state == w.issued[cid].state && ch.server == w.issued[cid].server && ch.created == w.issued[cid].at
    && ch.username == Origin(w.issued, cid) && ch.sendName == cfg.Realm(Origin(w.issued, cid))
  }

  ghost predicate Owned(w: World, cid: Cid, user: string) {
    cid < |w.issued| && user == Origin(w.issued, cid)
  }

  ghost predicate PhaseOk(w: World, p: Phase, cfg: Config) {
    match p
    case Carrying(user, cid) => Owned(w, cid, user)
    case Holding(cid, user) => Owned(w, cid, user)
    case Sending(cid, user, ch) => Owned(w, cid, user) && Genuine(w, cid, ch, cfg) && cid in w.taken
    case Accepting(cid, user) => Owned(w, cid, user) && AcceptedFor(w, cid)
    case Forwarding(cid, user, next) => Owned(w, cid, user) && Owned(w, next, user)
    case _ => true
  }

  /** A server accepted the continuation of this challenge. */
  ghost predicate AcceptedFor(w: World, cid: Cid) {
    exists k :: 0 <= k < |w.sent| && w.sent[k].cid == cid && w.sent[k].accepted
  }

  ghost predicate Chains(w: World) {
    && (forall i :: 0 <= i < |w.issued| && w.issued[i].cause.From? ==>
          w.issued[i].cause.parent < i && w.issued[i].server == w.issued[w.issued[i].cause.parent].server)
    && (forall i :: 0 <= i < |w.issued| ==> w.issued[i].at <= w.now)
  }

  ghost predicate Stores(w: World, cfg: Config) {
    && (forall c :: c in w.challenges ==> Genuine(w, c, w.challenges[c], cfg) && c !in w.taken)
    && (forall c :: c in w.logins ==> Owned(w, c, w.logins[c].username))
    && (forall id :: id in w.threads ==> PhaseOk(w, w.threads[id], cfg))
    && (forall c :: c in w.taken ==> c < |w.issued| && w.issued[c].at <= w.taken[c] <= w.issued[c].at + CHALLENGE_TTL)
  }

  /** One request per challenge: whoever took it is its only sender. */
  ghost predicate OneShot(w: World) {
    && (forall a, b | a in w.threads && b in w.threads && w.threads[a].Sending? && w.threads[b].Sending? ::
          w.threads[a].cid == w.threads[b].cid ==> a == b)
    && (forall id, k | id in w.threads && w.threads[id].Sending? && 0 <= k < |w.sent| :: w.sent[k].cid != w.threads[id].cid)
    && (forall k | 0 <= k < |w.sent| :: w.sent[k].cid in w.taken)
    && (forall j, k | 0 <= j < k < |w.sent| :: w.sent[j].cid != w.sent[k].cid)
  }

  ghost predicate Faithful(w: World, cfg: Config) {
    forall k | 0 <= k < |w.sent| ::
      && w.sent[k].cid < |w.issued|
      && w.sent[k].server == w.issued[w.sent[k].cid].server && w.sent[k].state == w.issued[w.sent[k].cid].state
      && w.sent[k].name == cfg.Realm(Origin(w.issued, w.sent[k].cid))
  }

  ghost predicate Inv(w: World, cfg: Config) {
    Chains(w) && Stores(w, cfg) && OneShot(w) && Faithful(w, cfg)
  }

  ghost predicate Init(w: World) {
    w.challenges == map[] && w.logins == map[] && w.threads == map[] && w.issued == [] && w.taken == map[] && w.sent == []
  }

  /** Later issues do not change who started an earlier conversation. */
  lemma {:induction false} OriginStable(issued: seq<Issue>, more: seq<Issue>, cid: Cid)
    requires cid < |issued|
    ensures Origin(issued + more, cid) == Origin(issued, cid)
    decreases cid
  {
    match issued[cid].cause
    case Root(_) =>
    case From(parent) => if parent < cid { OriginStable(issued, more, parent); }
  }

  lemma OriginsKept(w: World, v: World)
    requires w.issued <= v.issued
    ensures forall c: Cid | c < |w.issued| :: Origin(v.issued, c) == Origin(w.issued, c)
  {
    forall c: Cid | c < |w.issued| ensures Origin(v.issued, c) == Origin(w.issued, c) {
      assert v.issued == w.issued + v.issued[|w.issued|..];
      OriginStable(w.issued, v.issued[|w.issued|..], c);
    }
  }

  ghost predicate Extends(w: World, v: World) {
    w.issued <= v.issued && w.sent <= v.sent && w.taken.Keys <= v.taken.Keys
  }

  lemma PhaseStaysOk(w: World, v: World, p: Phase, cfg: Config)
    requires Extends(w, v) && PhaseOk(w, p, cfg)
    requires forall c: Cid | c < |w.issued| :: Origin(v.issued, c) == Origin(w.issued, c)
    ensures PhaseOk(v, p, cfg)
  {
    hide Origin;
    if p.Accepting? {
      var k :| 0 <= k < |w.sent| && w.sent[k].cid == p.cid && w.sent[k].accepted;
      assert v.sent[k] == w.sent[k];
    }
  }

  ghost predicate TakenInTime(w: World) {
    forall c :: c in w.taken ==> c < |w.issued| && w.issued[c].at <= w.taken[c] <= w.issued[c].at + CHALLENGE_TTL
  }

  /** Stores survive a step whose new entries are themselves right. */
  lemma StoresFrame(w: World, v: World, cfg: Config)
    requires Stores(w, cfg) && Extends(w, v) && TakenInTime(v)
    requires forall c :: c in v.challenges ==>
               c !in v.taken && ((c in w.challenges && v.challenges[c] == w.challenges[c]) || Genuine(v, c, v.challenges[c], cfg))
    requires forall c :: c in v.logins ==>
               (c in w.logins && v.logins[c].username == w.logins[c].username) || Owned(v, c, v.logins[c].username)
    requires forall id :: id in v.threads ==> (id in w.threads && v.threads[id] == w.threads[id]) || PhaseOk(v, v.threads[id], cfg)
    ensures Stores(v, cfg)
  {
    hide Origin;
    OriginsKept(w, v);
    forall id | id in v.threads ensures PhaseOk(v, v.threads[id], cfg) {
      if id in w.threads && v.threads[id] == w.threads[id] {
        PhaseStaysOk(w, v, w.threads[id], cfg);
      }
    }
  }

  /** A new challenge belongs to whoever caused it. */
  lemma FreshOrigin(w: World, i: Issue)
    ensures var more := w.issued + [i];
            Origin(more, |w.issued|) == match i.cause
              case Root(user) => user
              case From(parent) => if parent < |w.issued| then Origin(w.issued, parent) else ""
  {
    match i.cause
    case Root(_) =>
    case From(parent) => if parent < |w.issued| { OriginStable(w.issued, [i], parent); }
  }

  // What a phase says, one constructor at a time.

  lemma PhaseMeans(w: World, p: Phase, cfg: Config)
    requires PhaseOk(w, p, cfg)
    ensures p.Carrying? || p.Holding? || p.Accepting? || p.Sending? || p.Forwarding? ==> Owned(w, p.cid, p.user)
    ensures p.Sending? ==> Genuine(w, p.cid, p.ch, cfg) && p.cid in w.taken
    ensures p.Forwarding? ==> Owned(w, p.next, p.user)
  {
  }

  lemma PhaseHolds(w: World, p: Phase, cfg: Config)
    requires p.Carrying? || p.Holding? || p.Accepting? || p.Sending? || p.Forwarding? ==> Owned(w, p.cid, p.user)
    requires p.Sending? ==> Genuine(w, p.cid, p.ch, cfg) && p.cid in w.taken
    requires p.Forwarding? ==> Owned(w, p.next, p.user)
    requires p.Accepting? ==> AcceptedFor(w, p.cid)
    ensures PhaseOk(w, p, cfg)
  {
  }

  // Each action, one at a time.

  lemma TakeKeepsStores(w: World, id: nat, cfg: Config)
    requires Stores(w, cfg) && Chains(w) && id in w.threads && w.threads[id].Holding?
    ensures Stores(TakenBy(w, id), cfg)
  {
    hide PhaseOk, Origin;
    var v := TakenBy(w, id);
    PhaseMeans(w, w.threads[id], cfg);
    PhaseHolds(v, v.threads[id], cfg);
    StoresFrame(w, v, cfg);
  }

  lemma TakeKeepsRest(w: World, id: nat, cfg: Config)
    requires Inv(w, cfg) && id in w.threads && w.threads[id].Holding?
    ensures Chains(TakenBy(w, id)) && OneShot(TakenBy(w, id)) && Faithful(TakenBy(w, id), cfg)
  {
    hide PhaseOk, Origin, Genuine;
    forall x | x in w.threads && w.threads[x].Sending? ensures w.threads[x].cid in w.taken { PhaseMeans(w, w.threads[x], cfg); }
  }

  lemma SendKeepsStores(w: World, id: nat, reply: Reply, cfg: Config)
    requires Stores(w, cfg) && Chains(w) && id in w.threads && w.threads[id].Sending?
    ensures Stores(SentBy(w, id, reply, cfg), cfg)
  {
    hide PhaseOk, Origin;
    var v, p := SentBy(w, id, reply, cfg), w.threads[id];
    PhaseMeans(w, p, cfg);
    OriginsKept(w, v);
    if reply.Ask? {
      FreshOrigin(w, Issue(p.ch.server, reply.state, w.now, From(p.cid)));
    }
    if reply.Accept? && cfg.Configured(p.ch.server) {
      assert v.sent[|w.sent|].cid == p.cid && v.sent[|w.sent|].accepted;
    }
    PhaseHolds(v, v.threads[id], cfg);
    StoresFrame(w, v, cfg);
  }

  lemma SendKeepsRest(w: World, id: nat, reply: Reply, cfg: Config)
    requires Inv(w, cfg) && id in w.threads && w.threads[id].Sending?
    ensures Chains(SentBy(w, id, reply, cfg)) && OneShot(SentBy(w, id, reply, cfg)) && Faithful(SentBy(w, id, reply, cfg), cfg)
  {
    hide PhaseOk, Origin, Stores;
    assert PhaseOk(w, w.threads[id], cfg) by { ThreadPhase(w, id, cfg); }
    PhaseMeans(w, w.threads[id], cfg);
    OriginsKept(w, SentBy(w, id, reply, cfg));
  }

  lemma ThreadPhase(w: World, id: nat, cfg: Config)
    requires Stores(w, cfg) && id in w.threads
    ensures PhaseOk(w, w.threads[id], cfg)
  {
  }

  /** A first challenge, from server `i` for `user`. */
  function FirstChallenge(w: World, id: nat, user: string, i: nat, state: Option<Blob>, cfg: Config): World {
    Go(IssueChallenge(w, Challenge(user, cfg.Realm(user), state, w.now, i), Root(user)), id, Carrying(user, |w.issued|))
  }

  lemma FirstChallengeKeepsStores(w: World, id: nat, user: string, i: nat, state: Option<Blob>, cfg: Config)
    requires Stores(w, cfg) && Chains(w)
    ensures Stores(FirstChallenge(w, id, user, i, state, cfg), cfg)
  {
    hide PhaseOk, Origin;
    var v := FirstChallenge(w, id, user, i, state, cfg);
    OriginsKept(w, v);
    FreshOrigin(w, Issue(i, state, w.now, Root(user)));
    PhaseHolds(v, v.threads[id], cfg);
    StoresFrame(w, v, cfg);
  }

  lemma AskInv(w: World, id: nat, reply: Reply, cfg: Config)
    requires Inv(w, cfg) && id in w.threads && w.threads[id].Asking?
    ensures Inv(Asked(w, id, reply, cfg), cfg)
  {
    hide PhaseOk, Origin, Stores, Chains, OneShot, Faithful;
    var user, i := w.threads[id].user, w.threads[id].server;
    var v := Asked(w, id, reply, cfg);
    AskKeepsRest(w, id, reply, cfg);
    if i < 2 && cfg.Configured(i) && cfg.HasSecret(i) && reply.Ask? {
      FirstChallengeKeepsStores(w, id, user, i, reply.state, cfg);
    } else {
      ThreadOnlyInv(w, id, v.threads[id], cfg);
    }
  }

  lemma AskKeepsRest(w: World, id: nat, reply: Reply, cfg: Config)
    requires Chains(w) && OneShot(w) && Faithful(w, cfg) && id in w.threads && w.threads[id].Asking?
    ensures Chains(Asked(w, id, reply, cfg)) && OneShot(Asked(w, id, reply, cfg)) && Faithful(Asked(w, id, reply, cfg), cfg)
  {
    AskKeepsChains(w, id, reply, cfg);
    AskKeepsOneShot(w, id, reply, cfg);
    AskKeepsFaithful(w, id, reply, cfg);
  }

  lemma AskKeepsChains(w: World, id: nat, reply: Reply, cfg: Config)
    requires Chains(w) && id in w.threads && w.threads[id].Asking?
    ensures Chains(Asked(w, id, reply, cfg))
  {
  }

  lemma AskKeepsOneShot(w: World, id: nat, reply: Reply, cfg: Config)
    requires OneShot(w) && id in w.threads && w.threads[id].Asking?
    ensures OneShot(Asked(w, id, reply, cfg))
  {
    AskSendsNothing(w, id, reply, cfg);
    hide Asked;
  }

  lemma AskSendsNothing(w: World, id: nat, reply: Reply, cfg: Config)
    requires id in w.threads && w.threads[id].Asking?
    ensures var v := Asked(w, id, reply, cfg);
            && v.sent == w.sent && v.taken == w.taken
            && id in v.threads && v.threads == w.threads[id := v.threads[id]] && !v.threads[id].Sending?
  {
    hide LiveChallenges;
  }

  lemma AskKeepsFaithful(w: World, id: nat, reply: Reply, cfg: Config)
    requires Faithful(w, cfg) && id in w.threads && w.threads[id].Asking?
    ensures Faithful(Asked(w, id, reply, cfg), cfg)
  {
    hide Origin, LiveChallenges;
    OriginsKept(w, Asked(w, id, reply, cfg));
  }

  /** A step that changes one thread and the login map keeps the invariant if
      every login left in the map has its rightful owner. */
  lemma LoginsOnly(w: World, id: nat, v: World, cfg: Config)
    requires Inv(w, cfg) && id in v.threads && v == w.(logins := v.logins, threads := w.threads[id := v.threads[id]])
    requires !v.threads[id].Sending? && !v.threads[id].Accepting? && !v.threads[id].Forwarding? && !v.threads[id].Carrying?
    requires v.threads[id].Holding? ==> Owned(w, v.threads[id].cid, v.threads[id].user)
    requires forall c :: c in v.logins ==>
               (c in w.logins && v.logins[c].username == w.logins[c].username) || Owned(w, c, v.logins[c].username)
    ensures Inv(v, cfg)
  {
    hide PhaseOk, Origin, Genuine;
    PhaseHolds(v, v.threads[id], cfg);
    StoresFrame(w, v, cfg);
  }

  lemma RememberInv(w: World, id: nat, cfg: Config)
    requires Inv(w, cfg) && id in w.threads && w.threads[id].Carrying?
    ensures Inv(Remembered(w, id), cfg)
  {
    hide PhaseOk, Origin, Genuine, Stores;
    LoginsOnly(w, id, Remembered(w, id), cfg) by {
      ThreadPhase(w, id, cfg);
      PhaseMeans(w, w.threads[id], cfg);
    }
  }

  lemma LookInv(w: World, id: nat, cfg: Config)
    requires Inv(w, cfg) && id in w.threads && w.threads[id].Reading?
    ensures Inv(Looked(w, id), cfg)
  {
    hide PhaseOk, Origin, Genuine;
    LoginsOnly(w, id, Looked(w, id), cfg) by {
      ThreadPhase(w, id, cfg);
      PhaseMeans(w, w.threads[id], cfg);
    }
  }

  lemma FinishInv(w: World, id: nat, cfg: Config)
    requires Inv(w, cfg) && id in w.threads && (w.threads[id].Failing? || w.threads[id].Accepting? || w.threads[id].Forwarding?)
    ensures Inv(Finished(w, id), cfg)
  {
    hide PhaseOk, Origin, Genuine, Stores;
    LoginsOnly(w, id, Finished(w, id), cfg) by {
      ThreadPhase(w, id, cfg);
      PhaseMeans(w, w.threads[id], cfg);
    }
  }

  lemma TickInv(w: World, d: real, cfg: Config)
    requires Inv(w, cfg) && d >= 0.0
    ensures Inv(w.(now := w.now + d), cfg)
  {
    hide Origin, PhaseOk;
    StoresFrame(w, w.(now := w.now + d), cfg);
  }

  lemma ThreadOnlyInv(w: World, id: nat, p: Phase, cfg: Config)
    requires Inv(w, cfg) && (p.Asking? || p.Reading? || p.Done?)
    ensures Inv(Go(w, id, p), cfg)
  {
    hide Origin, Genuine;
    StoresFrame(w, Go(w, id, p), cfg);
  }

  lemma StepInv(w: World, ev: Event, cfg: Config)
    requires Inv(w, cfg) && Enabled(w, ev)
    ensures Inv(Step(w, ev, cfg), cfg)
  {
    hide Origin, Genuine, PhaseOk, Stores, OneShot, Chains, Faithful, Asked, Looked, TakenBy, SentBy, Finished, Remembered;
    match ev
    case Tick(d) => TickInv(w, d, cfg);
    case Login(id, user) => ThreadOnlyInv(w, id, if user == "" || !cfg.primary then Done(Rejected) else Asking(user, 0), cfg);
    case Answer(id, cid) => ThreadOnlyInv(w, id, Reading(cid), cfg);
    case AskServer(id, reply) => AskInv(w, id, reply, cfg);
    case Take(id) => TakeKeepsStores(w, id, cfg); TakeKeepsRest(w, id, cfg);
    case Send(id, reply) => SendKeepsStores(w, id, reply, cfg); SendKeepsRest(w, id, reply, cfg);
    case Remember(id) => RememberInv(w, id, cfg);
    case ReadLogin(id) => LookInv(w, id, cfg);
    case Finish(id) => FinishInv(w, id, cfg);
  }

  lemma {:induction false} RunInv(w: World, evs: seq<Event>, cfg: Config)
    requires Inv(w, cfg) && Legal(w, evs, cfg)
    ensures Inv(Run(w, evs, cfg), cfg)
    decreases |evs|
  {
    hide Inv, Step, Enabled;
    if evs != [] {
      StepInv(w, evs[0], cfg);
      RunInv(Step(w, evs[0], cfg), evs[1..], cfg);
    }
  }

  lemma InitInv(w: World, cfg: Config)
    requires Init(w)
    ensures Inv(w, cfg)
  {
  }

  // -------------------------------------------------------------- theorems

  /** However many phase-2 calls race for one challenge, at most one request is
      ever sent for it, by the call that took it within 120 s of its being
      issued. */
  lemma OneRequestPerChallenge(w: World, evs: seq<Event>, cfg: Config, j: nat, k: nat)
    requires Init(w) && Legal(w, evs, cfg) && j < |Run(w, evs, cfg).sent| && k < |Run(w, evs, cfg).sent|
    requires Run(w, evs, cfg).sent[j].cid == Run(w, evs, cfg).sent[k].cid
    ensures j == k
    ensures var v := Run(w, evs, cfg);
            var c := v.sent[k].cid;
            c in v.taken && c < |v.issued| && v.issued[c].at <= v.taken[c] <= v.issued[c].at + CHALLENGE_TTL
  {
    InitInv(w, cfg);
    RunInv(w, evs, cfg);
  }

  /** Every continuation returns the State it was given, unmodified, to the
      server that gave it, in the name of the user who began the conversation;
      and all challenges of one conversation come from that one server. */
  lemma StateReturnsToItsServer(w: World, evs: seq<Event>, cfg: Config, k: nat)
    requires Init(w) && Legal(w, evs, cfg) && k < |Run(w, evs, cfg).sent|
    ensures var v := Run(w, evs, cfg);
            var s := v.sent[k];
            && s.cid < |v.issued| && s.state == v.issued[s.cid].state && s.server == v.issued[s.cid].server
            && s.name == cfg.Realm(Origin(v.issued, s.cid))
            && s.server == RootServer(v.issued, s.cid)
  {
    InitInv(w, cfg);
    RunInv(w, evs, cfg);
    OneServerPerConversation(Run(w, evs, cfg), Run(w, evs, cfg).sent[k].cid);
  }

  /** The server that answered the conversation's first request. */
  ghost function RootServer(issued: seq<Issue>, cid: Cid): nat {
    if cid >= |issued| then 0
    else match issued[cid].cause
      case Root(_) => issued[cid].server
      case From(parent) => if parent < cid then RootServer(issued, parent) else 0
  }

  lemma {:induction false} OneServerPerConversation(w: World, cid: Cid)
    requires Chains(w) && cid < |w.issued|
    ensures w.issued[cid].server == RootServer(w.issued, cid)
    decreases cid
  {
    if w.issued[cid].cause.From? {
      OneServerPerConversation(w, w.issued[cid].cause.parent);
    }
  }

  /** A phase-2 call about to grant a login grants it to the user whose phase-1
      call began the conversation, and a server accepted exactly that user's
      name for that very challenge. */
  lemma AcceptIsForTheOriginator(w: World, evs: seq<Event>, cfg: Config, id: nat)
    requires Init(w) && Legal(w, evs, cfg) && id in Run(w, evs, cfg).threads && Run(w, evs, cfg).threads[id].Accepting?
    ensures var v := Run(w, evs, cfg);
            var p := v.threads[id];
            && p.user == Origin(v.issued, p.cid)
            && Step(v, Finish(id), cfg).threads[id] == Done(Accepted(p.user))
            && exists k :: 0 <= k < |v.sent| && v.sent[k].cid == p.cid && v.sent[k].accepted
                           && v.sent[k].name == cfg.Realm(p.user)
  {
    InitInv(w, cfg);
    RunInv(w, evs, cfg);
    var v := Run(w, evs, cfg);
    assert PhaseOk(v, v.threads[id], cfg);
  }

  // ------------------------------------------------- one caller on its own

  /** The failover loop, from the thread's current server on. */
  function AskFrom(w: World, id: nat, replies: nat -> Reply, cfg: Config): (v: World)
    requires id in w.threads && w.threads[id].Asking?
    ensures id in v.threads && !v.threads[id].Asking?
    decreases 2 - w.threads[id].server
  {
    var i := w.threads[id].server;
    var v := Asked(w, id, replies(i), cfg);
    if i < 2 && v.threads[id].Asking? then AskFrom(v, id, replies, cfg) else v
  }

  lemma OutOfServers(w: World, id: nat, replies: nat -> Reply, cfg: Config)
    requires id in w.threads && w.threads[id].Asking? && w.threads[id].server >= 2
    ensures AskFrom(w, id, replies, cfg) == Go(w, id, Done(Rejected))
  {
  }

  // What the servers' replies decide, said of replies and configuration alone.
  predicate Serves(cfg: Config, i: nat) {
    (i == 0 && cfg.primary && cfg.secret1) || (i == 1 && cfg.secondary && cfg.secret2)
  }

  /** Server `i` answers, and every server before it failed. */
  ghost predicate Decides(cfg: Config, replies: nat -> Reply, i: nat) {
    && Serves(cfg, i) && replies(i) != Failure
    && forall j: nat | j < i && Serves(cfg, j) :: replies(j) == Failure
  }

  /** Phase 1 comes to what the first server that answers says: an acceptance to
      the user's login, a challenge to the challenge stored, and only a rejection
      or no answer at all to a rejection. */
  lemma FirstAnswerDecides(w: World, id: nat, user: string, replies: nat -> Reply, cfg: Config)
    requires id in w.threads && w.threads[id] == Asking(user, 0)
    ensures var v := AskFrom(w, id, replies, cfg);
            var p := v.threads[id];
            && (p == Done(Accepted(user)) <==> exists i :: Decides(cfg, replies, i) && replies(i) == Accept)
            && (p == Done(Rejected) <==> forall i :: Decides(cfg, replies, i) ==> replies(i) == Reject)
            && (p == Carrying(user, |w.issued|) <==> exists i :: Decides(cfg, replies, i) && replies(i).Ask?)
    ensures forall i | Decides(cfg, replies, i) && replies(i).Ask? ::
              var v := AskFrom(w, id, replies, cfg);
              && |w.issued| in v.challenges
              && v.challenges[|w.issued|] == Challenge(user, cfg.prefix + user + cfg.suffix, replies(i).state, w.now, i)
              && v.logins == w.logins && v.now == w.now && |v.issued| == |w.issued| + 1
  {
    var a := Asked(w, id, replies(0), cfg);
    OneAnswer(w, id, replies(0), cfg);
    if Serves(cfg, 0) && replies(0) != Failure {
      assert Decides(cfg, replies, 0);
      assert forall i | Decides(cfg, replies, i) :: i == 0;
      hide Asked;
    } else {
      var b := Asked(a, id, replies(1), cfg);
      OneAnswer(a, id, replies(1), cfg);
      if Serves(cfg, 1) && replies(1) != Failure {
        assert Decides(cfg, replies, 1);
        assert forall i | Decides(cfg, replies, i) :: i == 1;
      } else {
        OutOfServers(b, id, replies, cfg);
      }
      hide Asked;
    }
  }

  /** One server's turn in the failover loop. */
  lemma OneAnswer(w: World, id: nat, reply: Reply, cfg: Config)
    requires id in w.threads && w.threads[id].Asking? && w.threads[id].server < 2
    ensures var v, user, i := Asked(w, id, reply, cfg), w.threads[id].user, w.threads[id].server;
            if Serves(cfg, i) && reply != Failure then
              && (reply == Accept ==> v.threads[id] == Done(Accepted(user)))
              && (reply == Reject ==> v.threads[id] == Done(Rejected))
              && (reply.Ask? ==>
                    && v.threads[id] == Carrying(user, |w.issued|) && |w.issued| in v.challenges
                    && v.challenges[|w.issued|] == Challenge(user, cfg.prefix + user + cfg.suffix, reply.state, w.now, i)
                    && v.logins == w.logins && v.now == w.now && |v.issued| == |w.issued| + 1)
            else v == w.(threads := w.threads[id := Asking(user, i + 1)])
  {
    hide LiveChallenges;
  }

  lemma AskFromEnds(w: World, id: nat, user: string, replies: nat -> Reply, cfg: Config)
    requires id in w.threads && w.threads[id] == Asking(user, 0)
    ensures AskFrom(w, id, replies, cfg).threads[id] in [Done(Accepted(user)), Done(Rejected), Carrying(user, |w.issued|)]
  {
    OneAnswer(w, id, replies(0), cfg);
    var a := Asked(w, id, replies(0), cfg);
    if a.threads[id].Asking? {
      OneAnswer(a, id, replies(1), cfg);
      var b := Asked(a, id, replies(1), cfg);
      if b.threads[id].Asking? { OutOfServers(b, id, replies, cfg); }
    }
    hide Asked;
  }

  /** An event in which a server accepts for this thread. */
  predicate ServerAccepts(ev: Event, id: nat) { ev == AskServer(id, Accept) || ev == Send(id, Accept) }

  predicate Granting(w: World, id: nat) {
    id in w.threads && (w.threads[id].Accepting? || (w.threads[id].Done? && w.threads[id].verdict.Accepted?))
  }

  /** In every run a thread is granted a login only after a server has accepted
      in that very thread, in phase 1 as in phase 2. */
  lemma {:induction false} GrantNeedsAServer(w: World, evs: seq<Event>, cfg: Config, id: nat)
    requires Legal(w, evs, cfg) && !Granting(w, id) && Granting(Run(w, evs, cfg), id)
    ensures exists k :: 0 <= k < |evs| && ServerAccepts(evs[k], id)
    decreases |evs|
  {
    var u := Step(w, evs[0], cfg);
    if Granting(u, id) {
      OneStepGrants(w, evs[0], cfg, id);
      assert ServerAccepts(evs[0], id);
    } else {
      hide Step, Enabled, Granting;
      GrantNeedsAServer(u, evs[1..], cfg, id);
      var k :| 0 <= k < |evs[1..]| && ServerAccepts(evs[1..][k], id);
      assert ServerAccepts(evs[k + 1], id);
    }
  }

  lemma OneStepGrants(w: World, ev: Event, cfg: Config, id: nat)
    requires Enabled(w, ev) && !Granting(w, id) && Granting(Step(w, ev, cfg), id)
    ensures ServerAccepts(ev, id)
  {
    hide LiveChallenges, LiveLogins;
  }

  /** `radius_continue_challenge`: take the challenge and send it. */
  function Continued(w: World, id: nat, reply: Reply, cfg: Config): (v: World)
    requires id in w.threads && w.threads[id].Holding?
    ensures id in v.threads && (v.threads[id].Failing? || v.threads[id].Accepting? || v.threads[id].Forwarding?)
  {
    var b := TakenBy(w, id);
    if b.threads[id].Sending? then SentBy(b, id, reply, cfg) else b
  }

  /** A whole phase-2 call. */
  function AnswerAlone(w: World, id: nat, reply: Reply, cfg: Config): (v: World)
    requires id in w.threads && w.threads[id].Reading?
    ensures id in v.threads && v.threads[id].Done?
  {
    var a := Looked(w, id);
    if a.threads[id].Done? then a else Finished(Continued(a, id, reply, cfg), id)
  }

  lemma ContinuedTakes(w: World, id: nat, reply: Reply, cfg: Config)
    requires id in w.threads && w.threads[id].Holding? && w.threads[id].cid < |w.issued|
    ensures var v := Continued(w, id, reply, cfg);
            w.threads[id].cid !in v.challenges && v.threads[id].cid == w.threads[id].cid
  {
  }

  /** An id nobody is logging in with changes nothing but the pruning; any
      other is used up, in both maps, whatever the server replies. */
  lemma AnswerUsesUpTheChallenge(w: World, id: nat, reply: Reply, cfg: Config)
    requires Inv(w, cfg) && id in w.threads && w.threads[id].Reading?
    ensures var cid := w.threads[id].cid;
            var v := AnswerAlone(w, id, reply, cfg);
            && (cid !in LiveLogins(w.logins, w.now) ==>
                  v.threads[id] == Done(Rejected) && v.challenges == w.challenges && v.sent == w.sent)
            && (cid in LiveLogins(w.logins, w.now) ==> cid !in v.logins && cid !in v.challenges)
  {
    hide Origin, Continued, Genuine, PhaseOk;
    var a := Looked(w, id);
    if a.threads[id].Holding? {
      ContinuedTakes(a, id, reply, cfg);
    }
  }

  predicate Young(created: real, now: real) { now - created <= 120.0 }

  /** A phase-2 call, by what is stored and what the server replies: while login
      and challenge are at most 120 s old and the server still configured, it
      comes to the server's reply, in the name of the login; else to a rejection.
      A further challenge carries the login on. */
  lemma AnswerVerdict(w: World, id: nat, reply: Reply, cfg: Config)
    requires id in w.threads && w.threads[id].Reading? && w.threads[id].cid < |w.issued|
    ensures var cid, v := w.threads[id].cid, AnswerAlone(w, id, reply, cfg);
            var alive := cid in w.logins && Young(w.logins[cid].created, w.now)
                         && cid in w.challenges && Young(w.challenges[cid].created, w.now)
                         && ((w.challenges[cid].server == 0 && cfg.primary) || (w.challenges[cid].server == 1 && cfg.secondary));
            && (v.threads[id] == Done(Rejected) <==> !alive || reply == Reject || reply == Failure)
            && (alive && reply == Accept ==> v.threads[id] == Done(Accepted(w.logins[cid].username)))
            && (alive && reply.Ask? ==>
                  var next := |w.issued|;
                  && v.threads[id] == Done(Challenged(next))
                  && next in v.logins && v.logins[next] == Ctx(w.logins[cid].username, w.now)
                  && next in v.challenges && v.challenges[next] == w.challenges[cid].(state := reply.state, created := w.now))
  {
    var cid, a := w.threads[id].cid, Looked(w, id);
    if a.threads[id].Holding? { TakenOrNot(a, id, reply, cfg); }
    hide Continued;
  }

  /** The part of a phase-2 call that takes the challenge and sends it. */
  lemma TakenOrNot(w: World, id: nat, reply: Reply, cfg: Config)
    requires id in w.threads && w.threads[id].Holding? && w.threads[id].cid < |w.issued|
    ensures var cid, user, v := w.threads[id].cid, w.threads[id].user, Continued(w, id, reply, cfg);
            var alive := cid in w.challenges && Young(w.challenges[cid].created, w.now)
                         && ((w.challenges[cid].server == 0 && cfg.primary) || (w.challenges[cid].server == 1 && cfg.secondary));
            && v.logins == w.logins && v.now == w.now
            && v.threads[id] == (if !alive || reply == Reject || reply == Failure then Failing(cid)
                                 else if reply == Accept then Accepting(cid, user)
                                 else Forwarding(cid, user, |w.issued|))
            && (alive && reply.Ask? ==>
                  |w.issued| in v.challenges && v.challenges[|w.issued|] == w.challenges[cid].(state := reply.state, created := w.now))
  {
    TakenIs(w, id);
    var b := TakenBy(w, id);
    if b.threads[id].Sending? { SentIs(b, id, reply, cfg); }
    hide TakenBy, SentBy;
  }

  lemma TakenIs(w: World, id: nat)
    requires id in w.threads && w.threads[id].Holding?
    ensures var cid, user, v := w.threads[id].cid, w.threads[id].user, TakenBy(w, id);
            && v.logins == w.logins && v.now == w.now && v.issued == w.issued && id in v.threads
            && v.threads[id] == (if cid in w.challenges && Young(w.challenges[cid].created, w.now) then Sending(cid, user, w.challenges[cid])
                                 else Failing(cid))
  {
  }

  lemma SentIs(w: World, id: nat, reply: Reply, cfg: Config)
    requires id in w.threads && w.threads[id].Sending?
    ensures var cid, user, ch, v := w.threads[id].cid, w.threads[id].user, w.threads[id].ch, SentBy(w, id, reply, cfg);
            var there := (ch.server == 0 && cfg.primary) || (ch.server == 1 && cfg.secondary);
            && v.logins == w.logins && v.now == w.now && id in v.threads
            && v.threads[id] == (if !there || reply == Reject || reply == Failure then Failing(cid)
                                 else if reply == Accept then Accepting(cid, user)
                                 else Forwarding(cid, user, |w.issued|))
            && (there && reply.Ask? ==>
                  |w.issued| in v.challenges && v.challenges[|w.issued|] == ch.(state := reply.state, created := w.now))
  {
    hide LiveChallenges;
  }

  /** What phase 1 leaves for phase 2. */
  lemma Remembers(w: World, id: nat)
    requires id in w.threads && w.threads[id].Carrying?
    ensures var v, cid := Remembered(w, id), w.threads[id].cid;
            && v.threads[id] == Done(Challenged(cid)) && v.challenges == w.challenges && v.issued == w.issued && v.now == w.now
            && cid in v.logins && v.logins[cid] == Ctx(w.threads[id].user, w.now)
  {
  }

  /** A whole conversation: a phase-1 call that is challenged, and `d` seconds
      later a phase-2 call the server accepts.  It logs in the user of the
      phase-1 call exactly if at most 120 s have passed. */
  lemma ConversationCompletesIff(w: World, id: nat, user: string, replies: nat -> Reply, cfg: Config, i: nat, d: real, other: nat)
    requires id in w.threads && w.threads[id] == Asking(user, 0) && d >= 0.0
    requires Decides(cfg, replies, i) && replies(i).Ask?
    ensures var cid := |w.issued|;
            var a := AskFrom(w, id, replies, cfg);
            && a.threads[id] == Carrying(user, cid)
            && (var b := Remembered(a, id);
                var c := b.(now := b.now + d, threads := b.threads[other := Reading(cid)]);
                AnswerAlone(c, other, Accept, cfg).threads[other] == (if d <= 120.0 then Done(Accepted(user)) else Done(Rejected)))
  {
    hide AskFrom, AnswerAlone, Remembered;
    FirstAnswerDecides(w, id, user, replies, cfg);
    var a := AskFrom(w, id, replies, cfg);
    Remembers(a, id);
    var b := Remembered(a, id);
    var c := b.(now := b.now + d, threads := b.threads[other := Reading(|w.issued|)]);
    AnswerVerdict(c, other, Accept, cfg);
  }

  class RadiusStore {
    const cfg: Config
    var challenges: map<Cid, Challenge>
    var logins: map<Cid, Ctx>
    ghost var issued: seq<Issue>
    ghost var taken: map<Cid, real>
    ghost var sent: seq<Sent>
    var nextCid: Cid

    constructor (cfg: Config)
      ensures this.cfg == cfg && nextCid == 0 && forall p, now :: Init(View(p, now).(threads := map[]))
    {
      this.cfg := cfg;
      challenges, logins, issued, taken, sent, nextCid := map[], map[], [], map[], [], 0;
    }

    /** The world as a lone thread 0 in phase `p` sees it. */
    ghost function View(p: Phase, now: real): World reads this {
      World(now, challenges, logins, map[0 := p], issued, taken, sent)
    }

    ghost predicate Valid() reads this { nextCid == |issued| }

    method PruneChallenges(now: real)
      modifies this`challenges
      ensures challenges == LiveChallenges(old(challenges), now)
    {
      var stale := set c | c in challenges && now - challenges[c].created > CHALLENGE_TTL;
      while stale != {}
        invariant stale <= set c | c in old(challenges) && now - old(challenges)[c].created > CHALLENGE_TTL
        invariant challenges == map c | c in old(challenges)
                    && (now - old(challenges)[c].created <= CHALLENGE_TTL || c in stale) :: old(challenges)[c]
        decreases stale
      {
        var c :| c in stale;
        challenges := challenges - {c};
        stale := stale - {c};
      }
    }

    method PruneLogins(now: real)
      modifies this`logins
      ensures logins == LiveLogins(old(logins), now)
    {
      var expired := set c | c in logins && now - logins[c].created > CTX_TTL;
      logins := logins - expired;
    }

    method StoreChallenge(ch: Challenge, now: real, ghost cause: Cause) returns (cid: Cid)
      requires Valid() && ch.created == now
      modifies this`challenges, this`issued, this`nextCid
      ensures Valid() && cid == old(nextCid)
      ensures forall p, q :: View(q, now) == Go(IssueChallenge(old(View(p, now)), ch, cause), 0, q)
    {
      PruneChallenges(now);
      cid := nextCid;
      challenges := challenges[cid := ch];
      issued := issued + [Issue(ch.server, ch.state, now, cause)];
      nextCid := nextCid + 1;
    }

    /** One turn of the failover loop. */
    method AskOne(user: string, i: nat, reply: Reply, now: real) returns (p: Phase)
      requires Valid() && i < 2
      modifies this`challenges, this`issued, this`nextCid
      ensures Valid() && View(p, now) == Asked(old(View(Asking(user, i), now)), 0, reply, cfg)
      ensures p.Asking? ==> p == Asking(user, i + 1)
    {
      ghost var before := View(Asking(user, i), now);
      if cfg.Configured(i) && cfg.HasSecret(i) && reply.Ask? {
        var cid := StoreChallenge(Challenge(user, cfg.Realm(user), reply.state, now, i), now, Root(user));
        p := Carrying(user, cid);
        assert View(p, now) == Asked(before, 0, reply, cfg);
        return;
      }
      p := if !cfg.Configured(i) || !cfg.HasSecret(i) || reply.Failure? then Asking(user, i + 1)
           else if reply.Accept? then Done(Accepted(user)) else Done(Rejected);
      assert Go(before, 0, p) == View(p, now);
    }

    /** `radius_authenticate`: the first server that answers decides. */
    method Authenticate(user: string, replies: nat -> Reply, now: real) returns (p: Phase)
      requires Valid()
      modifies this`challenges, this`issued, this`nextCid
      ensures Valid() && View(p, now) == AskFrom(old(View(Asking(user, 0), now)), 0, replies, cfg)
      ensures p == Done(Accepted(user)) <==> exists i :: Decides(cfg, replies, i) && replies(i) == Accept
      ensures p == Done(Rejected) <==> forall i :: Decides(cfg, replies, i) ==> replies(i) == Reject
      ensures p == Carrying(user, |old(issued)|) <==> exists i :: Decides(cfg, replies, i) && replies(i).Ask?
    {
      FirstAnswerDecides(View(Asking(user, 0), now), 0, user, replies, cfg);
      hide Asked, Decides;
      p := Asking(user, 0);
      ghost var start := View(p, now);
      while p.Asking? && p.server < 2
        invariant Valid() && (p.Asking? ==> p.user == user && p.server <= 2)
        invariant if p.Asking? then AskFrom(View(p, now), 0, replies, cfg) == AskFrom(start, 0, replies, cfg)
                  else View(p, now) == AskFrom(start, 0, replies, cfg)
        decreases p.Asking?, if p.Asking? then 2 - p.server else 0
      {
        p := AskOne(user, p.server, replies(p.server), now);
      }
      if p.Asking? {
        ghost var last := View(p, now);
        p := Done(Rejected);
        OutOfServers(last, 0, replies, cfg);
        assert Go(last, 0, p) == View(p, now);
      }
    }

    /** `radius_login_phase1`. */
    method LoginUser(user: string, replies: nat -> Reply, now: real) returns (v: Verdict)
      requires Valid()
      modifies this
      ensures Valid()
      ensures user == "" || !cfg.primary ==> v == Rejected && logins == old(logins) && challenges == old(challenges)
      ensures user != "" && cfg.primary ==>
                && (v == Accepted(user) <==> exists i :: Decides(cfg, replies, i) && replies(i) == Accept)
                && (v == Rejected <==> forall i :: Decides(cfg, replies, i) ==> replies(i) == Reject)
                && (v == Challenged(|old(issued)|) <==> exists i :: Decides(cfg, replies, i) && replies(i).Ask?)
      ensures v.Challenged? ==> v.cid in logins && logins[v.cid] == Ctx(user, now)
    {
      if user == "" || !cfg.primary { return Rejected; }
      hide AskFrom, Decides;
      var p := Authenticate(user, replies, now);
      AskFromEnds(old(View(Asking(user, 0), now)), 0, user, replies, cfg);
      if p.Carrying? {
        PruneLogins(now);
        logins := logins[p.cid := Ctx(user, now)];
        return Challenged(p.cid);
      }
      v := p.verdict;
    }

    /** `radius_continue_challenge`; the caller's `user` is only carried along. */
    method ContinueChallenge(cid: Cid, user: string, reply: Reply, now: real) returns (p: Phase)
      requires Valid()
      modifies this`challenges, this`issued, this`taken, this`sent, this`nextCid
      ensures Valid() && View(p, now) == Continued(old(View(Holding(cid, user), now)), 0, reply, cfg)
    {
      hide SentBy, TakenBy;
      p := TakeChallenge(cid, user, now);
      if p.Sending? {
        p := SendChallenge(cid, user, p.ch, reply, now);
      }
    }

    /** Prunes, then takes the challenge out, if it is there. */
    method TakeChallenge(cid: Cid, user: string, now: real) returns (p: Phase)
      requires Valid()
      modifies this`challenges, this`taken
      ensures Valid() && View(p, now) == TakenBy(old(View(Holding(cid, user), now)), 0)
      ensures p == Failing(cid) || (p.Sending? && p.cid == cid && p.user == user)
    {
      ghost var a := View(Holding(cid, user), now);
      PruneChallenges(now);
      if cid !in challenges {
        assert Go(a, 0, Failing(cid)).(challenges := challenges) == View(Failing(cid), now);
        return Failing(cid);
      }
      p := Sending(cid, user, challenges[cid]);
      challenges, taken := challenges - {cid}, taken[cid := now];
      assert Go(a, 0, p).(challenges := challenges, taken := taken) == View(p, now);
    }

    method SendChallenge(cid: Cid, user: string, ch: Challenge, reply: Reply, now: real) returns (p: Phase)
      requires Valid()
      modifies this`challenges, this`issued, this`sent, this`nextCid
      ensures Valid() && View(p, now) == SentBy(old(View(Sending(cid, user, ch), now)), 0, reply, cfg)
    {
      ghost var b := View(Sending(cid, user, ch), now);
      if !cfg.Configured(ch.server) {
        assert Go(b, 0, Failing(cid)) == View(Failing(cid), now);
        return Failing(cid);
      }
      sent := sent + [Sent(cid, ch.server, ch.state, ch.sendName, reply.Accept?)];
      ghost var c := View(Sending(cid, user, ch), now);
      match reply {
        case Accept =>
          assert Go(c, 0, Accepting(cid, user)) == View(Accepting(cid, user), now);
          p := Accepting(cid, user);
        case Ask(state) =>
          var next := StoreChallenge(ch.(state := state, created := now), now, From(cid));
          assert View(Forwarding(cid, user, next), now)
              == Go(IssueChallenge(c, ch.(state := state, created := now), From(cid)), 0, Forwarding(cid, user, next));
          p := Forwarding(cid, user, next);
        case Reject =>
          assert Go(c, 0, Failing(cid)) == View(Failing(cid), now);
          p := Failing(cid);
        case Failure =>
          assert Go(c, 0, Failing(cid)) == View(Failing(cid), now);
          p := Failing(cid);
      }
    }

    /** The end of a phase-2 call: whatever happened, the login it answered
        for is dropped, and carried forward to a follow-up challenge. */
    method Tidy(p: Phase, now: real) returns (v: Verdict)
      requires Valid() && (p.Failing? || p.Accepting? || p.Forwarding?)
      modifies this`logins
      ensures View(Done(v), now) == Finished(old(View(p, now)), 0)
    {
      ghost var c := View(p, now);
      if p.Accepting? {
        v := Accepted(p.user);
      } else if p.Forwarding? {
        logins, v := logins[p.next := Ctx(p.user, now)], Challenged(p.next);
      } else {
        v := Rejected;
      }
      logins := logins - {p.cid};
      assert Go(c, 0, Done(v)).(logins := logins) == View(Done(v), now);
    }

    /** `radius_login_phase2`. */
    method AnswerChallenge(cid: Cid, reply: Reply, now: real) returns (v: Verdict)
      requires Valid()
      modifies this
      ensures Valid() && View(Done(v), now) == AnswerAlone(old(View(Reading(cid), now)), 0, reply, cfg)
    {
      hide Continued, Finished;
      ghost var w := View(Reading(cid), now);
      PruneLogins(now);
      if cid !in logins {
        assert Go(w, 0, Done(Rejected)).(logins := logins) == View(Done(Rejected), now);
        return Rejected;
      }
      var user := logins[cid].username;
      assert Looked(w, 0) == View(Holding(cid, user), now) by {
        assert Go(w, 0, Holding(cid, user)).(logins := logins) == View(Holding(cid, user), now);
      }
      var p := ContinueChallenge(cid, user, reply, now);
      v := Tidy(p, now);
    }
  }
}
