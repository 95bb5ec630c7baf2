/** The stock-notice outbox and its two senders: the GAS flush and the Windows relay
    (preRegistrationStockAlerts.js, scripts/windows/inventory-stock-alert-relay.js).

    Every lock-held section of the source is one atomic step on the stored state; sender steps, the
    network, crashes and the clock interleave freely. Assumed: an execution lives at most 6 minutes,
    a POST takes at least 1 ms and is accepted, if at all, before its timeout, both machines read the
    same clock, and a complete history read shows every accepted POST. */
module StockOutbox {

  import opened Basics

  type Req = nat

  const FLUSH_LEASE := 420000
  const RELAY_CLAIM := 120000
  const RELAY_SEND := 180000
  const SETTLE := 60000
  const EXECUTION := 360000
  const GAS_POST := 60000
  const RELAY_POST := 20000

  datatype Lease = Lease(owner: nat, until: nat)

  /** `state.pending` of one request. `wanted` stands for desiredHash === hash and actionable. */
  datatype Notice = Notice(id: nat, token: Option<nat>, relayUntil: nat, generation: Option<nat>,
                           attemptedAt: nat, posted: bool, wanted: bool, rejected: bool)

  datatype Store = Store(lease: Option<Lease>, dirty: map<Req, nat>, notices: map<Req, Notice>)

  datatype Status = Busy | Idle | Pending | Claimed | Conflict | Stale | Authorized | Sent | Obsolete

  // ---------------------------------------------------------------- lock-held sections on the store

  predicate LeaseActive(s: Store, now: nat) {
    s.lease.Some? && s.lease.value.until > now
  }

  function Generation(s: Store, req: Req): Option<nat> {
    if req in s.dirty then Some(s.dirty[req]) else None
  }

  /** The state `claimPreRegistrationStockAlertRelay` leaves and the status it answers. */
  function ClaimStep(s: Store, now: nat, req: Req, verified: Option<nat>, token: nat): (Store, Status) {
    if LeaseActive(s, now) then (s, Busy)
    else if Generation(s, req) != verified then (s, Pending)
    else if req !in s.notices || s.notices[req].relayUntil > now then (s, Idle)
    else
      var n := s.notices[req].(token := Some(token), relayUntil := now + RELAY_CLAIM, generation := verified);
      (s.(notices := s.notices[req := n]), Claimed)
  }

  predicate Holds(s: Store, now: nat, req: Req, id: nat, token: nat) {
    && req in s.notices && s.notices[req].id == id
    && s.notices[req].token == Some(token) && s.notices[req].relayUntil >= now
  }

  function AuthorizeStep(s: Store, now: nat, req: Req, id: nat, token: nat): (Store, Status) {
    if LeaseActive(s, now) then (s, Busy)
    else if !Holds(s, now, req, id, token) then (s, Conflict)
    else
      var n := s.notices[req];
      if Generation(s, req) != n.generation || !n.wanted then (s, Stale)
      else (s.(notices := s.notices[req := n.(attemptedAt := now, relayUntil := now + RELAY_SEND, rejected := false)]),
            Authorized)
  }

  /** The two acknowledgements the relay sends: delivered, or obsolete. */
  function AcknowledgeStep(s: Store, now: nat, req: Req, id: nat, token: nat, delivered: bool): (Store, Status) {
    if LeaseActive(s, now) then (s, Busy)
    else if !Holds(s, now, req, id, token) then (s, Conflict)
    else if !delivered && s.notices[req].wanted then (s, Conflict)
    else (s.(notices := s.notices - {req}), if delivered then Sent else Obsolete)
  }

  /** The stored outbox as the script mutates it, one lock-held section a method. */
  class Outbox {
    var lease: Option<Lease>
    var dirty: map<Req, nat>
    var notices: map<Req, Notice>

    ghost function View(): Store
      reads this
    {
      Store(lease, dirty, notices)
    }

    method TakeLease(now: nat, owner: nat) returns (claimed: bool)
      modifies this`lease
      ensures claimed == !LeaseActive(old(View()), now)
      ensures View() == if claimed then old(View()).(lease := Some(Lease(owner, now + FLUSH_LEASE))) else old(View())
    {
      claimed := !(lease.Some? && lease.value.until > now);
      if claimed { lease := Some(Lease(owner, now + FLUSH_LEASE)); }
    }

    method ReleaseLease(owner: nat)
      modifies this`lease
      ensures View() == if old(lease).Some? && old(lease).value.owner == owner
                        then old(View()).(lease := None) else old(View())
    {
      if lease.Some? && lease.value.owner == owner { lease := None; }
    }

    /** Refused under a lease, for another request generation than the one verified, and while a claim runs. */
    method Claim(now: nat, req: Req, verified: Option<nat>, token: nat) returns (status: Status)
      modifies this`notices
      ensures (View(), status) == ClaimStep(old(View()), now, req, verified, token)
      ensures status == Busy <==> lease.Some? && lease.value.until > now
      ensures status in {Pending, Idle, Claimed} || status == Busy
      ensures status in {Idle, Claimed} ==> (req in dirty <==> verified.Some?)
      ensures status in {Idle, Claimed} && verified.Some? ==> dirty[req] == verified.value
      ensures status == Pending ==> !(if req in dirty then verified == Some(dirty[req]) else verified == None)
      ensures status == Claimed ==> req in old(notices) && old(notices)[req].relayUntil <= now
      ensures status == Idle ==> req in old(notices) ==> old(notices)[req].relayUntil > now
      ensures status == Claimed ==>
                && notices.Keys == old(notices).Keys
                && (forall r :: r in notices && r != req ==> notices[r] == old(notices)[r])
                && var was, now1 := old(notices)[req], notices[req];
                   && now1.token == Some(token) && now1.relayUntil == now + RELAY_CLAIM && now1.generation == verified
                   && now1.id == was.id && now1.attemptedAt == was.attemptedAt && now1.posted == was.posted
                   && now1.wanted == was.wanted && now1.rejected == was.rejected
      ensures status != Claimed ==> notices == old(notices)
    {
      if lease.Some? && lease.value.until > now { return Busy; }
      if (if req in dirty then Some(dirty[req]) else None) != verified { return Pending; }
      if req !in notices || notices[req].relayUntil > now { return Idle; }
      notices := notices[req := notices[req].(token := Some(token), relayUntil := now + RELAY_CLAIM,
                                              generation := verified)];
      return Claimed;
    }

    /** Whoever is authorized holds a running claim on this very notice, the request is still of the generation it
        claimed, and the notice is still wanted; the attempt and its 180 seconds are on record before the answer. */
    method Authorize(now: nat, req: Req, id: nat, token: nat) returns (status: Status)
      modifies this`notices
      ensures (View(), status) == AuthorizeStep(old(View()), now, req, id, token)
      ensures status == Busy <==> lease.Some? && lease.value.until > now
      ensures status in {Stale, Status.Authorized} <==>
                status != Busy && req in old(notices) && old(notices)[req].id == id
                && old(notices)[req].token == Some(token) && old(notices)[req].relayUntil >= now
      ensures status in {Busy, Conflict, Stale} || status == Status.Authorized
      ensures status == Status.Authorized ==>
                && old(notices)[req].wanted
                && (req in dirty <==> old(notices)[req].generation.Some?)
                && (req in dirty ==> old(notices)[req].generation == Some(dirty[req]))
      ensures status == Stale ==>
                || !old(notices)[req].wanted
                || (if req in dirty then old(notices)[req].generation != Some(dirty[req])
                    else old(notices)[req].generation.Some?)
      ensures status == Status.Authorized ==>
                notices == old(notices)[req := old(notices)[req].(attemptedAt := now, relayUntil := now + RELAY_SEND,
                                                                  rejected := false)]
      ensures status != Status.Authorized ==> notices == old(notices)
    {
      if lease.Some? && lease.value.until > now { return Busy; }
      if req !in notices || notices[req].id != id || notices[req].token != Some(token)
          || notices[req].relayUntil < now {
        return Conflict;
      }
      var pending := notices[req];
      if (if req in dirty then Some(dirty[req]) else None) != pending.generation || !pending.wanted { return Stale; }
      pending := pending.(attemptedAt := now, relayUntil := now + RELAY_SEND, rejected := false);
      notices := notices[req := pending];
      return Status.Authorized;
    }

    /** Only the holder of a running claim closes a notice, and as obsolete only one that is not wanted. */
    method Acknowledge(now: nat, req: Req, id: nat, token: nat, delivered: bool) returns (status: Status)
      modifies this`notices
      ensures (View(), status) == AcknowledgeStep(old(View()), now, req, id, token, delivered)
      ensures status == Busy <==> lease.Some? && lease.value.until > now
      ensures status in {Sent, Obsolete} <==>
                && status != Busy && req in old(notices) && old(notices)[req].id == id
                && old(notices)[req].token == Some(token) && old(notices)[req].relayUntil >= now
                && (delivered || !old(notices)[req].wanted)
      ensures status in {Busy, Conflict, Sent, Obsolete} && (status == Sent ==> delivered)
      ensures status == Obsolete ==> !delivered && !old(notices)[req].wanted
      ensures notices == if status in {Sent, Obsolete} then old(notices) - {req} else old(notices)
    {
      if lease.Some? && lease.value.until > now { return Busy; }
      if req !in notices || notices[req].id != id || notices[req].token != Some(token)
          || notices[req].relayUntil < now {
        return Conflict;
      }
      if !delivered && notices[req].wanted { return Conflict; }
      notices := notices - {req};
      return if delivered then Sent else Obsolete;
    }
  }

  // ---------------------------------------------------------------- the system

  /** Where one flush stands; it works on the copy of the notice it read and saves that copy whole. */
  datatype FlushPhase =
    | Between
    | Absent(req: Req, n: Notice)               // a complete history read did not show the notice
    | Decided(req: Req, n: Notice)              // the attempt is recorded
    | Sending(req: Req, n: Notice, since: nat)  // inside the POST

  datatype Flush = Flush(startedAt: nat, phase: FlushPhase)

  datatype RelayPhase = Holding | LookedUp | Cleared(validUntil: nat) | Posted

  /** One relay run, named by its token; `copy` is the notice as the claim returned it. */
  datatype Relay = Relay(req: Req, copy: Notice, phase: RelayPhase)

  datatype Sender = ByFlush(owner: nat) | ByRelay(token: nat)

  /** A POST on its way: Slack accepts it before its deadline, or never. */
  datatype Post = Post(id: nat, req: Req, deadline: nat, sender: Sender)

  /** `accepted` and `dropped` are history: what Slack took, in order, and what was given up unsent. */
  datatype World = World(now: nat, store: Store, nextName: nat, flushes: map<nat, Flush>, relays: map<nat, Relay>,
                         wire: set<Post>, accepted: seq<nat>, dropped: set<nat>)

  datatype Step =
    | Tick(ms: nat)
    | Queue(req: Req)
    | Prune(req: Req)
    | TakeLease(startedAt: nat)
    | Flag(owner: nat, req: Req, wanted: bool)
    | Found(owner: nat, req: Req)
    | Lookup(owner: nat, req: Req)
    | GiveUp(owner: nat)
    | Leave(owner: nat)
    | Decide(owner: nat)
    | Create(owner: nat, req: Req)
    | Send(owner: nat)
    | Return(owner: nat, ts: bool, refused: bool)
    | End(owner: nat)
    | Crash(owner: nat)
    | Claim(req: Req, verified: Option<nat>)
    | RelayLookup(token: nat)
    | Authorize(token: nat)
    | RelaySend(token: nat)
    | Acknowledge(token: nat, delivered: bool)
    | RelayStop(token: nat)
    | Accept(post: Post)
    | Lose(post: Post)

  predicate FlushAt(w: World, owner: nat, phase: FlushPhase) {
    owner in w.flushes && w.flushes[owner].phase == phase
  }

  predicate Settled(n: Notice, now: nat) {
    !n.posted && now >= n.attemptedAt + SETTLE
  }

  predicate Enabled(w: World, step: Step) {
    match step
    case Tick(ms) => 0 < ms && forall f :: f in w.flushes ==> w.now + ms <= w.flushes[f].startedAt + EXECUTION
    case Queue(req) => true
    case Prune(req) => req !in w.store.notices
    case TakeLease(startedAt) => !LeaseActive(w.store, w.now) && startedAt <= w.now <= startedAt + EXECUTION
    case Flag(owner, req, wanted) => FlushAt(w, owner, Between) && req in w.store.notices
    case Found(owner, req) =>
      && FlushAt(w, owner, Between) && req in w.store.notices
      && w.store.notices[req].relayUntil <= w.now && w.store.notices[req].id in w.accepted
    case Lookup(owner, req) =>
      && FlushAt(w, owner, Between) && req in w.store.notices
      && w.store.notices[req].relayUntil <= w.now && w.store.notices[req].id !in w.accepted
    case GiveUp(owner) =>
      owner in w.flushes && w.flushes[owner].phase.Absent? && Settled(w.flushes[owner].phase.n, w.now)
    case Leave(owner) => owner in w.flushes && w.flushes[owner].phase.Absent?
    case Decide(owner) =>
      && owner in w.flushes && w.flushes[owner].phase.Absent?
      && w.flushes[owner].phase.n.wanted && Settled(w.flushes[owner].phase.n, w.now)
    case Create(owner, req) => FlushAt(w, owner, Between) && req !in w.store.notices
    case Send(owner) => owner in w.flushes && w.flushes[owner].phase.Decided?
    case Return(owner, ts, refused) =>
      && owner in w.flushes && w.flushes[owner].phase.Sending?
      && w.now > w.flushes[owner].phase.since && (forall p :: p in w.wire ==> p.sender != ByFlush(owner))
      && (ts ==> w.flushes[owner].phase.n.id in w.accepted)
      && (refused ==> w.flushes[owner].phase.n.id !in w.accepted)
    case End(owner) => FlushAt(w, owner, Between)
    case Crash(owner) => owner in w.flushes
    case Claim(req, verified) => ClaimStep(w.store, w.now, req, verified, w.nextName).1 == Claimed
    case RelayLookup(token) =>
      && token in w.relays && w.relays[token].phase == Holding
      && w.relays[token].copy.id !in w.accepted && !w.relays[token].copy.posted
    case Authorize(token) =>
      && token in w.relays && w.relays[token].phase == LookedUp && w.relays[token].copy.wanted
      && (var n := w.relays[token].copy; n.rejected || n.attemptedAt == 0 || w.now >= n.attemptedAt + SETTLE)
      && AuthorizeStep(w.store, w.now, w.relays[token].req, w.relays[token].copy.id, token).1 == Status.Authorized
    case RelaySend(token) =>
      token in w.relays && w.relays[token].phase.Cleared? && w.now + RELAY_POST < w.relays[token].phase.validUntil
    case Acknowledge(token, delivered) =>
      && token in w.relays
      && (if delivered then w.relays[token].copy.id in w.accepted
          else w.relays[token].phase == LookedUp && !w.relays[token].copy.wanted)
      && AcknowledgeStep(w.store, w.now, w.relays[token].req, w.relays[token].copy.id, token, delivered).1
         == (if delivered then Sent else Obsolete)
    case RelayStop(token) => token in w.relays
    case Accept(post) => post in w.wire && w.now < post.deadline
    case Lose(post) => post in w.wire
  }

  function SetPhase(w: World, owner: nat, phase: FlushPhase): World
    requires owner in w.flushes
  {
    w.(flushes := w.flushes[owner := w.flushes[owner].(phase := phase)])
  }

  function SetRelay(w: World, token: nat, phase: RelayPhase): World
    requires token in w.relays
  {
    w.(relays := w.relays[token := w.relays[token].(phase := phase)])
  }

  function SetNotice(w: World, req: Req, n: Notice): World {
    w.(store := w.store.(notices := w.store.notices[req := n]))
  }

  function Unset(w: World, req: Req): World {
    w.(store := w.store.(notices := w.store.notices - {req}))
  }

  function Apply(w: World, step: Step): World
    requires Enabled(w, step)
  {
    match step
    case Tick(ms) => w.(now := w.now + ms)
    case Queue(req) => w.(store := w.store.(dirty := w.store.dirty[req := w.nextName]), nextName := w.nextName + 1)
    case Prune(req) => w.(store := w.store.(dirty := w.store.dirty - {req}))
    case TakeLease(startedAt) =>
      w.(store := w.store.(lease := Some(Lease(w.nextName, w.now + FLUSH_LEASE))), nextName := w.nextName + 1,
         flushes := w.flushes[w.nextName := Flush(startedAt, Between)])
    case Flag(owner, req, wanted) => SetNotice(w, req, w.store.notices[req].(wanted := wanted))
    case Found(owner, req) => Unset(w, req)
    case Lookup(owner, req) => SetPhase(w, owner, Absent(req, w.store.notices[req]))
    case GiveUp(owner) =>
      var p := w.flushes[owner].phase;
      SetPhase(Unset(w, p.req).(dropped := w.dropped + {p.n.id}), owner, Between)
    case Leave(owner) => SetPhase(w, owner, Between)
    case Decide(owner) =>
      var p := w.flushes[owner].phase;
      var n := p.n.(attemptedAt := w.now, rejected := false);
      SetPhase(SetNotice(w, p.req, n), owner, Decided(p.req, n))
    case Create(owner, req) =>
      var n := Notice(w.nextName, None, 0, None, w.now, false, true, false);
      SetPhase(SetNotice(w.(nextName := w.nextName + 1), req, n), owner, Decided(req, n))
    case Send(owner) =>
      var p := w.flushes[owner].phase;
      SetPhase(w.(wire := w.wire + {Post(p.n.id, p.req, w.now + GAS_POST, ByFlush(owner))}),
               owner, Sending(p.req, p.n, w.now))
    case Return(owner, ts, refused) =>
      var p := w.flushes[owner].phase;
      SetPhase(SetNotice(w, p.req, p.n.(posted := ts, rejected := refused)), owner, Between)
    case End(owner) =>
      w.(flushes := w.flushes - {owner},
         store := if w.store.lease.Some? && w.store.lease.value.owner == owner
                  then w.store.(lease := None) else w.store)
    case Crash(owner) => w.(flushes := w.flushes - {owner})
    case Claim(req, verified) =>
      var s := ClaimStep(w.store, w.now, req, verified, w.nextName).0;
      w.(store := s, nextName := w.nextName + 1, relays := w.relays[w.nextName := Relay(req, s.notices[req], Holding)])
    case RelayLookup(token) => SetRelay(w, token, LookedUp)
    case Authorize(token) =>
      var s := AuthorizeStep(w.store, w.now, w.relays[token].req, w.relays[token].copy.id, token).0;
      SetRelay(w.(store := s), token, Cleared(w.now + RELAY_SEND))
    case RelaySend(token) =>
      var r := w.relays[token];
      SetRelay(w.(wire := w.wire + {Post(r.copy.id, r.req, w.now + RELAY_POST, ByRelay(token))}), token, Posted)
    case Acknowledge(token, delivered) =>
      var id := w.relays[token].copy.id;
      var s := AcknowledgeStep(w.store, w.now, w.relays[token].req, id, token, delivered).0;
      w.(store := s, relays := w.relays - {token}, dropped := if delivered then w.dropped else w.dropped + {id})
    case RelayStop(token) => w.(relays := w.relays - {token})
    case Accept(post) => w.(wire := w.wire - {post}, accepted := w.accepted + [post.id])
    case Lose(post) => w.(wire := w.wire - {post})
  }

  // ---------------------------------------------------------------- what every step keeps

  predicate Live(w: World, p: Post) {
    p in w.wire && p.deadline > w.now
  }

  ghost predicate NoneLive(w: World, id: nat) {
    forall p :: Live(w, p) ==> p.id != id
  }

  /** Nobody has delivered the notice and no POST of it can still be accepted. */
  ghost predicate Clean(w: World, id: nat) {
    id !in w.accepted && NoneLive(w, id)
  }

  ghost predicate Unique(accepted: seq<nat>) {
    forall i, j :: 0 <= i < j < |accepted| ==> accepted[i] != accepted[j]
  }

  /** Names are new when given out and each notice has its own id. */
  ghost predicate Named(w: World) {
    && (forall r :: r in w.store.notices ==>
          && w.store.notices[r].id < w.nextName
          && (w.store.notices[r].token.Some? ==> w.store.notices[r].token.value < w.nextName))
    && (forall r, q :: r in w.store.notices && q in w.store.notices && r != q ==>
          w.store.notices[r].id != w.store.notices[q].id)
    && (forall f :: f in w.flushes ==> f < w.nextName)
    && (forall t :: t in w.relays ==> t < w.nextName && w.relays[t].copy.id < w.nextName)
    && (forall p :: p in w.wire ==> p.id < w.nextName && SenderName(p.sender) < w.nextName)
    && (forall a :: a in w.accepted ==> a < w.nextName)
  }

  function SenderName(s: Sender): nat {
    match s case ByFlush(f) => f case ByRelay(t) => t
  }

  ghost predicate Delivered(w: World) {
    && Unique(w.accepted)
    && (forall p :: Live(w, p) ==> p.id !in w.accepted)
    && (forall p, q :: Live(w, p) && Live(w, q) && p != q ==> p.id != q.id)
  }

  /** The live flush, if any, holds the running lease; so do its POSTs, past its death. */
  ghost predicate Leased(w: World) {
    && (forall f :: f in w.flushes ==>
          && w.store.lease.Some? && w.store.lease.value.owner == f
          && w.now <= w.flushes[f].startedAt + EXECUTION
          && w.flushes[f].startedAt + FLUSH_LEASE <= w.store.lease.value.until)
    && (forall p :: Live(w, p) && p.sender.ByFlush? ==>
          && w.store.lease.Some? && w.store.lease.value.owner == p.sender.owner
          && p.deadline <= w.store.lease.value.until)
    && (forall p :: p in w.wire && p.sender.ByFlush? && p.sender.owner in w.flushes ==>
          w.flushes[p.sender.owner].phase.Sending?)
  }

  /** The stored notice is still the copy, and no relay holds it past instant t. */
  ghost predicate InStep(w: World, req: Req, n: Notice, t: nat) {
    req in w.store.notices && w.store.notices[req] == n && n.relayUntil <= t
  }

  ghost predicate FlushSafe(w: World, phase: FlushPhase) {
    match phase
    case Between => true
    case Absent(req, n) => InStep(w, req, n, w.now) && Clean(w, n.id)
    case Decided(req, n) => InStep(w, req, n, w.now) && Clean(w, n.id)
    case Sending(req, n, since) => since <= w.now && InStep(w, req, n, since)
  }

  ghost predicate FlushesSafe(w: World) {
    forall f :: f in w.flushes ==> FlushSafe(w, w.flushes[f].phase)
  }

  /** The last millisecond of a relay claim, when a flush may already be sending under its lease. */
  ghost predicate LastInstant(w: World, req: Req) {
    && LeaseActive(w.store, w.now)
    && req in w.store.notices && w.store.notices[req].relayUntil <= w.now
    && (w.store.lease.value.owner in w.flushes ==>
          var phase := w.flushes[w.store.lease.value.owner].phase;
          phase.Sending? && phase.since >= w.now)
  }

  ghost predicate RelaySafe(w: World, t: nat, r: Relay) {
    match r.phase
    case Holding => Holds(w.store, w.now, r.req, r.copy.id, t) && !NoneLive(w, r.copy.id) ==> LastInstant(w, r.req)
    case LookedUp => Holds(w.store, w.now, r.req, r.copy.id, t) && !Clean(w, r.copy.id) ==> LastInstant(w, r.req)
    case Cleared(v) =>
      v > w.now ==> Holds(w.store, w.now, r.req, r.copy.id, t) && w.store.notices[r.req].relayUntil == v
                    && Clean(w, r.copy.id)
    case Posted => true
  }

  ghost predicate RelaysSafe(w: World) {
    forall t :: t in w.relays ==> RelaySafe(w, t, w.relays[t])
  }

  ghost predicate RelayPostsHeld(w: World) {
    && (forall p :: Live(w, p) && p.sender.ByRelay? ==>
          Holds(w.store, w.now, p.req, p.id, p.sender.token) && w.store.notices[p.req].relayUntil >= p.deadline)
    && (forall p :: p in w.wire && p.sender.ByRelay? && p.sender.token in w.relays ==>
          w.relays[p.sender.token].phase == Posted)
  }

  /** What was given up is out of the store and cannot be delivered any more. */
  ghost predicate DroppedForGood(w: World) {
    forall id :: id in w.dropped ==>
      id < w.nextName && Clean(w, id) && forall r :: r in w.store.notices ==> w.store.notices[r].id != id
  }

  ghost predicate Inv(w: World) {
    && Named(w) && Delivered(w) && Leased(w) && FlushesSafe(w) && RelaysSafe(w) && RelayPostsHeld(w)
    && DroppedForGood(w)
  }

  // ---------------------------------------------------------------- each invariant, one group of steps at a time

  predicate OutsideStep(step: Step) {
    step.Tick? || step.Queue? || step.Prune? || step.Accept? || step.Lose?
  }

  predicate ReadingStep(step: Step) {
    step.TakeLease? || step.Flag? || step.Found? || step.Lookup? || step.GiveUp? || step.Leave?
  }

  predicate AttemptingStep(step: Step) {
    step.Decide? || step.Send?
  }

  predicate EndingStep(step: Step) {
    step.Return? || step.End? || step.Crash?
  }

  predicate OpeningStep(step: Step) {
    step.Create? || step.Claim?
  }

  predicate ClearingStep(step: Step) {
    step.RelayLookup? || step.Authorize?
  }

  predicate RelayingStep(step: Step) {
    step.RelaySend?
  }

  predicate ClosingStep(step: Step) {
    step.Acknowledge? || step.RelayStop?
  }

  lemma NamedOutside(w: World, step: Step)
    requires Inv(w) && Enabled(w, step) && OutsideStep(step)
    ensures Named(Apply(w, step))
  {
    hide Unique, Delivered, Leased, RelaysSafe, RelayPostsHeld, DroppedForGood, Live, Settled, LastInstant;
  }

  lemma NamedReading(w: World, step: Step)
    requires Inv(w) && Enabled(w, step) && ReadingStep(step)
    ensures Named(Apply(w, step))
  {
    hide Unique, Delivered, Leased, RelaysSafe, RelayPostsHeld, DroppedForGood, Live, Settled, LastInstant;
  }

  lemma NamedAttempting(w: World, step: Step)
    requires Inv(w) && Enabled(w, step) && AttemptingStep(step)
    ensures Named(Apply(w, step))
  {
    hide Unique, Delivered, Leased, RelaysSafe, RelayPostsHeld, DroppedForGood, Live, Settled, LastInstant;
  }

  lemma NamedEnding(w: World, step: Step)
    requires Inv(w) && Enabled(w, step) && EndingStep(step)
    ensures Named(Apply(w, step))
  {
    hide Leased, LastInstant, RelayPostsHeld, DroppedForGood;
  }

  lemma NamedOpening(w: World, step: Step)
    requires Inv(w) && Enabled(w, step) && OpeningStep(step)
    ensures Named(Apply(w, step))
  {
    hide Unique, Delivered, Leased, RelaysSafe, RelayPostsHeld, DroppedForGood, Live, Settled, LastInstant;
  }

  lemma NamedClearing(w: World, step: Step)
    requires Inv(w) && Enabled(w, step) && ClearingStep(step)
    ensures Named(Apply(w, step))
  {
    hide Delivered, Leased, RelayPostsHeld, DroppedForGood;
  }

  lemma NamedRelaying(w: World, step: Step)
    requires Inv(w) && Enabled(w, step) && RelayingStep(step)
    ensures Named(Apply(w, step))
  {
    hide Unique, Delivered, Leased, RelaysSafe, RelayPostsHeld, DroppedForGood, Live, Settled, LastInstant;
  }

  lemma NamedClosing(w: World, step: Step)
    requires Inv(w) && Enabled(w, step) && ClosingStep(step)
    ensures Named(Apply(w, step))
  {
    hide Unique, Delivered, Leased, RelaysSafe, RelayPostsHeld, DroppedForGood, Live, Settled, LastInstant;
  }

  lemma DeliveredByFlush(w: World, step: Step)
    requires Inv(w) && Enabled(w, step) && (ReadingStep(step) || EndingStep(step) || OutsideStep(step))
    ensures Delivered(Apply(w, step))
  {
    hide Leased, RelayPostsHeld, DroppedForGood;
  }

  lemma DeliveredStart(w: World, step: Step)
    requires Inv(w) && Enabled(w, step) && (OpeningStep(step) || AttemptingStep(step))
    ensures Delivered(Apply(w, step))
  {
    hide Leased, RelayPostsHeld, DroppedForGood;
  }

  lemma DeliveredByRelay(w: World, step: Step)
    requires Inv(w) && Enabled(w, step) && (ClearingStep(step) || RelayingStep(step) || ClosingStep(step))
    ensures Delivered(Apply(w, step))
  {
    hide Leased, RelayPostsHeld, DroppedForGood;
  }

  lemma LeasedOutside(w: World, step: Step)
    requires Inv(w) && Enabled(w, step) && OutsideStep(step)
    ensures Leased(Apply(w, step))
  {
    hide Delivered, RelayPostsHeld, DroppedForGood;
  }

  lemma LeasedReading(w: World, step: Step)
    requires Inv(w) && Enabled(w, step) && ReadingStep(step)
    ensures Leased(Apply(w, step))
  {
    hide Delivered, RelayPostsHeld, DroppedForGood;
  }

  lemma LeasedAttempting(w: World, step: Step)
    requires Inv(w) && Enabled(w, step) && AttemptingStep(step)
    ensures Leased(Apply(w, step))
  {
    hide Delivered, RelayPostsHeld, DroppedForGood;
  }

  lemma LeasedEnding(w: World, step: Step)
    requires Inv(w) && Enabled(w, step) && EndingStep(step)
    ensures Leased(Apply(w, step))
  {
    hide Delivered, RelayPostsHeld, DroppedForGood;
  }

  lemma LeasedOpening(w: World, step: Step)
    requires Inv(w) && Enabled(w, step) && OpeningStep(step)
    ensures Leased(Apply(w, step))
  {
    hide Delivered, RelayPostsHeld, DroppedForGood;
  }

  lemma LeasedClearing(w: World, step: Step)
    requires Inv(w) && Enabled(w, step) && ClearingStep(step)
    ensures Leased(Apply(w, step))
  {
    hide Delivered, RelayPostsHeld, DroppedForGood;
  }

  lemma LeasedRelaying(w: World, step: Step)
    requires Inv(w) && Enabled(w, step) && RelayingStep(step)
    ensures Leased(Apply(w, step))
  {
    hide Delivered, RelayPostsHeld, DroppedForGood;
  }

  lemma LeasedClosing(w: World, step: Step)
    requires Inv(w) && Enabled(w, step) && ClosingStep(step)
    ensures Leased(Apply(w, step))
  {
    hide Delivered, RelayPostsHeld, DroppedForGood;
  }

  lemma FlushesSafeOutside(w: World, step: Step)
    requires Inv(w) && Enabled(w, step) && OutsideStep(step)
    ensures FlushesSafe(Apply(w, step))
  {
    hide Unique, DroppedForGood;
  }

  lemma FlushesSafeReading(w: World, step: Step)
    requires Inv(w) && Enabled(w, step) && ReadingStep(step)
    ensures FlushesSafe(Apply(w, step))
  {
    hide Unique, DroppedForGood;
  }

  lemma FlushesSafeEnding(w: World, step: Step)
    requires Inv(w) && Enabled(w, step) && EndingStep(step)
    ensures FlushesSafe(Apply(w, step))
  {
    hide Unique, DroppedForGood;
  }

  lemma FlushesSafeStart(w: World, step: Step)
    requires Inv(w) && Enabled(w, step) && (OpeningStep(step) || AttemptingStep(step))
    ensures FlushesSafe(Apply(w, step))
  {
    hide Unique, DroppedForGood;
  }

  lemma FlushesSafeClearing(w: World, step: Step)
    requires Inv(w) && Enabled(w, step) && ClearingStep(step)
    ensures FlushesSafe(Apply(w, step))
  {
    hide Unique, DroppedForGood;
  }

  lemma FlushesSafeRelaying(w: World, step: Step)
    requires Inv(w) && Enabled(w, step) && RelayingStep(step)
    ensures FlushesSafe(Apply(w, step))
  {
    hide Unique, DroppedForGood;
  }

  lemma FlushesSafeClosing(w: World, step: Step)
    requires Inv(w) && Enabled(w, step) && ClosingStep(step)
    ensures FlushesSafe(Apply(w, step))
  {
    hide Unique, DroppedForGood;
  }

  lemma RelayPostsHeldOutside(w: World, step: Step)
    requires Inv(w) && Enabled(w, step) && OutsideStep(step)
    ensures RelayPostsHeld(Apply(w, step))
  {
    hide Unique, DroppedForGood;
  }

  lemma RelayPostsHeldReading(w: World, step: Step)
    requires Inv(w) && Enabled(w, step) && ReadingStep(step)
    ensures RelayPostsHeld(Apply(w, step))
  {
    hide Unique, DroppedForGood;
  }

  lemma RelayPostsHeldAttempting(w: World, step: Step)
    requires Inv(w) && Enabled(w, step) && AttemptingStep(step)
    ensures RelayPostsHeld(Apply(w, step))
  {
    hide Unique, DroppedForGood;
  }

  lemma RelayPostsHeldEnding(w: World, step: Step)
    requires Inv(w) && Enabled(w, step) && EndingStep(step)
    ensures RelayPostsHeld(Apply(w, step))
  {
    hide Unique, DroppedForGood;
  }

  lemma RelayPostsHeldOpening(w: World, step: Step)
    requires Inv(w) && Enabled(w, step) && OpeningStep(step)
    ensures RelayPostsHeld(Apply(w, step))
  {
    hide Unique, DroppedForGood;
  }

  lemma RelayPostsHeldClearing(w: World, step: Step)
    requires Inv(w) && Enabled(w, step) && ClearingStep(step)
    ensures RelayPostsHeld(Apply(w, step))
  {
    hide Unique, DroppedForGood;
  }

  lemma RelayPostsHeldRelaying(w: World, step: Step)
    requires Inv(w) && Enabled(w, step) && RelayingStep(step)
    ensures RelayPostsHeld(Apply(w, step))
  {
    hide Unique, DroppedForGood;
  }

  lemma RelayPostsHeldClosing(w: World, step: Step)
    requires Inv(w) && Enabled(w, step) && ClosingStep(step)
    ensures RelayPostsHeld(Apply(w, step))
  {
    hide Unique, DroppedForGood;
  }

  lemma DroppedForGoodOutside(w: World, step: Step)
    requires Inv(w) && Enabled(w, step) && OutsideStep(step)
    ensures DroppedForGood(Apply(w, step))
  {
    hide Unique, Delivered, RelayPostsHeld, Leased;
  }

  lemma DroppedForGoodReading(w: World, step: Step)
    requires Inv(w) && Enabled(w, step) && ReadingStep(step)
    ensures DroppedForGood(Apply(w, step))
  {
    hide Unique, Delivered, RelayPostsHeld, Leased;
  }

  lemma DroppedForGoodAttempting(w: World, step: Step)
    requires Inv(w) && Enabled(w, step) && AttemptingStep(step)
    ensures DroppedForGood(Apply(w, step))
  {
    hide Unique, Delivered, RelayPostsHeld, Leased;
  }

  lemma DroppedForGoodEnding(w: World, step: Step)
    requires Inv(w) && Enabled(w, step) && EndingStep(step)
    ensures DroppedForGood(Apply(w, step))
  {
    hide Unique, Delivered, RelayPostsHeld, Leased;
  }

  lemma DroppedForGoodOpening(w: World, step: Step)
    requires Inv(w) && Enabled(w, step) && OpeningStep(step)
    ensures DroppedForGood(Apply(w, step))
  {
    hide Unique, Delivered, RelayPostsHeld, Leased;
  }

  lemma DroppedForGoodClearing(w: World, step: Step)
    requires Inv(w) && Enabled(w, step) && ClearingStep(step)
    ensures DroppedForGood(Apply(w, step))
  {
    hide Unique, Delivered, RelayPostsHeld, Leased;
  }

  lemma DroppedForGoodRelaying(w: World, step: Step)
    requires Inv(w) && Enabled(w, step) && RelayingStep(step)
    ensures DroppedForGood(Apply(w, step))
  {
    hide Unique, Delivered, RelayPostsHeld, Leased;
  }

  lemma DroppedForGoodClosing(w: World, step: Step)
    requires Inv(w) && Enabled(w, step) && ClosingStep(step)
    ensures DroppedForGood(Apply(w, step))
  {
    hide Unique, Delivered, RelayPostsHeld, Leased;
  }

  lemma RelaySafeOutside(w: World, step: Step, t: nat)
    requires Inv(w) && Enabled(w, step) && OutsideStep(step) && t in Apply(w, step).relays
    ensures RelaySafe(Apply(w, step), t, Apply(w, step).relays[t])
  {
    hide Named, Delivered, DroppedForGood, RelayPostsHeld;
    assert RelaySafe(w, t, w.relays[t]);
    hide RelaysSafe;
  }

  lemma RelaySafeLooking(w: World, step: Step, t: nat)
    requires Inv(w) && Enabled(w, step) && (step.TakeLease? || step.Lookup? || step.Leave?)
    requires t in Apply(w, step).relays
    ensures RelaySafe(Apply(w, step), t, Apply(w, step).relays[t])
  {
    hide Named, Delivered, DroppedForGood, RelayPostsHeld;
    assert RelaySafe(w, t, w.relays[t]);
    hide RelaysSafe;
  }

  lemma RelaySafeFlagging(w: World, step: Step, t: nat)
    requires Inv(w) && Enabled(w, step) && (step.Flag? || step.Found? || step.GiveUp?)
    requires t in Apply(w, step).relays
    ensures RelaySafe(Apply(w, step), t, Apply(w, step).relays[t])
  {
    hide Named, Delivered, DroppedForGood, RelayPostsHeld;
    assert RelaySafe(w, t, w.relays[t]);
    hide RelaysSafe;
  }

  lemma RelaySafeReading(w: World, step: Step, t: nat)
    requires Inv(w) && Enabled(w, step) && ReadingStep(step) && t in Apply(w, step).relays
    ensures RelaySafe(Apply(w, step), t, Apply(w, step).relays[t])
  {
    hide Inv, Enabled, Apply, RelaySafe;
    if step.TakeLease? || step.Lookup? || step.Leave? {
      RelaySafeLooking(w, step, t);
    } else {
      RelaySafeFlagging(w, step, t);
    }
  }

  lemma RelaySafeAttempting(w: World, step: Step, t: nat)
    requires Inv(w) && Enabled(w, step) && AttemptingStep(step) && t in Apply(w, step).relays
    ensures RelaySafe(Apply(w, step), t, Apply(w, step).relays[t])
  {
    hide Delivered, DroppedForGood, RelayPostsHeld;
  }

  lemma RelaySafeEnding(w: World, step: Step, t: nat)
    requires Inv(w) && Enabled(w, step) && EndingStep(step) && t in Apply(w, step).relays
    ensures RelaySafe(Apply(w, step), t, Apply(w, step).relays[t])
  {
    hide Named, Delivered, DroppedForGood, RelayPostsHeld;
  }

  lemma RelaySafeCreate(w: World, step: Step, t: nat)
    requires Inv(w) && Enabled(w, step) && step.Create? && t in Apply(w, step).relays
    ensures RelaySafe(Apply(w, step), t, Apply(w, step).relays[t])
  {
    hide Unique, Delivered, DroppedForGood, RelayPostsHeld;
    assert RelaySafe(w, t, w.relays[t]);
    hide RelaysSafe;
  }

  lemma RelaySafeClaim(w: World, step: Step, t: nat)
    requires Inv(w) && Enabled(w, step) && step.Claim? && t in Apply(w, step).relays
    ensures RelaySafe(Apply(w, step), t, Apply(w, step).relays[t])
  {
    hide Unique, DroppedForGood;
    assert t in w.relays ==> RelaySafe(w, t, w.relays[t]);
    hide RelaysSafe;
  }

  lemma RelaySafeOpening(w: World, step: Step, t: nat)
    requires Inv(w) && Enabled(w, step) && OpeningStep(step) && t in Apply(w, step).relays
    ensures RelaySafe(Apply(w, step), t, Apply(w, step).relays[t])
  {
    hide Inv, Enabled, Apply, RelaySafe;
    if step.Create? { RelaySafeCreate(w, step, t); } else { RelaySafeClaim(w, step, t); }
  }

  lemma RelaySafeClearing(w: World, step: Step, t: nat)
    requires Inv(w) && Enabled(w, step) && ClearingStep(step) && t in Apply(w, step).relays
    ensures RelaySafe(Apply(w, step), t, Apply(w, step).relays[t])
  {
    hide Named, Delivered, Leased, FlushesSafe, RelayPostsHeld, DroppedForGood;
  }

  lemma RelaySafeRelaying(w: World, step: Step, t: nat)
    requires Inv(w) && Enabled(w, step) && RelayingStep(step) && t in Apply(w, step).relays
    ensures RelaySafe(Apply(w, step), t, Apply(w, step).relays[t])
  {
    hide Delivered, DroppedForGood, RelayPostsHeld;
  }

  lemma RelaySafeClosing(w: World, step: Step, t: nat)
    requires Inv(w) && Enabled(w, step) && ClosingStep(step) && t in Apply(w, step).relays
    ensures RelaySafe(Apply(w, step), t, Apply(w, step).relays[t])
  {
    hide Named, Delivered, DroppedForGood, RelayPostsHeld;
  }

  lemma StepKeeps(w: World, step: Step)
    requires Inv(w) && Enabled(w, step)
    ensures Inv(Apply(w, step))
  {
    hide Enabled, Apply, Named, Delivered, Leased, FlushesSafe, RelayPostsHeld, DroppedForGood, RelaySafe;
    if OutsideStep(step) {
      NamedOutside(w, step);
      DeliveredByFlush(w, step);
      LeasedOutside(w, step);
      FlushesSafeOutside(w, step);
      RelayPostsHeldOutside(w, step);
      DroppedForGoodOutside(w, step);
      forall t | t in Apply(w, step).relays ensures RelaySafe(Apply(w, step), t, Apply(w, step).relays[t]) {
        RelaySafeOutside(w, step, t);
      }
    } else if ReadingStep(step) {
      NamedReading(w, step);
      DeliveredByFlush(w, step);
      LeasedReading(w, step);
      FlushesSafeReading(w, step);
      RelayPostsHeldReading(w, step);
      DroppedForGoodReading(w, step);
      forall t | t in Apply(w, step).relays ensures RelaySafe(Apply(w, step), t, Apply(w, step).relays[t]) {
        RelaySafeReading(w, step, t);
      }
    } else if AttemptingStep(step) {
      NamedAttempting(w, step);
      DeliveredStart(w, step);
      LeasedAttempting(w, step);
      FlushesSafeStart(w, step);
      RelayPostsHeldAttempting(w, step);
      DroppedForGoodAttempting(w, step);
      forall t | t in Apply(w, step).relays ensures RelaySafe(Apply(w, step), t, Apply(w, step).relays[t]) {
        RelaySafeAttempting(w, step, t);
      }
    } else if EndingStep(step) {
      NamedEnding(w, step);
      DeliveredByFlush(w, step);
      LeasedEnding(w, step);
      FlushesSafeEnding(w, step);
      RelayPostsHeldEnding(w, step);
      DroppedForGoodEnding(w, step);
      forall t | t in Apply(w, step).relays ensures RelaySafe(Apply(w, step), t, Apply(w, step).relays[t]) {
        RelaySafeEnding(w, step, t);
      }
    } else if OpeningStep(step) {
      NamedOpening(w, step);
      DeliveredStart(w, step);
      LeasedOpening(w, step);
      FlushesSafeStart(w, step);
      RelayPostsHeldOpening(w, step);
      DroppedForGoodOpening(w, step);
      forall t | t in Apply(w, step).relays ensures RelaySafe(Apply(w, step), t, Apply(w, step).relays[t]) {
        RelaySafeOpening(w, step, t);
      }
    } else if ClearingStep(step) {
      NamedClearing(w, step);
      DeliveredByRelay(w, step);
      LeasedClearing(w, step);
      FlushesSafeClearing(w, step);
      RelayPostsHeldClearing(w, step);
      DroppedForGoodClearing(w, step);
      forall t | t in Apply(w, step).relays ensures RelaySafe(Apply(w, step), t, Apply(w, step).relays[t]) {
        RelaySafeClearing(w, step, t);
      }
    } else if RelayingStep(step) {
      NamedRelaying(w, step);
      DeliveredByRelay(w, step);
      LeasedRelaying(w, step);
      FlushesSafeRelaying(w, step);
      RelayPostsHeldRelaying(w, step);
      DroppedForGoodRelaying(w, step);
      forall t | t in Apply(w, step).relays ensures RelaySafe(Apply(w, step), t, Apply(w, step).relays[t]) {
        RelaySafeRelaying(w, step, t);
      }
    } else if ClosingStep(step) {
      NamedClosing(w, step);
      DeliveredByRelay(w, step);
      LeasedClosing(w, step);
      FlushesSafeClosing(w, step);
      RelayPostsHeldClosing(w, step);
      DroppedForGoodClosing(w, step);
      forall t | t in Apply(w, step).relays ensures RelaySafe(Apply(w, step), t, Apply(w, step).relays[t]) {
        RelaySafeClosing(w, step, t);
      }
    }
  }

  // ---------------------------------------------------------------- whole runs

  /** Nothing under way, nothing queued for delivery; requests may already be marked dirty. */
  ghost predicate Initial(w: World) {
    && w.store.lease.None? && w.store.notices == map[] && w.flushes == map[] && w.relays == map[]
    && w.wire == {} && w.accepted == [] && w.dropped == {}
  }

  ghost predicate Possible(w: World, steps: seq<Step>)
    decreases |steps|
  {
    steps == [] || (Enabled(w, steps[0]) && Possible(Apply(w, steps[0]), steps[1..]))
  }

  ghost function After(w: World, steps: seq<Step>): World
    requires Possible(w, steps)
    decreases |steps|
  {
    if steps == [] then w else After(Apply(w, steps[0]), steps[1..])
  }

  lemma {:induction false} RunKeeps(w: World, steps: seq<Step>)
    requires Inv(w) && Possible(w, steps)
    ensures Inv(After(w, steps))
    ensures w.dropped <= After(w, steps).dropped
    decreases |steps|
  {
    hide Inv, Enabled;
    if steps == [] {
    } else {
      StepKeeps(w, steps[0]);
      RunKeeps(Apply(w, steps[0]), steps[1..]);
    }
  }

  lemma InitialKeeps(w: World, steps: seq<Step>)
    requires Initial(w) && Possible(w, steps)
    ensures Inv(After(w, steps))
  {
    hide Possible, After;
    RunKeeps(w, steps);
  }

  /** Slack accepts no notice twice, over every interleaving of both senders, crashes and clock ticks. */
  lemma AcceptedAtMostOnce(w: World, steps: seq<Step>)
    requires Initial(w) && Possible(w, steps)
    ensures Unique(After(w, steps).accepted)
  {
    InitialKeeps(w, steps);
  }

  /** The sender has recorded or been granted an attempt at the notice and the attempt is not over. */
  ghost predicate Attempting(w: World, s: Sender, id: nat) {
    || (exists p :: Live(w, p) && p.sender == s && p.id == id)
    || (match s
        case ByFlush(f) =>
          && f in w.flushes && (w.flushes[f].phase.Decided? || w.flushes[f].phase.Sending?)
          && w.flushes[f].phase.n.id == id
        case ByRelay(t) =>
          && t in w.relays && w.relays[t].copy.id == id
          && w.relays[t].phase.Cleared? && w.relays[t].phase.validUntil > w.now)
  }

  /** Two senders are never both between authorization and the end of the POST of one notice. */
  lemma OneSenderAtATime(w: World, steps: seq<Step>, id: nat, a: Sender, b: Sender)
    requires Initial(w) && Possible(w, steps)
    requires Attempting(After(w, steps), a, id) && Attempting(After(w, steps), b, id)
    ensures a == b
  {
    hide Possible, After, Apply, Enabled;
    InitialKeeps(w, steps);
    Exclusive(After(w, steps), id, a, b);
  }

  lemma Exclusive(w: World, id: nat, a: Sender, b: Sender)
    requires Inv(w) && Attempting(w, a, id) && Attempting(w, b, id)
    ensures a == b
  {
    hide Apply, Enabled, DroppedForGood, Unique;
  }

  /** A notice given up as undelivered, by either sender, never reaches Slack later. */
  lemma GivenUpStaysSilent(w: World, before: seq<Step>, later: seq<Step>, id: nat)
    requires Initial(w) && Possible(w, before) && Possible(After(w, before), later)
    requires id in After(w, before).dropped
    ensures id !in After(After(w, before), later).accepted
  {
    hide Possible, After;
    InitialKeeps(w, before);
    RunKeeps(After(w, before), later);
  }

  // ---------------------------------------------------------------- a changed request

  /** Request generations are names given out before. */
  ghost predicate Dated(w: World) {
    && (forall r :: r in w.store.dirty ==> w.store.dirty[r] < w.nextName)
    && (forall r :: r in w.store.notices && w.store.notices[r].generation.Some? ==>
          w.store.notices[r].generation.value < w.nextName)
  }

  lemma DatedOutside(w: World, step: Step)
    requires Inv(w) && Dated(w) && Enabled(w, step) && OutsideStep(step)
    ensures Dated(Apply(w, step))
  {
    hide Named, Delivered, Leased, RelaysSafe, RelayPostsHeld, DroppedForGood, Live, Settled, Clean;
  }

  lemma DatedReading(w: World, step: Step)
    requires Inv(w) && Dated(w) && Enabled(w, step) && ReadingStep(step)
    ensures Dated(Apply(w, step))
  {
    hide Named, Delivered, Leased, RelaysSafe, RelayPostsHeld, DroppedForGood, Live, Settled, Clean;
  }

  lemma DatedAttempting(w: World, step: Step)
    requires Inv(w) && Dated(w) && Enabled(w, step) && (AttemptingStep(step) || EndingStep(step))
    ensures Dated(Apply(w, step))
  {
    hide Named, Delivered, Leased, RelaysSafe, RelayPostsHeld, DroppedForGood, Live, Settled, Clean;
  }

  lemma DatedOpening(w: World, step: Step)
    requires Inv(w) && Dated(w) && Enabled(w, step) && OpeningStep(step)
    ensures Dated(Apply(w, step))
  {
    hide Named, Delivered, Leased, RelaysSafe, RelayPostsHeld, DroppedForGood, Live, Settled, Clean;
  }

  lemma DatedByRelay(w: World, step: Step)
    requires Inv(w) && Dated(w) && Enabled(w, step) && (ClearingStep(step) || RelayingStep(step) || ClosingStep(step))
    ensures Dated(Apply(w, step))
  {
    hide Named, Delivered, Leased, RelaysSafe, RelayPostsHeld, DroppedForGood, Live, Settled, Clean;
  }

  lemma StepKeepsDates(w: World, step: Step)
    requires Inv(w) && Dated(w) && Enabled(w, step)
    ensures Dated(Apply(w, step))
  {
    hide Enabled, Apply, Inv, Dated, Outdated;
    if OutsideStep(step) {
      DatedOutside(w, step);
    } else if ReadingStep(step) {
      DatedReading(w, step);
    } else if AttemptingStep(step) || EndingStep(step) {
      DatedAttempting(w, step);
    } else if OpeningStep(step) {
      DatedOpening(w, step);
    } else if ClearingStep(step) || RelayingStep(step) || ClosingStep(step) {
      DatedByRelay(w, step);
    }
  }

  /** If the claim of the token is still the last one on the request, the request has changed since. */
  ghost predicate Outdated(w: World, req: Req, token: nat) {
    && token < w.nextName && (token in w.relays ==> w.relays[token].req == req)
    && (req in w.store.notices && w.store.notices[req].token == Some(token) ==>
          && req in w.store.dirty
          && (w.store.notices[req].generation.Some? ==> w.store.notices[req].generation.value < w.store.dirty[req]))
  }

  lemma OutdatedOutside(w: World, step: Step, req: Req, token: nat)
    requires Inv(w) && Dated(w) && Enabled(w, step) && OutsideStep(step) && Outdated(w, req, token)
    ensures Outdated(Apply(w, step), req, token)
  {
    hide Named, Delivered, Leased, RelaysSafe, RelayPostsHeld, DroppedForGood, Live, Settled, Clean;
  }

  lemma OutdatedReading(w: World, step: Step, req: Req, token: nat)
    requires Inv(w) && Dated(w) && Enabled(w, step) && ReadingStep(step) && Outdated(w, req, token)
    ensures Outdated(Apply(w, step), req, token)
  {
    hide Named, Delivered, Leased, RelaysSafe, RelayPostsHeld, DroppedForGood, Live, Settled, Clean;
  }

  lemma OutdatedAttempting(w: World, step: Step, req: Req, token: nat)
    requires Inv(w) && Dated(w) && Enabled(w, step) && (AttemptingStep(step) || EndingStep(step))
    requires Outdated(w, req, token)
    ensures Outdated(Apply(w, step), req, token)
  {
    hide Named, Delivered, Leased, RelaysSafe, RelayPostsHeld, DroppedForGood, Live, Settled, Clean;
  }

  lemma OutdatedOpening(w: World, step: Step, req: Req, token: nat)
    requires Inv(w) && Dated(w) && Enabled(w, step) && OpeningStep(step) && Outdated(w, req, token)
    ensures Outdated(Apply(w, step), req, token)
  {
    hide Named, Delivered, Leased, RelaysSafe, RelayPostsHeld, DroppedForGood, Live, Settled, Clean;
  }

  lemma OutdatedByRelay(w: World, step: Step, req: Req, token: nat)
    requires Inv(w) && Dated(w) && Enabled(w, step) && (ClearingStep(step) || RelayingStep(step) || ClosingStep(step))
    requires Outdated(w, req, token)
    ensures Outdated(Apply(w, step), req, token)
  {
    hide Named, Delivered, Leased, RelaysSafe, RelayPostsHeld, DroppedForGood, Live, Settled, Clean;
  }

  lemma StepKeepsOutdated(w: World, step: Step, req: Req, token: nat)
    requires Inv(w) && Dated(w) && Enabled(w, step) && Outdated(w, req, token)
    ensures Outdated(Apply(w, step), req, token)
  {
    hide Enabled, Apply, Inv, Dated, Outdated;
    if OutsideStep(step) {
      OutdatedOutside(w, step, req, token);
    } else if ReadingStep(step) {
      OutdatedReading(w, step, req, token);
    } else if AttemptingStep(step) || EndingStep(step) {
      OutdatedAttempting(w, step, req, token);
    } else if OpeningStep(step) {
      OutdatedOpening(w, step, req, token);
    } else if ClearingStep(step) || RelayingStep(step) || ClosingStep(step) {
      OutdatedByRelay(w, step, req, token);
    }
  }

  lemma {:induction false} RunKeepsDates(w: World, steps: seq<Step>)
    requires Inv(w) && Dated(w) && Possible(w, steps)
    ensures Dated(After(w, steps))
    decreases |steps|
  {
    hide Inv, Enabled, Dated;
    if steps == [] {
    } else {
      StepKeeps(w, steps[0]);
      StepKeepsDates(w, steps[0]);
      RunKeepsDates(Apply(w, steps[0]), steps[1..]);
    }
  }

  lemma {:induction false} RunKeepsOutdated(w: World, steps: seq<Step>, req: Req, token: nat)
    requires Inv(w) && Dated(w) && Possible(w, steps) && Outdated(w, req, token)
    ensures Outdated(After(w, steps), req, token)
    decreases |steps|
  {
    hide Inv, Enabled, Dated, Outdated;
    if steps == [] {
    } else {
      StepKeeps(w, steps[0]);
      StepKeepsDates(w, steps[0]);
      StepKeepsOutdated(w, steps[0], req, token);
      RunKeepsOutdated(Apply(w, steps[0]), steps[1..], req, token);
    }
  }

  lemma OutdatedIsRefused(w: World, req: Req, token: nat)
    requires Outdated(w, req, token)
    ensures !Enabled(w, Authorize(token))
  {
  }

  /** Once a request has changed, no claim made before the change is ever authorized to post its notice. */
  lemma ChangedRequestIsNotPosted(w: World, before: seq<Step>, token: nat, later: seq<Step>)
    requires Initial(w) && Dated(w) && Possible(w, before) && token in After(w, before).relays
    requires var v := After(w, before); Possible(Apply(v, Queue(v.relays[token].req)), later)
    ensures var v := After(w, before);
      !Enabled(After(Apply(v, Queue(v.relays[token].req)), later), Authorize(token))
  {
    hide Possible, After;
    InitialKeeps(w, before);
    assert Inv(w);
    RunKeepsDates(w, before);
    var v := After(w, before);
    var req := v.relays[token].req;
    StepKeeps(v, Queue(req));
    StepKeepsDates(v, Queue(req));
    assert Outdated(Apply(v, Queue(req)), req, token);
    hide Inv, Enabled, Dated, Outdated, Apply;
    RunKeepsOutdated(Apply(v, Queue(req)), later, req, token);
    OutdatedIsRefused(After(Apply(v, Queue(req)), later), req, token);
  }

  // ---------------------------------------------------------------- a withdrawn notice is not posted

  /** The notice with this id, wherever it still is, is that of the request, and not wanted. */
  ghost predicate Withdrawn(w: World, req: Req, id: nat) {
    id < w.nextName && forall r :: r in w.store.notices && w.store.notices[r].id == id ==>
      r == req && !w.store.notices[r].wanted
  }

  predicate FlagsWanted(step: Step, req: Req) {
    step.Flag? && step.req == req && step.wanted
  }

  lemma WithdrawnOutside(w: World, step: Step, req: Req, id: nat)
    requires Inv(w) && Enabled(w, step) && Withdrawn(w, req, id) && (OutsideStep(step) || ReadingStep(step))
    requires !FlagsWanted(step, req)
    ensures Withdrawn(Apply(w, step), req, id)
  {
    hide Named, Delivered, Leased, RelaysSafe, RelayPostsHeld, DroppedForGood, FlushesSafe, Live, Settled, Clean;
  }

  lemma WithdrawnByFlush(w: World, step: Step, req: Req, id: nat)
    requires Inv(w) && Enabled(w, step) && Withdrawn(w, req, id)
    requires AttemptingStep(step) || EndingStep(step) || OpeningStep(step)
    ensures Withdrawn(Apply(w, step), req, id)
  {
    hide Named, Delivered, Leased, RelaysSafe, RelayPostsHeld, DroppedForGood, Live, Settled, Clean;
  }

  lemma WithdrawnByRelay(w: World, step: Step, req: Req, id: nat)
    requires Inv(w) && Enabled(w, step) && Withdrawn(w, req, id)
    requires ClearingStep(step) || RelayingStep(step) || ClosingStep(step)
    ensures Withdrawn(Apply(w, step), req, id)
  {
    hide Named, Delivered, Leased, RelaysSafe, RelayPostsHeld, DroppedForGood, FlushesSafe, Live, Settled, Clean;
  }

  lemma StepKeepsWithdrawn(w: World, step: Step, req: Req, id: nat)
    requires Inv(w) && Enabled(w, step) && Withdrawn(w, req, id) && !FlagsWanted(step, req)
    ensures Withdrawn(Apply(w, step), req, id)
  {
    hide Enabled, Apply, Inv, Withdrawn, FlagsWanted;
    if OutsideStep(step) || ReadingStep(step) {
      WithdrawnOutside(w, step, req, id);
    } else if AttemptingStep(step) || EndingStep(step) || OpeningStep(step) {
      WithdrawnByFlush(w, step, req, id);
    } else {
      WithdrawnByRelay(w, step, req, id);
    }
  }

  lemma {:induction false} RunKeepsWithdrawn(w: World, steps: seq<Step>, req: Req, id: nat)
    requires Inv(w) && Possible(w, steps) && Withdrawn(w, req, id)
    requires forall i :: 0 <= i < |steps| ==> !FlagsWanted(steps[i], req)
    ensures Inv(After(w, steps)) && Withdrawn(After(w, steps), req, id)
    decreases |steps|
  {
    hide Inv, Enabled, Withdrawn, FlagsWanted;
    if steps == [] {
    } else {
      StepKeeps(w, steps[0]);
      StepKeepsWithdrawn(w, steps[0], req, id);
      RunKeepsWithdrawn(Apply(w, steps[0]), steps[1..], req, id);
    }
  }

  /** Once a flush has flagged a notice as not wanted, no relay is authorized to post it until one has flagged it wanted
      again, whenever the relay made its claim. */
  lemma WithdrawnIsNotPosted(w: World, before: seq<Step>, owner: nat, req: Req, later: seq<Step>, token: nat)
    requires Initial(w) && Possible(w, before) && Enabled(After(w, before), Flag(owner, req, false))
    requires forall i :: 0 <= i < |later| ==> !FlagsWanted(later[i], req)
    requires var v := After(w, before); Possible(Apply(v, Flag(owner, req, false)), later)
    ensures var v := After(w, before); var u := After(Apply(v, Flag(owner, req, false)), later);
      token in u.relays && u.relays[token].copy.id == v.store.notices[req].id ==> !Enabled(u, Authorize(token))
  {
    hide Possible, After, Initial, Inv;
    InitialKeeps(w, before);
    var v := After(w, before);
    var id := v.store.notices[req].id;
    StepKeeps(v, Flag(owner, req, false));
    FlagWithdraws(v, owner, req);
    hide Inv, Enabled, Apply, Withdrawn, FlagsWanted;
    RunKeepsWithdrawn(Apply(v, Flag(owner, req, false)), later, req, id);
    var u := After(Apply(v, Flag(owner, req, false)), later);
    if token in u.relays && u.relays[token].copy.id == id { WithdrawnIsRefused(u, req, id, token); }
  }

  lemma FlagWithdraws(w: World, owner: nat, req: Req)
    requires Inv(w) && Enabled(w, Flag(owner, req, false))
    ensures Withdrawn(Apply(w, Flag(owner, req, false)), req, w.store.notices[req].id)
  {
    hide Delivered, Leased, RelaysSafe, RelayPostsHeld, DroppedForGood, FlushesSafe;
  }

  lemma WithdrawnIsRefused(w: World, req: Req, id: nat, token: nat)
    requires Withdrawn(w, req, id) && token in w.relays && w.relays[token].copy.id == id
    ensures !Enabled(w, Authorize(token))
  {
  }

  /** A relay closes a notice as obsolete only while it is not wanted. */
  lemma ObsoleteIsNotWanted(w: World, token: nat)
    requires Enabled(w, Acknowledge(token, false))
    ensures var req := w.relays[token].req;
      req in w.store.notices && w.store.notices[req].id == w.relays[token].copy.id && !w.store.notices[req].wanted
    ensures var v := Apply(w, Acknowledge(token, false));
      w.relays[token].req !in v.store.notices && w.relays[token].copy.id in v.dropped && token !in v.relays
  {
  }

  /** What a flush puts on record: the attempt before it posts, so that neither sender tries again for a minute; the
      outcome it was told; and a notice given up as undelivered. */
  lemma FlushRecords(w: World, owner: nat, ts: bool, refused: bool)
    requires owner in w.flushes
    ensures Enabled(w, Decide(owner)) ==>
      var p, v := w.flushes[owner].phase, Apply(w, Decide(owner));
      && p.req in v.store.notices && v.store.notices[p.req] == p.n.(attemptedAt := w.now, rejected := false)
      && v.flushes[owner].phase == Decided(p.req, v.store.notices[p.req])
      && forall later: nat :: later < w.now + SETTLE ==> !Settled(v.store.notices[p.req], later)
    ensures Enabled(w, Return(owner, ts, refused)) ==>
      var p, v := w.flushes[owner].phase, Apply(w, Return(owner, ts, refused));
      && p.req in v.store.notices && v.store.notices[p.req] == p.n.(posted := ts, rejected := refused)
      && v.flushes[owner].phase == Between && v.wire == w.wire
    ensures Enabled(w, GiveUp(owner)) ==>
      var p, v := w.flushes[owner].phase, Apply(w, GiveUp(owner));
      p.req !in v.store.notices && p.n.id in v.dropped && v.flushes[owner].phase == Between
  {
  }

  /** What was lost on the way is not accepted any more. */
  lemma LostStaysLost(w: World, post: Post)
    requires Enabled(w, Lose(post))
    ensures !Enabled(Apply(w, Lose(post)), Accept(post))
  {
  }

  /** A relay that stops leaves the store as it is and sends nothing more. */
  lemma StoppedRelayIsSilent(w: World, token: nat)
    requires Enabled(w, RelayStop(token))
    ensures var v := Apply(w, RelayStop(token));
      token !in v.relays && v.store == w.store && !Enabled(v, RelaySend(token))
  {
  }

  /** A flush that ends drops its own lease and nobody else's. */
  lemma EndDropsOwnLease(w: World, owner: nat)
    requires Enabled(w, End(owner))
    ensures var v := Apply(w, End(owner));
      && owner !in v.flushes && v.store.notices == w.store.notices && v.store.dirty == w.store.dirty
      && v.store.lease == match w.store.lease
                          case None => None
                          case Some(lease) => if lease.owner == owner then None else Some(lease)
  {
  }

  // ---------------------------------------------------------------- both senders get through

  lemma Prepend(w: World, step: Step, v: World, rest: seq<Step>)
    requires Enabled(w, step) && Apply(w, step) == v && Possible(v, rest)
    ensures Possible(w, [step] + rest) && After(w, [step] + rest) == After(v, rest)
  {
    assert ([step] + rest)[1..] == rest;
  }

  const START := World(0, Store(None, map[], map[]), 0, map[], map[], {}, [], {})
  const FIRST := Notice(1, None, 0, None, 0, false, true, false)

  /** A flush has taken the lease and recorded its first attempt at request 7. */
  const DECIDED := World(0, Store(Some(Lease(0, FLUSH_LEASE)), map[], map[7 := FIRST]), 2,
                         map[0 := Flush(0, Decided(7, FIRST))], map[], {}, [], {})

  lemma FromTheStart(rest: seq<Step>) returns (steps: seq<Step>)
    requires Possible(DECIDED, rest)
    ensures Initial(START) && Possible(START, steps) && After(START, steps) == After(DECIDED, rest)
  {
    hide Possible, After;
    var leased := World(0, Store(Some(Lease(0, FLUSH_LEASE)), map[], map[]), 1,
                        map[0 := Flush(0, Between)], map[], {}, [], {});
    Prepend(leased, Create(0, 7), DECIDED, rest);
    Prepend(START, TakeLease(0), leased, [Create(0, 7)] + rest);
    steps := [TakeLease(0)] + ([Create(0, 7)] + rest);
  }

  /** The flush can deliver a notice and close it. */
  lemma FlushDelivers() returns (steps: seq<Step>)
    ensures Initial(START) && Possible(START, steps)
    ensures After(START, steps).accepted == [1] && After(START, steps).store.notices == map[]
  {
    var post := Post(1, 7, GAS_POST, ByFlush(0));
    var sending := DECIDED.(wire := {post}, flushes := map[0 := Flush(0, Sending(7, FIRST, 0))]);
    var taken := sending.(wire := {}, accepted := [1]);
    var rest := FlushCloses(taken.(now := 1));
    hide Possible, After;
    Prepend(taken, Tick(1), taken.(now := 1), rest);
    Prepend(sending, Accept(post), taken, [Tick(1)] + rest);
    Prepend(DECIDED, Send(0), sending, [Accept(post)] + ([Tick(1)] + rest));
    steps := FromTheStart([Send(0)] + ([Accept(post)] + ([Tick(1)] + rest)));
  }

  lemma FlushCloses(w: World) returns (steps: seq<Step>)
    requires w == DECIDED.(now := 1, accepted := [1], flushes := map[0 := Flush(0, Sending(7, FIRST, 0))])
    ensures Possible(w, steps)
    ensures After(w, steps).accepted == [1] && After(w, steps).store.notices == map[]
  {
    var posted := w.(store := w.store.(notices := map[7 := FIRST.(posted := true)]),
                     flushes := map[0 := Flush(0, Between)]);
    var closed := posted.(store := w.store.(notices := map[]));
    assert Possible(closed, []) && After(closed, []) == closed;
    hide Possible, After;
    Prepend(posted, Found(0, 7), closed, []);
    Prepend(w, Return(0, true, false), posted, [Found(0, 7)] + []);
    steps := [Return(0, true, false)] + ([Found(0, 7)] + []);
  }

  /** So can the relay, after the flush that recorded the notice was killed. */
  lemma RelayDelivers() returns (steps: seq<Step>)
    ensures Initial(START) && Possible(START, steps)
    ensures After(START, steps).accepted == [1] && After(START, steps).store.notices == map[]
  {
    var killed := DECIDED.(flushes := map[]);
    var expired := killed.(now := FLUSH_LEASE);
    var mine := FIRST.(token := Some(2), relayUntil := FLUSH_LEASE + RELAY_CLAIM, generation := None);
    var claimed := expired.(store := expired.store.(notices := map[7 := mine]), nextName := 3,
                            relays := map[2 := Relay(7, mine, Holding)]);
    var rest := RelayPosts(claimed, mine);
    hide Possible, After;
    Prepend(expired, Claim(7, None), claimed, rest);
    Prepend(killed, Tick(FLUSH_LEASE), expired, [Claim(7, None)] + rest);
    Prepend(DECIDED, Crash(0), killed, [Tick(FLUSH_LEASE)] + ([Claim(7, None)] + rest));
    steps := FromTheStart([Crash(0)] + ([Tick(FLUSH_LEASE)] + ([Claim(7, None)] + rest)));
  }

  lemma RelayPosts(w: World, mine: Notice) returns (steps: seq<Step>)
    requires mine == FIRST.(token := Some(2), relayUntil := FLUSH_LEASE + RELAY_CLAIM, generation := None)
    requires w == World(FLUSH_LEASE, Store(Some(Lease(0, FLUSH_LEASE)), map[], map[7 := mine]), 3, map[],
                        map[2 := Relay(7, mine, Holding)], {}, [], {})
    ensures Possible(w, steps)
    ensures After(w, steps).accepted == [1] && After(w, steps).store.notices == map[]
  {
    var until := FLUSH_LEASE + RELAY_SEND;
    var looked := w.(relays := map[2 := Relay(7, mine, LookedUp)]);
    var cleared := w.(store := w.store.(notices := map[7 := mine.(attemptedAt := FLUSH_LEASE, relayUntil := until)]),
                      relays := map[2 := Relay(7, mine, Cleared(until))]);
    var rest := RelayCloses(cleared, mine);
    hide Possible, After;
    Prepend(looked, Authorize(2), cleared, rest);
    Prepend(w, RelayLookup(2), looked, [Authorize(2)] + rest);
    steps := [RelayLookup(2)] + ([Authorize(2)] + rest);
  }

  lemma RelayCloses(w: World, mine: Notice) returns (steps: seq<Step>)
    requires mine == FIRST.(token := Some(2), relayUntil := FLUSH_LEASE + RELAY_CLAIM, generation := None)
    requires var until := FLUSH_LEASE + RELAY_SEND;
      w == World(FLUSH_LEASE, Store(Some(Lease(0, FLUSH_LEASE)), map[],
                 map[7 := mine.(attemptedAt := FLUSH_LEASE, relayUntil := until)]), 3, map[],
                 map[2 := Relay(7, mine, Cleared(until))], {}, [], {})
    ensures Possible(w, steps)
    ensures After(w, steps).accepted == [1] && After(w, steps).store.notices == map[]
  {
    var post := Post(1, 7, FLUSH_LEASE + RELAY_POST, ByRelay(2));
    var posted := w.(wire := {post}, relays := map[2 := Relay(7, mine, Posted)]);
    var taken := posted.(wire := {}, accepted := [1]);
    var rest := RelayAcknowledges(w, taken, mine);
    hide Possible, After;
    Prepend(posted, Accept(post), taken, rest);
    Prepend(w, RelaySend(2), posted, [Accept(post)] + rest);
    steps := [RelaySend(2)] + ([Accept(post)] + rest);
  }

  lemma RelayAcknowledges(w: World, taken: World, mine: Notice) returns (steps: seq<Step>)
    requires mine == FIRST.(token := Some(2), relayUntil := FLUSH_LEASE + RELAY_CLAIM, generation := None)
    requires w.now == FLUSH_LEASE && w.store == Store(Some(Lease(0, FLUSH_LEASE)), map[],
               map[7 := mine.(attemptedAt := FLUSH_LEASE, relayUntil := FLUSH_LEASE + RELAY_SEND)])
    requires taken == w.(wire := {}, accepted := [1], relays := map[2 := Relay(7, mine, Posted)])
    ensures Possible(taken, steps)
    ensures After(taken, steps).accepted == [1] && After(taken, steps).store.notices == map[]
  {
    var closed := taken.(store := w.store.(notices := map[]), relays := map[]);
    assert Possible(closed, []) && After(closed, []) == closed;
    hide Possible, After;
    Prepend(taken, Acknowledge(2, true), closed, []);
    steps := [Acknowledge(2, true)] + [];
  }
}
