/** The contract-regeneration queue (Code.js:1478-1773): edit marks whose millisecond time is the version,
    claims with a lease and a token, retries kept per version. Assumed: the clock never runs back, an execution
    lives at most 6 minutes, an edit mark is stored less than 2.8 s after it read the clock, and finishing is
    atomic with respect to marks (a mark takes no lock). */
module RegenQueue {

  import opened Basics

  type Tid = nat

  const STABLE := 2800
  const LEASE := 420000
  const EXECUTION := 360000
  const MOST_ATTEMPTS := 5
  const DEGRADED := 1800000
  const FIRST_BACKOFF := 15000
  const LONGEST_BACKOFF := 300000

  datatype Claim = Claim(token: nat, raw: nat, leaseUntil: nat)

  datatype Retry = Retry(degraded: bool, attempts: nat, nextAt: nat)

  /** The three kinds of property: edit time by trade, retry state by trade and version, claim by trade. */
  datatype Store = Store(edits: map<Tid, nat>, retries: map<(Tid, nat), Retry>, claims: map<Tid, Claim>)

  datatype Answer = Nothing | Waiting(nextAt: nat) | Granted(claim: Claim)

  datatype Outcome = Success | Gone | Failure

  // ---------------------------------------------------------------- lock-held sections on the store

  function Earlier(s: Store, tid: Tid, raw: nat): Retry {
    if (tid, raw) in s.retries then s.retries[(tid, raw)] else Retry(false, 0, 0)
  }

  /** What `claimPendingContractRegen_` answers and leaves behind. */
  function ClaimStep(s: Store, now: nat, tid: Tid, token: nat): (Store, Answer) {
    if tid !in s.edits || s.edits[tid] == 0 then (s.(claims := s.claims - {tid}), Nothing)
    else if now < s.edits[tid] + STABLE then (s, Waiting(s.edits[tid] + STABLE))
    else if Earlier(s, tid, s.edits[tid]).nextAt > now then (s, Waiting(Earlier(s, tid, s.edits[tid]).nextAt))
    else if tid in s.claims && s.claims[tid].leaseUntil > now then (s, Waiting(s.claims[tid].leaseUntil))
    else
      var c := Claim(token, s.edits[tid], now + LEASE);
      (s.(claims := s.claims[tid := c]), Granted(c))
  }

  function AfterFailure(retry: Retry, now: nat): Retry {
    var attempts := retry.attempts + 1;
    if attempts >= MOST_ATTEMPTS then Retry(true, attempts, now + DEGRADED)
    else Retry(false, attempts, now + Min(LONGEST_BACKOFF, FIRST_BACKOFF * Pow2(attempts - 1)))
  }

  predicate Owns(s: Store, tid: Tid, token: nat) {
    tid in s.claims && s.claims[tid].token == token
  }

  /** What `finishPendingContractRegen_` leaves behind. */
  function FinishStep(s: Store, now: nat, tid: Tid, claim: Claim, outcome: Outcome): Store {
    if !Owns(s, tid, claim.token) then s
    else
      var freed := s.(claims := s.claims - {tid});
      if tid !in s.edits || s.edits[tid] != claim.raw then freed
      else if outcome == Failure then
        freed.(retries := s.retries[(tid, claim.raw) := AfterFailure(Earlier(s, tid, claim.raw), now)])
      else freed.(edits := s.edits - {tid}, retries := s.retries - {(tid, claim.raw)})
  }

  /** The retry state of a version that failed once more: half an hour of rest from the fifth failure on. */
  ghost predicate PutOff(was: Option<Retry>, retry: Retry, now: nat) {
    var attempts := (match was case None => 0 case Some(earlier) => earlier.attempts) + 1;
    && retry.attempts == attempts
    && (if attempts < MOST_ATTEMPTS
        then
          && !retry.degraded && now < retry.nextAt <= now + LONGEST_BACKOFF
          && retry.nextAt == now + Min(LONGEST_BACKOFF, FIRST_BACKOFF * Pow2(attempts - 1))
        else retry.degraded && retry.nextAt == now + DEGRADED)
  }

  function Noted(retries: map<(Tid, nat), Retry>, key: (Tid, nat)): Option<Retry> {
    if key in retries then Some(retries[key]) else None
  }

  lemma AfterFailureIs(s: Store, tid: Tid, raw: nat, now: nat)
    ensures PutOff(Noted(s.retries, (tid, raw)), AfterFailure(Earlier(s, tid, raw), now), now)
  {
    assert forall n: nat :: FIRST_BACKOFF * Pow2(n) > 0;
  }

  class RegenStore {
    var edits: map<Tid, nat>
    var retries: map<(Tid, nat), Retry>
    var claims: map<Tid, Claim>

    ghost function View(): Store
      reads this
    {
      Store(edits, retries, claims)
    }

    method Schedule(tid: Tid, now: nat)
      modifies this`edits
      ensures View() == old(View()).(edits := old(edits)[tid := now])
    {
      edits := edits[tid := now];
    }

    method ClaimOne(tid: Tid, now: nat, token: nat) returns (answer: Answer)
      modifies this`claims
      ensures (View(), answer) == ClaimStep(old(View()), now, tid, token)
      ensures answer.Nothing? <==> !(tid in edits && edits[tid] > 0)
      ensures answer.Granted? <==>
                && tid in edits && edits[tid] > 0 && edits[tid] + STABLE <= now
                && ((tid, edits[tid]) in retries ==> retries[(tid, edits[tid])].nextAt <= now)
                && (tid in old(claims) ==> old(claims)[tid].leaseUntil <= now)
      ensures answer.Granted? ==> answer.claim == Claim(token, edits[tid], now + LEASE)
      ensures answer.Waiting? ==> now < answer.nextAt
      ensures answer.Waiting? ==>
                || answer.nextAt == edits[tid] + STABLE
                || ((tid, edits[tid]) in retries && answer.nextAt == retries[(tid, edits[tid])].nextAt)
                || (tid in claims && answer.nextAt == claims[tid].leaseUntil)
      ensures claims == if answer.Nothing? then old(claims) - {tid}
                        else if answer.Granted? then old(claims)[tid := answer.claim] else old(claims)
    {
      if tid !in edits || edits[tid] == 0 {
        claims := claims - {tid};
        return Nothing;
      }
      var raw := edits[tid];
      if now < raw + STABLE { return Waiting(raw + STABLE); }
      if (tid, raw) in retries && retries[(tid, raw)].nextAt > now { return Waiting(retries[(tid, raw)].nextAt); }
      if tid in claims && claims[tid].leaseUntil > now { return Waiting(claims[tid].leaseUntil); }
      var claim := Claim(token, raw, now + LEASE);
      claims := claims[tid := claim];
      return Granted(claim);
    }

    /** Without its claim a worker changes nothing; a version stored meanwhile only frees the claim; otherwise an end
        takes the version off the queue and a failure puts it off. */
    method Finish(tid: Tid, now: nat, claim: Claim, outcome: Outcome)
      modifies this
      ensures View() == FinishStep(old(View()), now, tid, claim, outcome)
      ensures var mine := tid in old(claims) && old(claims)[tid].token == claim.token;
              var same := mine && tid in old(edits) && old(edits)[tid] == claim.raw;
        && claims == (if mine then old(claims) - {tid} else old(claims))
        && edits == (if same && outcome != Failure then old(edits) - {tid} else old(edits))
        && (same && outcome != Failure ==> retries == old(retries) - {(tid, claim.raw)})
        && (!same ==> retries == old(retries))
        && (same && outcome == Failure ==>
              && (tid, claim.raw) in retries && retries - {(tid, claim.raw)} == old(retries) - {(tid, claim.raw)}
              && PutOff(Noted(old(retries), (tid, claim.raw)), retries[(tid, claim.raw)], now))
    {
      AfterFailureIs(View(), tid, claim.raw, now);
      hide PutOff;
      if tid !in claims || claims[tid].token != claim.token { return; }
      claims := claims - {tid};
      if tid !in edits || edits[tid] != claim.raw { return; }
      if outcome != Failure {
        edits := edits - {tid};
        retries := retries - {(tid, claim.raw)};
        return;
      }
      var attempts := (if (tid, claim.raw) in retries then retries[(tid, claim.raw)].attempts else 0) + 1;
      var retry := if attempts >= MOST_ATTEMPTS then Retry(true, attempts, now + DEGRADED)
                   else Retry(false, attempts, now + Min(LONGEST_BACKOFF, FIRST_BACKOFF * Pow2(attempts - 1)));
      retries := retries[(tid, claim.raw) := retry];
    }
  }

  // ---------------------------------------------------------------- the system

  /** A mark that has read the clock and is not stored yet. */
  datatype Mark = Mark(tid: Tid, edit: nat, ts: nat)

  /** `seen` is how many edits the regeneration could read: the count when it began, after the claim. */
  datatype Job = Idle | Job(tid: Tid, claim: Claim, seen: Option<nat>)

  datatype Worker = Worker(startedAt: nat, job: Job)

  /** History: `count` numbers the sheet edits, `marked` is the newest edit of a trade with a stored mark,
      `settled` the newest `seen` of a run that cleared the trade. */
  datatype World = World(now: nat, store: Store, nextName: nat, flying: set<Mark>, workers: map<nat, Worker>,
                         count: nat, marked: map<Tid, nat>, settled: map<Tid, nat>)

  datatype Step =
    | Tick(ms: nat)
    | Edit
    | ReadClock(tid: Tid, edit: nat)
    | WriteMark(mark: Mark)
    | LoseMark(mark: Mark)
    | Start
    | Take(worker: nat, tid: Tid)
    | Begin(worker: nat)
    | Finish(worker: nat, outcome: Outcome)
    | Kill(worker: nat)

  predicate Working(w: World, k: nat) {
    k in w.workers && w.workers[k].job.Job?
  }

  predicate Enabled(w: World, step: Step) {
    match step
    case Tick(ms) =>
      && (forall k :: k in w.workers ==> w.now + ms <= w.workers[k].startedAt + EXECUTION)
      && (forall m :: m in w.flying ==> w.now + ms < m.ts + STABLE)
    case Edit => true
    case ReadClock(tid, edit) => edit <= w.count
    case WriteMark(mark) => mark in w.flying
    case LoseMark(mark) => mark in w.flying
    case Start => true
    case Take(k, tid) => k in w.workers && w.workers[k].job.Idle?
    case Begin(k) => Working(w, k)
    case Finish(k, outcome) => Working(w, k) && (outcome != Failure ==> w.workers[k].job.seen.Some?)
    case Kill(k) => k in w.workers
  }

  function Assign(w: World, k: nat, job: Job): World
    requires k in w.workers
  {
    w.(workers := w.workers[k := w.workers[k].(job := job)])
  }

  function Apply(w: World, step: Step): World
    requires Enabled(w, step)
  {
    match step
    case Tick(ms) => w.(now := w.now + ms)
    case Edit => w.(count := w.count + 1)
    case ReadClock(tid, edit) => w.(flying := w.flying + {Mark(tid, edit, w.now)})
    case WriteMark(m) =>
      w.(flying := w.flying - {m}, store := w.store.(edits := w.store.edits[m.tid := m.ts]),
         marked := Raise(w.marked, m.tid, m.edit))
    case LoseMark(m) => w.(flying := w.flying - {m})
    case Start => w.(workers := w.workers[w.nextName := Worker(w.now, Idle)], nextName := w.nextName + 1)
    case Take(k, tid) =>
      var (s, answer) := ClaimStep(w.store, w.now, tid, w.nextName);
      Assign(w, k, if answer.Granted? then Job(tid, answer.claim, None) else Idle)
        .(store := s, nextName := w.nextName + 1)
    case Begin(k) => Assign(w, k, w.workers[k].job.(seen := Some(w.count)))
    case Finish(k, outcome) =>
      var j := w.workers[k].job;
      var s := FinishStep(w.store, w.now, j.tid, j.claim, outcome);
      Assign(w, k, Idle).(store := s,
        settled := if j.tid in w.store.edits && j.tid !in s.edits && j.seen.Some?
                   then Raise(w.settled, j.tid, j.seen.value) else w.settled)
    case Kill(k) => w.(workers := w.workers - {k})
  }

  // ---------------------------------------------------------------- what every step keeps

  ghost predicate Timed(w: World) {
    && w.now > 0
    && (forall m :: m in w.flying ==> 0 < m.ts <= w.now < m.ts + STABLE && m.edit <= w.count)
    && (forall t :: t in w.store.edits ==> 0 < w.store.edits[t] <= w.now)
    && (forall t :: At(w.marked, t) <= w.count)
  }

  ghost predicate Leased(w: World) {
    forall t :: t in w.store.claims ==> w.store.claims[t].leaseUntil <= w.now + LEASE && t in w.store.edits
  }

  ghost predicate Bounded(w: World) {
    forall p: (Tid, nat) :: p in w.store.retries ==>
      w.store.retries[p].nextAt <= w.now + DEGRADED && p.1 + STABLE <= w.now
  }

  /** A live worker's claim is the stored one, still leased, on a version no mark can write any more. */
  ghost predicate Claimed(w: World) {
    && (forall t :: t in w.store.claims ==> w.store.claims[t].token < w.nextName)
    && (forall k :: k in w.workers ==> k < w.nextName && w.now <= w.workers[k].startedAt + EXECUTION
                                       && w.workers[k].startedAt <= w.now)
    && (forall k :: Working(w, k) ==> Holding(w, w.workers[k]))
  }

  predicate Holding(w: World, worker: Worker)
    requires worker.job.Job?
  {
    var j := worker.job;
    && j.tid in w.store.claims && w.store.claims[j.tid] == j.claim
    && worker.startedAt + LEASE <= j.claim.leaseUntil && j.claim.raw + STABLE <= w.now
  }

  ghost predicate Exclusive(w: World) {
    forall a, b :: Working(w, a) && Working(w, b) && w.workers[a].job.tid == w.workers[b].job.tid ==> a == b
  }

  /** While the claimed version is still stored, the run began after every marked edit. */
  ghost predicate Late(w: World) {
    forall k :: Working(w, k) ==>
      var j := w.workers[k].job;
      j.seen.Some? && j.tid in w.store.edits && w.store.edits[j.tid] == j.claim.raw ==>
        At(w.marked, j.tid) <= j.seen.value
  }

  ghost predicate Unlost(w: World) {
    forall t :: At(w.marked, t) > At(w.settled, t) ==> t in w.store.edits
  }

  ghost predicate Inv(w: World) {
    Timed(w) && Leased(w) && Bounded(w) && Claimed(w) && Exclusive(w) && Late(w) && Unlost(w)
  }

  lemma KeepsTimed(w: World, step: Step)
    requires Inv(w) && Enabled(w, step)
    ensures Timed(Apply(w, step))
  {
    hide Late, Exclusive, Claimed, Bounded, Unlost, AfterFailure;
  }

  lemma KeepsBounded(w: World, step: Step)
    requires Inv(w) && Enabled(w, step)
    ensures Bounded(Apply(w, step))
  {
    hide Late, Exclusive, Unlost, At, Leased, Timed;
  }

  lemma KeepsLeased(w: World, step: Step)
    requires Inv(w) && Enabled(w, step)
    ensures Leased(Apply(w, step))
  {
    hide Late, Exclusive, Unlost, AfterFailure, Bounded, At;
  }

  lemma KeepsHolding(w: World, step: Step, k: nat)
    requires Inv(w) && Enabled(w, step) && Working(Apply(w, step), k)
    ensures Holding(Apply(w, step), Apply(w, step).workers[k])
  {
    hide Late, Unlost, AfterFailure, Bounded, At;
  }

  lemma KeepsClaimed(w: World, step: Step)
    requires Inv(w) && Enabled(w, step)
    ensures Claimed(Apply(w, step))
  {
    hide Late, Unlost, AfterFailure, At, Exclusive, Bounded, Leased, Timed, Holding;
    forall k | Working(Apply(w, step), k)
      ensures Holding(Apply(w, step), Apply(w, step).workers[k])
    {
      KeepsHolding(w, step, k);
    }
  }

  lemma KeepsExclusive(w: World, step: Step)
    requires Inv(w) && Enabled(w, step)
    ensures Exclusive(Apply(w, step))
  {
    hide Late, Unlost, AfterFailure, At;
  }

  lemma KeepsLate(w: World, step: Step)
    requires Inv(w) && Enabled(w, step)
    ensures Late(Apply(w, step))
  {
    hide Unlost, AfterFailure, At;
  }

  lemma KeepsUnlost(w: World, step: Step)
    requires Inv(w) && Enabled(w, step)
    ensures Unlost(Apply(w, step))
  {
    hide Bounded, Exclusive, AfterFailure, At;
  }

  lemma StepKeeps(w: World, step: Step)
    requires Inv(w) && Enabled(w, step)
    ensures Inv(Apply(w, step))
  {
    hide Enabled, Apply, Timed, Leased, Bounded, Claimed, Exclusive, Late, Unlost;
    KeepsTimed(w, step);
    KeepsLeased(w, step);
    KeepsBounded(w, step);
    KeepsClaimed(w, step);
    KeepsExclusive(w, step);
    KeepsLate(w, step);
    KeepsUnlost(w, step);
  }

  // ---------------------------------------------------------------- whole runs

  ghost predicate Initial(w: World) {
    && w.now > 0 && w.store == Store(map[], map[], map[]) && w.flying == {} && w.workers == map[]
    && w.marked == map[] && w.settled == map[]
  }

  ghost predicate Possible(w: World, steps: seq<Step>)
    decreases |steps|
  {
    steps == [] || (Enabled(w, steps[0]) && Possible(Apply(w, steps[0]), steps[1..]))
  }

  ghost function After(w: World, steps: seq<Step>): World
    requires Possible(w, steps)
    decreases |steps|
  {
    if steps == [] then w else After(Apply(w, steps[0]), steps[1..])
  }

  lemma {:induction false} RunKeeps(w: World, steps: seq<Step>)
    requires Inv(w) && Possible(w, steps)
    ensures Inv(After(w, steps))
    decreases |steps|
  {
    hide Inv, Enabled;
    if steps == [] {
    } else {
      StepKeeps(w, steps[0]);
      RunKeeps(Apply(w, steps[0]), steps[1..]);
    }
  }

  /** No edit is lost: a trade with a stored mark stays queued until a run that began after that edit ends it. */
  lemma NoEditLost(w: World, steps: seq<Step>, tid: Tid)
    requires Initial(w) && Possible(w, steps)
    ensures var v := After(w, steps); At(v.marked, tid) > At(v.settled, tid) ==> tid in v.store.edits
  {
    hide Possible, After;
    RunKeeps(w, steps);
  }

  /** Clearing: when a run takes a trade off the queue, it began after the last edit marked for that trade. */
  lemma ClearedOnlyByLateRun(w: World, steps: seq<Step>, k: nat, outcome: Outcome)
    requires Initial(w) && Possible(w, steps) && Enabled(After(w, steps), Finish(k, outcome))
    ensures var v := After(w, steps); var j := v.workers[k].job;
      j.tid in v.store.edits && j.tid !in Apply(v, Finish(k, outcome)).store.edits ==>
        j.seen.Some? && At(v.marked, j.tid) <= j.seen.value
  {
    hide Possible, After;
    RunKeeps(w, steps);
  }

  /** No two live workers hold claims on one trade, and a live worker's claim is never taken over. */
  lemma OneWorkerPerTrade(w: World, steps: seq<Step>, a: nat, b: nat)
    requires Initial(w) && Possible(w, steps)
    requires Working(After(w, steps), a) && Working(After(w, steps), b)
    requires After(w, steps).workers[a].job.tid == After(w, steps).workers[b].job.tid
    ensures a == b
    ensures var v := After(w, steps); var j := v.workers[a].job;
      Owns(v.store, j.tid, j.claim.token) && v.store.claims[j.tid].leaseUntil > v.now
  {
    hide Possible, After;
    RunKeeps(w, steps);
  }

  /** A run that ends on the version still stored takes the trade off the queue, and one that fails keeps it queued; in
      both cases the claim is free again. */
  lemma SuccessLeavesTheQueue(w: World, steps: seq<Step>, k: nat, outcome: Outcome)
    requires Initial(w) && Possible(w, steps) && Enabled(After(w, steps), Finish(k, outcome))
    ensures var v := After(w, steps); var j := v.workers[k].job; var u := Apply(v, Finish(k, outcome));
      && j.tid !in u.store.claims
      && (outcome != Failure && j.tid in v.store.edits && v.store.edits[j.tid] == j.claim.raw ==>
            j.tid !in u.store.edits && (j.tid, j.claim.raw) !in u.store.retries)
      && (outcome == Failure || (j.tid in v.store.edits && v.store.edits[j.tid] != j.claim.raw) ==>
            u.store.edits == v.store.edits)
      && forall t :: t != j.tid ==>
           (t in u.store.edits <==> t in v.store.edits) && (t in u.store.claims <==> t in v.store.claims)
  {
    hide Possible, After, Enabled, Apply, Inv;
    InitialInv(w);
    RunKeeps(w, steps);
    FinishedLeaves(After(w, steps), k, outcome);
  }

  lemma InitialInv(w: World)
    requires Initial(w)
    ensures Inv(w)
  {
  }

  lemma FinishedLeaves(w: World, k: nat, outcome: Outcome)
    requires Inv(w) && Enabled(w, Finish(k, outcome))
    ensures var j := w.workers[k].job; var u := Apply(w, Finish(k, outcome));
      && j.tid !in u.store.claims
      && (outcome != Failure && j.tid in w.store.edits && w.store.edits[j.tid] == j.claim.raw ==>
            j.tid !in u.store.edits && (j.tid, j.claim.raw) !in u.store.retries)
      && (outcome == Failure || (j.tid in w.store.edits && w.store.edits[j.tid] != j.claim.raw) ==>
            u.store.edits == w.store.edits)
      && forall t :: t != j.tid ==>
           (t in u.store.edits <==> t in w.store.edits) && (t in u.store.claims <==> t in w.store.claims)
  {
    hide AfterFailure, Late, Bounded, Timed, Unlost, Exclusive, Leased;
    assert Working(w, k) && Holding(w, w.workers[k]);
  }

  /** Never stuck: half an hour after the last step a claim on any queued trade is granted. */
  lemma GrantedWithinHalfAnHour(w: World, steps: seq<Step>, tid: Tid, later: nat, token: nat)
    requires Initial(w) && Possible(w, steps)
    requires tid in After(w, steps).store.edits && later >= After(w, steps).now + DEGRADED
    ensures ClaimStep(After(w, steps).store, later, tid, token).1.Granted?
  {
    hide Possible, After;
    RunKeeps(w, steps);
  }

  /** Failures of older versions do not delay a new one: it is granted as soon as it is stable and unleased. */
  lemma NewVersionNotDelayed(w: World, steps: seq<Step>, tid: Tid, later: nat, token: nat)
    requires Initial(w) && Possible(w, steps)
    requires var v := After(w, steps);
      && tid in v.store.edits && v.now < v.store.edits[tid] + STABLE <= later
      && (tid in v.store.claims ==> v.store.claims[tid].leaseUntil <= later)
    ensures ClaimStep(After(w, steps).store, later, tid, token).1.Granted?
  {
    hide Possible, After;
    RunKeeps(w, steps);
  }

  // ---------------------------------------------------------------- a run from an edit to the end

  lemma {:induction false} Extend(w: World, steps: seq<Step>, step: Step)
    requires Possible(w, steps) && Enabled(After(w, steps), step)
    ensures Possible(w, steps + [step]) && After(w, steps + [step]) == Apply(After(w, steps), step)
    decreases |steps|
  {
    hide Enabled, Apply;
    if steps == [] {
      assert (steps + [step])[1..] == [];
    } else {
      assert (steps + [step])[1..] == steps[1..] + [step];
      Extend(Apply(w, steps[0]), steps[1..], step);
    }
  }

  ghost predicate Reaches(w: World, v: World) {
    exists steps :: Possible(w, steps) && After(w, steps) == v
  }

  lemma ReachStart(w: World)
    ensures Reaches(w, w)
  {
    assert Possible(w, []) && After(w, []) == w;
  }

  lemma Reach(w: World, v: World, step: Step)
    requires Reaches(w, v) && Enabled(v, step)
    ensures Reaches(w, Apply(v, step))
  {
    var steps :| Possible(w, steps) && After(w, steps) == v;
    Extend(w, steps, step);
  }

  const CLAIMED_AT := 2801

  /** The state of the run below once its trade has been regenerated. */
  const REGENERATED :=
    World(CLAIMED_AT + FIRST_BACKOFF, Store(map[], map[], map[]), 3, {}, map[], 1, map[5 := 1], map[5 := 1])

  /** One edit, a lost mark and a stored one; the first run fails, the second, fifteen seconds later, ends the trade. */
  lemma RegeneratedInTwoAttempts() returns (w: World)
    ensures Initial(w) && w == World(1, Store(map[], map[], map[]), 0, {}, map[], 0, map[], map[])
    ensures Reaches(w, REGENERATED)
  {
    hide Reaches;
    w := World(1, Store(map[], map[], map[]), 0, {}, map[], 0, map[], map[]);
    var u := MarkStored(w);
    u := FirstRunFails(w, u);
    u := SecondRunBegins(w, u);
    SecondRunEnds(w, u);
  }

  lemma MarkStored(w: World) returns (v: World)
    requires w == World(1, Store(map[], map[], map[]), 0, {}, map[], 0, map[], map[])
    ensures Reaches(w, v)
    ensures v == World(CLAIMED_AT, Store(map[5 := 1], map[], map[]), 1, {}, map[0 := Worker(1, Idle)], 1, map[5 := 1],
                       map[])
  {
    hide Reaches;
    ReachStart(w);
    v := w;
    Reach(w, v, Edit);
    v := Apply(v, Edit);
    Reach(w, v, ReadClock(6, 1));
    v := Apply(v, ReadClock(6, 1));
    Reach(w, v, LoseMark(Mark(6, 1, 1)));
    v := Apply(v, LoseMark(Mark(6, 1, 1)));
    Reach(w, v, ReadClock(5, 1));
    v := Apply(v, ReadClock(5, 1));
    Reach(w, v, WriteMark(Mark(5, 1, 1)));
    v := Apply(v, WriteMark(Mark(5, 1, 1)));
    Reach(w, v, Start);
    v := Apply(v, Start);
    Reach(w, v, Tick(STABLE));
    v := Apply(v, Tick(STABLE));
  }

  lemma FirstRunFails(w: World, u: World) returns (v: World)
    requires Reaches(w, u)
    requires u == World(CLAIMED_AT, Store(map[5 := 1], map[], map[]), 1, {}, map[0 := Worker(1, Idle)], 1, map[5 := 1],
                        map[])
    ensures Reaches(w, v)
    ensures v == World(CLAIMED_AT,
                       Store(map[5 := 1], map[(5, 1) := Retry(false, 1, CLAIMED_AT + FIRST_BACKOFF)], map[]), 2, {},
                       map[0 := Worker(1, Idle)], 1, map[5 := 1], map[])
  {
    hide Reaches;
    v := u;
    Reach(w, v, Take(0, 5));
    v := Apply(v, Take(0, 5));
    Reach(w, v, Begin(0));
    v := Apply(v, Begin(0));
    assert v.workers[0].job == Job(5, Claim(1, 1, CLAIMED_AT + LEASE), Some(1));
    assert Pow2(0) == 1;
    Reach(w, v, Finish(0, Failure));
    v := Apply(v, Finish(0, Failure));
  }

  lemma SecondRunBegins(w: World, u: World) returns (v: World)
    requires Reaches(w, u)
    requires u == World(CLAIMED_AT,
                        Store(map[5 := 1], map[(5, 1) := Retry(false, 1, CLAIMED_AT + FIRST_BACKOFF)], map[]), 2, {},
                        map[0 := Worker(1, Idle)], 1, map[5 := 1], map[])
    ensures Reaches(w, v)
    ensures var now := CLAIMED_AT + FIRST_BACKOFF;
      v == u.(now := now, nextName := 3, store := u.store.(claims := map[5 := Claim(2, 1, now + LEASE)]),
              workers := map[0 := Worker(1, Job(5, Claim(2, 1, now + LEASE), Some(1)))])
  {
    hide Reaches;
    v := u;
    Reach(w, v, Tick(FIRST_BACKOFF));
    v := Apply(v, Tick(FIRST_BACKOFF));
    Reach(w, v, Take(0, 5));
    v := Apply(v, Take(0, 5));
    Reach(w, v, Begin(0));
    v := Apply(v, Begin(0));
  }

  lemma SecondRunEnds(w: World, u: World)
    requires Reaches(w, u)
    requires var now := CLAIMED_AT + FIRST_BACKOFF; var claim := Claim(2, 1, now + LEASE);
      u == World(now, Store(map[5 := 1], map[(5, 1) := Retry(false, 1, now)], map[5 := claim]), 3, {},
                 map[0 := Worker(1, Job(5, claim, Some(1)))], 1, map[5 := 1], map[])
    ensures Reaches(w, REGENERATED)
  {
    hide Reaches;
    var v := u;
    Reach(w, v, Finish(0, Success));
    v := Apply(v, Finish(0, Success));
    Reach(w, v, Kill(0));
    v := Apply(v, Kill(0));
  }
}
