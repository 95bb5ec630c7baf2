/** The clean-up queue of cancelled trades (Code.js:2065-2364): one stored item a trade, claimed by lease and token,
    worked off in three external steps, dropped once all three have succeeded. No bound on how long a worker
    lives is assumed. */
module CancelQueue {

  import opened Basics

  type Tid = nat

  const LEASE := 420000
  const MOST_ATTEMPTS := 5
  const DEGRADED := 1800000
  const FIRST_BACKOFF := 15000
  const LONGEST_BACKOFF := 300000

  datatype Status = Pending | Running | Degraded | Failed

  datatype Stage = Supabase | ExternalLedger | Drive

  /** The order in which a worker runs them. */
  const ALL_STAGES := [Supabase, ExternalLedger, Drive]

  datatype Item = Item(status: Status, attempts: nat, nextAt: nat, leaseUntil: nat, token: Option<nat>,
                       completed: set<Stage>)

  // ---------------------------------------------------------------- one item

  function Queued(items: map<Tid, Item>, tid: Tid, now: nat): Item {
    var i := if tid in items then items[tid] else Item(Pending, 0, 0, 0, None, {});
    if i.status == Running then i
    else i.(status := Pending, attempts := if i.status == Failed then 0 else i.attempts, nextAt := now, leaseUntil := 0,
            token := None)
  }

  function AvailableAt(i: Item, now: nat): nat {
    if i.status == Running && i.leaseUntil > now then i.leaseUntil else i.nextAt
  }

  predicate Available(i: Item, now: nat) {
    i.status != Failed && AvailableAt(i, now) <= now
  }

  /** A due item that has used up its attempts only waits another half hour; any other is leased. */
  function Claimed(i: Item, now: nat, token: nat): Item {
    if i.attempts >= MOST_ATTEMPTS then i.(status := Degraded, nextAt := now + DEGRADED, attempts := 0)
    else i.(status := Running, attempts := i.attempts + 1, token := Some(token), leaseUntil := now + LEASE)
  }

  function Granted(i: Item): bool {
    i.attempts < MOST_ATTEMPTS
  }

  function Returned(i: Item, now: nat, completed: set<Stage>): Item {
    var j := i.(completed := completed, leaseUntil := 0, token := None);
    if i.attempts >= MOST_ATTEMPTS then j.(status := Degraded, attempts := 0, nextAt := now + DEGRADED)
    else
      j.(status := Pending,
         nextAt := now + Min(LONGEST_BACKOFF,
                             if i.attempts > 0 then FIRST_BACKOFF * Pow2(i.attempts - 1) else FIRST_BACKOFF / 2))
  }

  function FinishStep(items: map<Tid, Item>, now: nat, tid: Tid, token: nat, success: bool,
                      completed: set<Stage>): map<Tid, Item> {
    if tid !in items || items[tid].token != Some(token) then items
    else if success then items - {tid}
    else items[tid := Returned(items[tid], now, completed)]
  }

  /** No available item has been available for longer. */
  ghost predicate Chosen(items: map<Tid, Item>, now: nat, tid: Tid) {
    && tid in items && Available(items[tid], now)
    && forall t :: t in items && Available(items[t], now) ==> AvailableAt(items[tid], now) <= AvailableAt(items[t], now)
  }

  /** What a claim asks of an item: not failed, not leased, and due. */
  ghost predicate Free(i: Item, now: nat) {
    i.status != Failed && !(i.status == Running && now < i.leaseUntil) && i.nextAt <= now
  }

  lemma FreeIs(i: Item, now: nat)
    ensures Available(i, now) <==> Free(i, now)
    ensures Free(i, now) ==> AvailableAt(i, now) == i.nextAt
  {
  }

  /** A free item for which no other has been due for longer. */
  ghost predicate LongestDue(items: map<Tid, Item>, now: nat, tid: Tid) {
    tid in items && Free(items[tid], now) && forall t :: t in items && Free(items[t], now) ==>
      items[tid].nextAt <= items[t].nextAt
  }

  lemma ChosenIs(items: map<Tid, Item>, now: nat, tid: Tid)
    ensures Chosen(items, now, tid) <==> LongestDue(items, now, tid)
  {
    forall t | t in items
      ensures Available(items[t], now) <==> Free(items[t], now)
      ensures Free(items[t], now) ==> AvailableAt(items[t], now) == items[t].nextAt
    {
      FreeIs(items[t], now);
    }
  }

  /** The item of a worker that failed: its record kept, the lease and the token gone, and after five attempts half an
      hour of rest. */
  ghost predicate PutBack(was: Item, i: Item, now: nat, completed: set<Stage>) {
    && i.completed == completed && i.token == None && i.leaseUntil == 0
    && (if was.attempts >= MOST_ATTEMPTS then i.status == Degraded && i.attempts == 0 && i.nextAt == now + DEGRADED
        else
          && i.status == Pending && i.attempts == was.attempts && now < i.nextAt <= now + LONGEST_BACKOFF
          && i.nextAt == now + if was.attempts == 0 then FIRST_BACKOFF / 2
                               else Min(LONGEST_BACKOFF, FIRST_BACKOFF * Pow2(was.attempts - 1)))
  }

  lemma ReturnedIs(i: Item, now: nat, completed: set<Stage>)
    ensures PutBack(i, Returned(i, now, completed), now, completed)
  {
    assert forall n: nat :: FIRST_BACKOFF * Pow2(n) > 0;
  }

  // ---------------------------------------------------------------- the stored queue

  class CancelStore {
    var items: map<Tid, Item>

    method Schedule(tid: Tid, now: nat)
      modifies this
      ensures items == old(items)[tid := Queued(old(items), tid, now)]
      ensures tid in items && forall t :: t != tid ==> (t in items <==> t in old(items))
      ensures forall t :: t != tid && t in items ==> items[t] == old(items)[t]
      ensures tid in old(items) && old(items)[tid].status == Running ==> items[tid] == old(items)[tid]
      ensures !(tid in old(items) && old(items)[tid].status == Running) ==>
        && items[tid].status == Pending && items[tid].nextAt == now && items[tid].token == None
        && items[tid].leaseUntil == 0
        && items[tid].completed == (if tid in old(items) then old(items)[tid].completed else {})
        && items[tid].attempts == if tid in old(items) && old(items)[tid].status != Failed
                                  then old(items)[tid].attempts else 0
    {
      var i := if tid in items then items[tid] else Item(Pending, 0, 0, 0, None, {});
      if i.status != Running {
        if i.status == Failed { i := i.(attempts := 0); }
        i := i.(status := Pending, nextAt := now, leaseUntil := 0, token := None);
      }
      items := items[tid := i];
    }

    /** The item that has been available longest, the first of equals, and otherwise when the next one will be. */
    method NextDue(keys: seq<Tid>, now: nat) returns (due: Option<Tid>, earliestAt: Option<nat>)
      requires forall t :: t in keys <==> t in items
      ensures due.Some? ==> Chosen(items, now, due.value) && LongestDue(items, now, due.value)
      ensures due.None? ==> forall t :: t in items ==> !Available(items[t], now) && !Free(items[t], now)
      ensures earliestAt.Some? ==> earliestAt.value > now
      ensures forall t :: t in items && items[t].status != Failed && !Available(items[t], now) ==>
                earliestAt.Some? && earliestAt.value <= AvailableAt(items[t], now)
      ensures earliestAt.Some? ==>
                exists t :: t in items && items[t].status != Failed && AvailableAt(items[t], now) == earliestAt.value
      ensures forall t :: t in items && items[t].status != Failed && !Free(items[t], now) ==>
                earliestAt.Some? && (items[t].status == Running && items[t].leaseUntil > now ==>
                                       earliestAt.value <= items[t].leaseUntil)
                && (!(items[t].status == Running && items[t].leaseUntil > now) ==> earliestAt.value <= items[t].nextAt)
    {
      forall t | t in items
        ensures Available(items[t], now) <==> Free(items[t], now)
      {
        FreeIs(items[t], now);
      }
      hide Free, LongestDue;
      forall t
        ensures Chosen(items, now, t) <==> LongestDue(items, now, t)
      {
        ChosenIs(items, now, t);
      }
      due, earliestAt := None, None;
      var i := 0;
      while i < |keys|
        invariant 0 <= i <= |keys|
        invariant due.Some? ==> due.value in keys[..i] && Available(items[due.value], now)
        invariant forall t :: t in keys[..i] && Available(items[t], now) ==>
                    due.Some? && AvailableAt(items[due.value], now) <= AvailableAt(items[t], now)
        invariant earliestAt.Some? ==> earliestAt.value > now
        invariant earliestAt.Some? ==>
                    exists t :: t in items && items[t].status != Failed
                                && AvailableAt(items[t], now) == earliestAt.value
        invariant forall t :: t in keys[..i] && items[t].status != Failed && !Available(items[t], now) ==>
                    earliestAt.Some? && earliestAt.value <= AvailableAt(items[t], now)
      {
        var tid := keys[i];
        assert keys[..i + 1] == keys[..i] + [tid];
        var item := items[tid];
        i := i + 1;
        if item.status != Failed {
          var at := if item.status == Running && item.leaseUntil > now then item.leaseUntil else item.nextAt;
          if at > now {
            if earliestAt.None? || at < earliestAt.value { earliestAt := Some(at); }
          } else if due.None? || at < AvailableAt(items[due.value], now) {
            due := Some(tid);
          }
        }
      }
      assert keys[..i] == keys;
    }

    method Claim(keys: seq<Tid>, now: nat, token: nat) returns (claimed: Option<Tid>)
      requires forall t :: t in keys <==> t in items
      modifies this
      ensures claimed.Some? ==>
        && Chosen(old(items), now, claimed.value) && Granted(old(items)[claimed.value])
        && items == old(items)[claimed.value := Claimed(old(items)[claimed.value], now, token)]
      ensures claimed.None? ==>
        || (items == old(items) && forall t :: t in items ==> !Available(items[t], now))
        || exists t :: Chosen(old(items), now, t) && !Granted(old(items)[t])
                       && items == old(items)[t := Claimed(old(items)[t], now, token)]
      ensures claimed.Some? ==>
        && LongestDue(old(items), now, claimed.value) && old(items)[claimed.value].attempts < MOST_ATTEMPTS
        && var was := old(items)[claimed.value];
           items == old(items)[claimed.value := Item(Running, was.attempts + 1, was.nextAt, now + LEASE, Some(token),
                                                     was.completed)]
      ensures claimed.None? ==>
        || (items == old(items) && forall t :: t in items ==> !Free(items[t], now))
        || exists t :: LongestDue(old(items), now, t) && old(items)[t].attempts >= MOST_ATTEMPTS
                       && var was := old(items)[t];
                          items == old(items)[t := Item(Degraded, 0, now + DEGRADED, was.leaseUntil, was.token,
                                                        was.completed)]
    {
      var due, earliestAt := NextDue(keys, now);
      if due.None? { return None; }
      hide Chosen, LongestDue, Available, Free;
      var tid := due.value;
      var state := items[tid];
      if state.attempts >= MOST_ATTEMPTS {
        items := items[tid := state.(status := Degraded, nextAt := now + DEGRADED, attempts := 0)];
        return None;
      }
      items := items[tid := state.(status := Running, attempts := state.attempts + 1, token := Some(token),
                                   leaseUntil := now + LEASE)];
      return Some(tid);
    }

    method Finish(tid: Tid, now: nat, token: nat, success: bool, completed: set<Stage>)
      modifies this
      ensures items == FinishStep(old(items), now, tid, token, success, completed)
      ensures var owner := tid in old(items) && old(items)[tid].token == Some(token);
        && (forall t :: t != tid || !owner ==> (t in items <==> t in old(items)))
        && (forall t :: (t != tid || !owner) && t in items ==> items[t] == old(items)[t])
        && (owner && success ==> tid !in items)
        && (owner && !success ==> tid in items && PutBack(old(items)[tid], items[tid], now, completed))
    {
      if tid in items { ReturnedIs(items[tid], now, completed); }
      if tid !in items || items[tid].token != Some(token) { return; }
      if success {
        items := items - {tid};
        return;
      }
      var current := items[tid].(completed := completed, leaseUntil := 0, token := None);
      if current.attempts >= MOST_ATTEMPTS {
        current := current.(status := Degraded, attempts := 0, nextAt := now + DEGRADED);
      } else {
        var wait := if current.attempts > 0 then FIRST_BACKOFF * Pow2(current.attempts - 1) else FIRST_BACKOFF / 2;
        current := current.(status := Pending, nextAt := now + Min(LONGEST_BACKOFF, wait));
      }
      items := items[tid := current];
    }
  }

  // ---------------------------------------------------------------- the system

  /** A worker named by its token: its copy of the completed steps, the steps still ahead, and whether one failed. */
  datatype Worker = Worker(tid: Tid, completed: set<Stage>, ahead: seq<Stage>, failed: bool)

  /** History: `done` holds the steps that have succeeded for a trade since it was last put on the queue. */
  datatype World = World(now: nat, items: map<Tid, Item>, nextName: nat, workers: map<nat, Worker>,
                         done: map<Tid, set<Stage>>)

  datatype Step =
    | Tick(ms: nat)
    | Schedule(tid: Tid)
    | Claim(tid: Tid)
    | RunStage(token: nat, ok: bool)
    | Throw(token: nat)
    | Finish(token: nat)
    | Kill(token: nat)

  function Done(w: World, tid: Tid): set<Stage> {
    if tid in w.done then w.done[tid] else {}
  }

  ghost predicate Enabled(w: World, step: Step) {
    match step
    case Tick(ms) => true
    case Schedule(tid) => true
    case Claim(tid) => Chosen(w.items, w.now, tid)
    case RunStage(k, ok) => k in w.workers && w.workers[k].ahead != []
    case Throw(k) => k in w.workers
    case Finish(k) => k in w.workers && w.workers[k].ahead == []
    case Kill(k) => k in w.workers
  }

  ghost function Apply(w: World, step: Step): World
    requires Enabled(w, step)
  {
    match step
    case Tick(ms) => w.(now := w.now + ms)
    case Schedule(tid) =>
      w.(items := w.items[tid := Queued(w.items, tid, w.now)],
         done := if tid in w.items then w.done else w.done[tid := {}])
    case Claim(tid) =>
      w.(items := w.items[tid := Claimed(w.items[tid], w.now, w.nextName)], nextName := w.nextName + 1,
         workers := if !Granted(w.items[tid]) then w.workers
                    else w.workers[w.nextName :=
                      Worker(tid, w.items[tid].completed, ALL_STAGES, false)])
    case RunStage(k, ok) =>
      var x := w.workers[k];
      var y := x.(ahead := x.ahead[1..]);
      if x.ahead[0] in x.completed then w.(workers := w.workers[k := y])
      else if ok then
        w.(workers := w.workers[k := y.(completed := x.completed + {x.ahead[0]})],
           done := w.done[x.tid := Done(w, x.tid) + {x.ahead[0]}])
      else w.(workers := w.workers[k := y.(failed := true)])
    case Throw(k) => w.(workers := w.workers[k := w.workers[k].(ahead := [], failed := true)])
    case Finish(k) =>
      var x := w.workers[k];
      w.(items := FinishStep(w.items, w.now, x.tid, k, !x.failed, x.completed), workers := w.workers - {k})
    case Kill(k) => w.(workers := w.workers - {k})
  }

  // ---------------------------------------------------------------- what every step keeps

  ghost predicate Named(w: World) {
    && (forall t :: t in w.items && w.items[t].token.Some? ==> w.items[t].token.value < w.nextName)
    && (forall k :: k in w.workers ==> k < w.nextName)
  }

  predicate Owns(w: World, k: nat, tid: Tid) {
    tid in w.items && w.items[tid].token == Some(k)
  }

  /** A worker that has not failed has completed every step it has passed. */
  ghost predicate Passed(w: World) {
    forall k, s :: k in w.workers && !w.workers[k].failed && s !in w.workers[k].ahead ==> s in w.workers[k].completed
  }

  /** Recorded steps have succeeded since the trade was queued. */
  ghost predicate Honest(w: World) {
    forall t :: t in w.items ==> w.items[t].completed <= Done(w, t)
  }

  /** A token on an item names a worker of that trade. */
  ghost predicate Paired(w: World) {
    forall t :: t in w.items && w.items[t].token.Some? && w.items[t].token.value in w.workers ==>
      w.workers[w.items[t].token.value].tid == t
  }

  /** The owner's copy of the record only adds steps that have succeeded. */
  ghost predicate CopySafe(w: World, k: nat, x: Worker) {
    Owns(w, k, x.tid) ==> w.items[x.tid].completed <= x.completed <= Done(w, x.tid)
  }

  ghost predicate CopiesSafe(w: World) {
    forall k :: k in w.workers ==> CopySafe(w, k, w.workers[k])
  }

  ghost predicate Bounded(w: World) {
    forall t :: t in w.items && w.items[t].status != Failed ==>
      w.items[t].nextAt <= w.now + DEGRADED && w.items[t].leaseUntil <= w.now + LEASE
      && w.items[t].attempts <= MOST_ATTEMPTS
  }

  ghost predicate Inv(w: World) {
    Named(w) && Passed(w) && Honest(w) && Paired(w) && CopiesSafe(w) && Bounded(w)
  }

  lemma AllStages()
    ensures forall s :: s in ALL_STAGES
  {
    forall s
      ensures s in ALL_STAGES
    {
      match s
      case Supabase => assert ALL_STAGES[0] == s;
      case ExternalLedger => assert ALL_STAGES[1] == s;
      case Drive => assert ALL_STAGES[2] == s;
    }
  }

  lemma KeepsNamed(w: World, step: Step)
    requires Inv(w) && Enabled(w, step)
    ensures Named(Apply(w, step)) && Passed(Apply(w, step))
  {
    hide Honest, Bounded, Paired, CopiesSafe;
    AllStages();
    if step.RunStage? {
      var ahead := w.workers[step.token].ahead;
      assert ahead == [ahead[0]] + ahead[1..];
    }
  }

  lemma KeepsHonest(w: World, step: Step)
    requires Inv(w) && Enabled(w, step)
    ensures Honest(Apply(w, step))
  {
    hide Passed, Bounded, Named;
  }

  lemma KeepsPaired(w: World, step: Step)
    requires Inv(w) && Enabled(w, step)
    ensures Paired(Apply(w, step))
  {
    hide Passed, Bounded, Honest, CopiesSafe;
  }

  lemma KeepsCopies(w: World, step: Step, k: nat)
    requires Inv(w) && Enabled(w, step) && k in Apply(w, step).workers
    ensures CopySafe(Apply(w, step), k, Apply(w, step).workers[k])
  {
    hide Passed, Bounded;
  }

  lemma KeepsBounded(w: World, step: Step)
    requires Inv(w) && Enabled(w, step)
    ensures Bounded(Apply(w, step))
  {
    hide Passed, Honest, Named, Paired, CopiesSafe;
  }

  lemma StepKeeps(w: World, step: Step)
    requires Inv(w) && Enabled(w, step)
    ensures Inv(Apply(w, step))
  {
    hide Enabled, Apply, Named, Passed, Honest, Paired, CopySafe, Bounded;
    KeepsNamed(w, step);
    KeepsHonest(w, step);
    KeepsPaired(w, step);
    forall k | k in Apply(w, step).workers
      ensures CopySafe(Apply(w, step), k, Apply(w, step).workers[k])
    {
      KeepsCopies(w, step, k);
    }
    KeepsBounded(w, step);
  }

  // ---------------------------------------------------------------- whole runs

  /** Items of an earlier deployment may lie there as failed. */
  ghost predicate Initial(w: World) {
    && w.workers == map[]
    && forall t :: t in w.items ==> w.items[t].status == Failed && w.items[t].token.None? && w.items[t].completed == {}
  }

  ghost predicate Possible(w: World, steps: seq<Step>)
    decreases |steps|
  {
    steps == [] || (Enabled(w, steps[0]) && Possible(Apply(w, steps[0]), steps[1..]))
  }

  ghost function After(w: World, steps: seq<Step>): World
    requires Possible(w, steps)
    decreases |steps|
  {
    if steps == [] then w else After(Apply(w, steps[0]), steps[1..])
  }

  lemma {:induction false} RunKeeps(w: World, steps: seq<Step>)
    requires Inv(w) && Possible(w, steps)
    ensures Inv(After(w, steps))
    decreases |steps|
  {
    hide Inv, Enabled;
    if steps == [] {
    } else {
      StepKeeps(w, steps[0]);
      RunKeeps(Apply(w, steps[0]), steps[1..]);
    }
  }

  /** A trade leaves the queue only after each of the three steps has succeeded since it was queued. */
  lemma LeavesOnlyWhenCleanedUp(w: World, steps: seq<Step>, next: Step, tid: Tid)
    requires Initial(w) && Possible(w, steps) && Enabled(After(w, steps), next)
    requires tid in After(w, steps).items && tid !in Apply(After(w, steps), next).items
    ensures Done(After(w, steps), tid) == {Supabase, ExternalLedger, Drive}
  {
    hide Possible, After;
    RunKeeps(w, steps);
    var v := After(w, steps);
    assert next.Finish?;
    var completed := v.workers[next.token].completed;
    assert Supabase in completed && ExternalLedger in completed && Drive in completed;
    forall s | s in Done(v, tid)
      ensures s in {Supabase, ExternalLedger, Drive}
    {
      match s case Supabase => case ExternalLedger => case Drive =>
    }
  }

  /** A step once recorded as completed stays recorded while the trade is queued. */
  lemma RecordedStaysRecorded(w: World, steps: seq<Step>, next: Step, tid: Tid)
    requires Initial(w) && Possible(w, steps) && Enabled(After(w, steps), next)
    requires tid in After(w, steps).items && tid in Apply(After(w, steps), next).items
    ensures After(w, steps).items[tid].completed <= Apply(After(w, steps), next).items[tid].completed
  {
    hide Possible, After;
    RunKeeps(w, steps);
  }

  lemma {:induction false} StaysDisowned(w: World, steps: seq<Step>, k: nat)
    requires Inv(w) && Possible(w, steps) && k < w.nextName
    requires forall t :: !Owns(w, k, t)
    ensures forall t :: !Owns(After(w, steps), k, t)
    decreases |steps|
  {
    hide Passed, Honest, Paired, CopiesSafe, Bounded;
    if steps == [] {
    } else {
      StepKeeps(w, steps[0]);
      var v := Apply(w, steps[0]);
      forall t
        ensures !Owns(v, k, t)
      {
        assert !Owns(w, k, t);
      }
      StaysDisowned(v, steps[1..], k);
    }
  }

  lemma TakingOverDisowns(w: World, tid: Tid, k: nat, t: Tid)
    requires Inv(w) && Enabled(w, Claim(tid)) && Granted(w.items[tid])
    requires k in w.workers && w.workers[k].tid == tid
    ensures !Owns(Apply(w, Claim(tid)), k, t)
  {
    assert Owns(w, k, t) ==> t == tid;
  }

  /** A worker whose item was claimed by another can never change the queue again, whatever happens in between. */
  lemma TakenOverStaysHarmless(w: World, before: seq<Step>, tid: Tid, k: nat, between: seq<Step>)
    requires Initial(w) && Possible(w, before)
    requires var v := After(w, before);
      && k in v.workers && v.workers[k].tid == tid
      && Enabled(v, Claim(tid)) && Granted(v.items[tid]) && Possible(Apply(v, Claim(tid)), between)
    ensures var u := After(Apply(After(w, before), Claim(tid)), between);
      Enabled(u, Finish(k)) ==> Apply(u, Finish(k)).items == u.items
  {
    hide Possible, After;
    RunKeeps(w, before);
    var v := After(w, before);
    StepKeeps(v, Claim(tid));
    forall t
      ensures !Owns(Apply(v, Claim(tid)), k, t)
    {
      TakingOverDisowns(v, tid, k, t);
    }
    StaysDisowned(Apply(v, Claim(tid)), between, k);
    var u := After(Apply(v, Claim(tid)), between);
    assert k in u.workers ==> !Owns(u, k, u.workers[k].tid);
  }

  /** The item is put back or dropped by its own worker, or queued again while nobody works on it. */
  ghost predicate Moves(w: World, step: Step, tid: Tid) {
    || (step == Schedule(tid) && (tid in w.items ==> w.items[tid].status != Running))
    || (step.Finish? && step.token in w.workers && Owns(w, step.token, tid))
  }

  ghost predicate Unmoved(w: World, steps: seq<Step>, tid: Tid)
    requires Possible(w, steps)
    decreases |steps|
  {
    steps == [] || (!Moves(w, steps[0], tid) && Unmoved(Apply(w, steps[0]), steps[1..], tid))
  }

  /** The instant before which no claim can get the item. */
  function HeldUntil(i: Item): nat {
    if i.status == Running then i.leaseUntil else i.nextAt
  }

  lemma KeepsHeld(w: World, step: Step, tid: Tid)
    requires Inv(w) && Enabled(w, step) && tid in w.items && !Moves(w, step, tid) && w.now < HeldUntil(w.items[tid])
    ensures tid in Apply(w, step).items && Apply(w, step).items[tid] == w.items[tid]
    ensures !Enabled(w, Claim(tid)) && w.now <= Apply(w, step).now
  {
    hide Passed, Honest, CopiesSafe, Bounded, Named;
    ChosenIs(w.items, w.now, tid);
    hide Chosen;
  }

  lemma {:induction false} ClockGoesOn(w: World, steps: seq<Step>)
    requires Possible(w, steps)
    ensures w.now <= After(w, steps).now
    decreases |steps|
  {
    if steps != [] { ClockGoesOn(Apply(w, steps[0]), steps[1..]); }
  }

  lemma {:induction false} RunKeepsHeld(w: World, steps: seq<Step>, tid: Tid)
    requires Inv(w) && Possible(w, steps) && tid in w.items && Unmoved(w, steps, tid)
    requires After(w, steps).now < HeldUntil(w.items[tid])
    ensures Inv(After(w, steps))
    ensures tid in After(w, steps).items && After(w, steps).items[tid] == w.items[tid]
    decreases |steps|
  {
    ClockGoesOn(w, steps);
    hide Inv, Enabled, Apply, Moves, HeldUntil;
    if steps == [] {
    } else {
      KeepsHeld(w, steps[0], tid);
      StepKeeps(w, steps[0]);
      RunKeepsHeld(Apply(w, steps[0]), steps[1..], tid);
    }
  }

  /** From any reachable moment: an item under work is not claimed again before its lease of seven minutes runs out, and
      one that waits not before its time, unless its worker finishes or it is queued again. */
  lemma NotClaimedBeforeItsTime(w: World, before: seq<Step>, tid: Tid, later: seq<Step>)
    requires Initial(w) && Possible(w, before) && Possible(After(w, before), later)
    requires tid in After(w, before).items && Unmoved(After(w, before), later, tid)
    requires After(After(w, before), later).now < HeldUntil(After(w, before).items[tid])
    ensures var u := After(After(w, before), later);
      tid in u.items && u.items[tid] == After(w, before).items[tid] && !Enabled(u, Claim(tid))
  {
    hide Possible, After, HeldUntil, Unmoved;
    assert Inv(w);
    RunKeeps(w, before);
    hide Inv;
    RunKeepsHeld(After(w, before), later, tid);
    var u := After(After(w, before), later);
    KeepsHeld(u, Tick(0), tid);
  }

  /** So a claim that is granted keeps everybody else off for seven minutes. */
  lemma GrantedClaimHolds(w: World, tid: Tid)
    requires Enabled(w, Claim(tid)) && w.items[tid].attempts < MOST_ATTEMPTS
    ensures var v := Apply(w, Claim(tid));
      && tid in v.items && HeldUntil(v.items[tid]) == w.now + LEASE && v.items[tid].token == Some(w.nextName)
      && w.nextName in v.workers
      && v.workers[w.nextName] == Worker(tid, w.items[tid].completed, [Supabase, ExternalLedger, Drive], false)
  {
  }

  /** And one that comes after five attempts starts no work and keeps everybody off for half an hour. */
  lemma ExhaustedRests(w: World, tid: Tid)
    requires Enabled(w, Claim(tid)) && w.items[tid].attempts >= MOST_ATTEMPTS
    ensures var v := Apply(w, Claim(tid));
      && v.workers == w.workers && tid in v.items && v.items[tid].status == Degraded
      && HeldUntil(v.items[tid]) == w.now + DEGRADED && v.items[tid].completed == w.items[tid].completed
  {
  }

  /** No failure or crash keeps an item off for more than half an hour after the last step. */
  lemma AvailableWithinHalfAnHour(w: World, steps: seq<Step>, tid: Tid, later: nat)
    requires Initial(w) && Possible(w, steps)
    requires tid in After(w, steps).items && After(w, steps).items[tid].status != Failed
    requires later >= After(w, steps).now + DEGRADED
    ensures Available(After(w, steps).items[tid], later)
  {
    hide Possible, After;
    RunKeeps(w, steps);
  }

  // ---------------------------------------------------------------- a run from queueing to the end

  lemma {:induction false} Extend(w: World, steps: seq<Step>, step: Step)
    requires Possible(w, steps) && Enabled(After(w, steps), step)
    ensures Possible(w, steps + [step]) && After(w, steps + [step]) == Apply(After(w, steps), step)
    decreases |steps|
  {
    hide Enabled, Apply;
    if steps == [] {
      assert (steps + [step])[1..] == [];
    } else {
      assert (steps + [step])[1..] == steps[1..] + [step];
      Extend(Apply(w, steps[0]), steps[1..], step);
    }
  }

  ghost predicate Reaches(w: World, v: World) {
    exists steps :: Possible(w, steps) && After(w, steps) == v
  }

  lemma ReachStart(w: World)
    ensures Reaches(w, w)
  {
    assert Possible(w, []) && After(w, []) == w;
  }

  lemma Reach(w: World, v: World, step: Step)
    requires Reaches(w, v) && Enabled(v, step)
    ensures Reaches(w, Apply(v, step))
  {
    var steps :| Possible(w, steps) && After(w, steps) == v;
    Extend(w, steps, step);
  }

  /** One step fails on the first attempt; fifteen seconds later the second runs only that step and takes the trade off
      the queue. */
  lemma CleanedUpInTwoAttempts() returns (w: World, v: World)
    ensures Initial(w) && w == World(1, map[], 0, map[], map[]) && Reaches(w, v)
    ensures v == World(15001, map[], 2, map[], map[5 := {Supabase, ExternalLedger, Drive}])
  {
    hide Reaches;
    w := World(1, map[], 0, map[], map[]);
    var u := FirstAttempt(w);
    v := SecondAttempt(w, u);
  }

  lemma FirstAttempt(w: World) returns (v: World)
    requires w == World(1, map[], 0, map[], map[])
    ensures Reaches(w, v)
    ensures v == World(1, map[5 := Item(Pending, 1, 15001, 0, None, {Supabase, Drive})], 1, map[],
                       map[5 := {Supabase, Drive}])
  {
    hide Reaches;
    ReachStart(w);
    v := w;
    ChosenIs(map[5 := Item(Pending, 0, 1, 0, None, {})], 1, 5);
    hide Chosen;
    Reach(w, v, Schedule(5));
    v := Apply(v, Schedule(5));
    Reach(w, v, Claim(5));
    v := Apply(v, Claim(5));
    v := FirstStages(w, v);
    assert Pow2(0) == 1;
    Reach(w, v, Finish(0));
    v := Apply(v, Finish(0));
  }

  lemma FirstStages(w: World, u: World) returns (v: World)
    requires Reaches(w, u)
    requires u == World(1, map[5 := Item(Running, 1, 1, 1 + LEASE, Some(0), {})], 1,
                        map[0 := Worker(5, {}, ALL_STAGES, false)], map[5 := {}])
    ensures Reaches(w, v)
    ensures v == u.(workers := map[0 := Worker(5, {Supabase, Drive}, [], true)], done := map[5 := {Supabase, Drive}])
  {
    hide Reaches;
    StagesAhead();
    v := StageRun(w, u, 0, true, Worker(5, {Supabase}, [ExternalLedger, Drive], false), map[5 := {Supabase}]);
    v := StageRun(w, v, 0, false, Worker(5, {Supabase}, [Drive], true), map[5 := {Supabase}]);
    v := StageRun(w, v, 0, true, Worker(5, {Supabase, Drive}, [], true), map[5 := {Supabase, Drive}]);
  }

  /** A step of the only worker: skipped if it is on record, and otherwise recorded if it succeeds. */
  lemma StageRun(w: World, u: World, k: nat, ok: bool, next: Worker, done: map<Tid, set<Stage>>) returns (v: World)
    requires Reaches(w, u) && u.workers.Keys == {k} && u.workers[k].ahead != []
    requires u.workers[k].ahead == [u.workers[k].ahead[0]] + next.ahead
    requires var x := u.workers[k]; var stage := x.ahead[0];
      && next.tid == x.tid
      && (if stage in x.completed || !ok then next.completed == x.completed && done == u.done
          else
            && next.completed == x.completed + {stage} && done.Keys == u.done.Keys + {x.tid}
            && done[x.tid] == Done(u, x.tid) + {stage}
            && forall t :: t in u.done && t != x.tid ==> done[t] == u.done[t])
      && next.failed == (x.failed || (stage !in x.completed && !ok))
    ensures Reaches(w, v) && v == u.(workers := map[k := next], done := done)
  {
    hide Reaches;
    Reach(w, u, RunStage(k, ok));
    v := Apply(u, RunStage(k, ok));
    assert u.workers[k].ahead[1..] == next.ahead;
    assert v.workers == map[k := next];
    assert v.done == done;
  }

  lemma StagesAhead()
    ensures ALL_STAGES == [Supabase] + [ExternalLedger, Drive] && [ExternalLedger, Drive] == [ExternalLedger] + [Drive]
    ensures [Drive] == [Drive] + []
  {
  }

  lemma SecondAttempt(w: World, u: World) returns (v: World)
    requires Reaches(w, u)
    requires u == World(1, map[5 := Item(Pending, 1, 15001, 0, None, {Supabase, Drive})], 1, map[],
                        map[5 := {Supabase, Drive}])
    ensures Reaches(w, v) && v == World(15001, map[], 2, map[], map[5 := {Supabase, ExternalLedger, Drive}])
  {
    hide Reaches;
    v := u;
    ChosenIs(u.items, 15001, 5);
    hide Chosen;
    Reach(w, v, Tick(15000));
    v := Apply(v, Tick(15000));
    Reach(w, v, Claim(5));
    v := Apply(v, Claim(5));
    v := SecondStages(w, v);
    Reach(w, v, Finish(1));
    v := Apply(v, Finish(1));
  }

  lemma SecondStages(w: World, u: World) returns (v: World)
    requires Reaches(w, u)
    requires u == World(15001, map[5 := Item(Running, 2, 15001, 15001 + LEASE, Some(1), {Supabase, Drive})], 2,
                        map[1 := Worker(5, {Supabase, Drive}, ALL_STAGES, false)], map[5 := {Supabase, Drive}])
    ensures Reaches(w, v)
    ensures v == u.(workers := map[1 := Worker(5, {Supabase, ExternalLedger, Drive}, [], false)],
                    done := map[5 := {Supabase, ExternalLedger, Drive}])
  {
    hide Reaches;
    StagesAhead();
    v := StageRun(w, u, 1, true, Worker(5, {Supabase, Drive}, [ExternalLedger, Drive], false), u.done);
    v := StageRun(w, v, 1, true, Worker(5, {Supabase, ExternalLedger, Drive}, [Drive], false),
                  map[5 := {Supabase, ExternalLedger, Drive}]);
    v := StageRun(w, v, 1, true, Worker(5, {Supabase, ExternalLedger, Drive}, [], false), v.done);
  }

  /** A worker that is killed leaves its item leased, one that throws puts it back; queueing a trade anew starts with
      nothing done. */
  lemma InterruptedWorkers() returns (w: World, v: World)
    ensures Initial(w) && w == World(1, map[], 0, map[], map[5 := {Supabase}]) && Reaches(w, v)
    ensures v == World(1 + LEASE, map[5 := Item(Pending, 2, 1 + LEASE + 30000, 0, None, {})], 2, map[], map[5 := {}])
  {
    hide Reaches;
    w := World(1, map[], 0, map[], map[5 := {Supabase}]);
    ReachStart(w);
    v := w;
    ChosenIs(map[5 := Item(Pending, 0, 1, 0, None, {})], 1, 5);
    hide Chosen;
    Reach(w, v, Schedule(5));
    v := Apply(v, Schedule(5));
    Reach(w, v, Claim(5));
    v := Apply(v, Claim(5));
    Reach(w, v, Kill(0));
    v := Apply(v, Kill(0));
    v := TakenOverAndThrown(w, v);
  }

  lemma TakenOverAndThrown(w: World, u: World) returns (v: World)
    requires Reaches(w, u)
    requires u == World(1, map[5 := Item(Running, 1, 1, 1 + LEASE, Some(0), {})], 1, map[], map[5 := {}])
    ensures Reaches(w, v)
    ensures v == World(1 + LEASE, map[5 := Item(Pending, 2, 1 + LEASE + 30000, 0, None, {})], 2, map[], map[5 := {}])
  {
    hide Reaches;
    v := u;
    ChosenIs(u.items, 1 + LEASE, 5);
    hide Chosen;
    Reach(w, v, Tick(LEASE));
    v := Apply(v, Tick(LEASE));
    Reach(w, v, Claim(5));
    v := Apply(v, Claim(5));
    Reach(w, v, Throw(1));
    v := Apply(v, Throw(1));
    assert v.workers == map[1 := Worker(5, {}, [], true)];
    assert Pow2(1) == 2;
    Reach(w, v, Finish(1));
    v := Apply(v, Finish(1));
  }
}
