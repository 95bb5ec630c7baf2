/** Operation receipts (sheetAPI.js:247-390, 442-458): every keyed write request leaves a receipt before it executes,
    and the receipt is what a repeat of the id is answered from. A request digest is an opaque value. */
module Receipts {

  import opened Basics
  import JsText

  const RETENTION := 2592000000
  const PRUNE_EVERY := 86400000
  const SAFE_AGE := 86400000
  const CLOCK_SKEW := 300000

  type Id = string

  datatype Request = Request(capability: nat, action: nat, digest: nat)

  datatype Status = InProgress | Applied | Indeterminate

  datatype Receipt = Receipt(request: Request, status: Status, startedAt: nat, updatedAt: Option<nat>)

  datatype Answer = Execute | Replay | Reconcile(status: Status) | Mismatch

  // ---------------------------------------------------------------- ids

  predicate IdChar(c: char) {
    '0' <= c <= '9' || 'a' <= c <= 'f' || 'A' <= c <= 'F' || c == '-'
  }

  predicate ValidId(id: Id) {
    16 <= |id| <= 80 && forall i :: 0 <= i < |id| ==> IdChar(id[i])
  }

  /** The leading digits of a text. */
  function Digits(s: string): (d: string)
    ensures d <= s && JsText.AllDigits(d) && (|d| < |s| ==> !JsText.IsDigit(s[|d|]))
  {
    if s == [] || !JsText.IsDigit(s[0]) then [] else [s[0]] + Digits(s[1..])
  }

  /** `villageOperationIssuedAtMs_`: 10 to 13 digits and a hyphen lead the id; ten digits are seconds. */
  function IssuedAt(id: Id): nat {
    var d := Digits(id);
    if !(10 <= |d| <= 13) || |d| == |id| || id[|d|] != '-' then 0
    else if |d| == 10 then JsText.ValueOf(d) * 1000
    else JsText.ValueOf(d)
  }

  lemma {:induction false} DigitsOf(d: string, rest: string)
    requires JsText.AllDigits(d) && rest != [] && !JsText.IsDigit(rest[0])
    ensures Digits(d + rest) == d
  {
    if d == [] {
      assert d + rest == rest;
    } else {
      assert (d + rest)[1..] == d[1..] + rest;
      DigitsOf(d[1..], rest);
    }
  }

  /** An id made of a millisecond time, a hyphen and anything carries that time; one made of seconds too. */
  lemma IssuedAtReadsTheTime(t: nat, rest: string)
    ensures 10 < |JsText.Decimal(t)| <= 13 ==> IssuedAt(JsText.Decimal(t) + "-" + rest) == t
    ensures |JsText.Decimal(t)| == 10 ==> IssuedAt(JsText.Decimal(t) + "-" + rest) == t * 1000
  {
    var d := JsText.Decimal(t);
    assert d + "-" + rest == d + ("-" + rest);
    DigitsOf(d, "-" + rest);
    JsText.DecimalValue(t);
  }

  /** An id that does not begin with 10 to 13 digits and a hyphen carries no time. */
  lemma OtherIdsCarryNoTime(id: Id, n: nat)
    requires n <= |id| && JsText.AllDigits(id[..n]) && (n < |id| ==> !JsText.IsDigit(id[n]))
    ensures !(10 <= n <= 13 && n < |id| && id[n] == '-') ==> IssuedAt(id) == 0
  {
    if n < |id| {
      assert id == id[..n] + id[n..];
      DigitsOf(id[..n], id[n..]);
    } else {
      AllOfDigits(id);
      assert id[..n] == id;
    }
  }

  lemma {:induction false} AllOfDigits(s: string)
    requires JsText.AllDigits(s)
    ensures Digits(s) == s
  {
    if s != [] { AllOfDigits(s[1..]); }
  }

  // ---------------------------------------------------------------- the stored receipts

  function Stamp(r: Receipt): nat {
    if r.updatedAt.Some? then r.updatedAt.value else r.startedAt
  }

  predicate Expired(r: Receipt, now: nat) {
    now > Stamp(r) + RETENTION
  }

  datatype Store = Store(receipts: map<Id, Receipt>, prunedAt: nat)

  function Pruned(s: Store, now: nat): Store {
    if now < s.prunedAt + PRUNE_EVERY then s
    else Store(map id | id in s.receipts && !Expired(s.receipts[id], now) :: s.receipts[id], now)
  }

  /** The receipt claim under the lock: the store it leaves and what becomes of the request. */
  function ClaimStep(s: Store, now: nat, startedAt: nat, id: Id, request: Request): (Store, Answer) {
    if id in s.receipts then
      var r := s.receipts[id];
      (s, if r.request != request then Mismatch else if r.status == Applied then Replay else Reconcile(r.status))
    else
      var p := Pruned(s, now);
      (p.(receipts := p.receipts[id := Receipt(request, InProgress, startedAt, None)]), Execute)
  }

  function FinishStep(s: Store, now: nat, startedAt: nat, id: Id, request: Request, applied: bool): Store {
    s.(receipts := s.receipts[id := Receipt(request, if applied then Applied else Indeterminate, startedAt, Some(now))])
  }

  /** The `operationReceipt` answer when no receipt is found: may the client send the request again? */
  function RetrySafe(s: Store, now: nat, id: Id): bool {
    && !(ValidId(id) && id in s.receipts)
    && IssuedAt(id) != 0
    && now + CLOCK_SKEW >= IssuedAt(id) && now <= IssuedAt(id) + SAFE_AGE
  }

  class ReceiptStore {
    var receipts: map<Id, Receipt>
    var prunedAt: nat

    ghost function View(): Store
      reads this
    {
      Store(receipts, prunedAt)
    }

    /** `pruneVillageOperationReceipts_`, at most once a day. */
    method Prune(now: nat, keys: seq<Id>)
      requires forall k :: k in keys <==> k in receipts
      modifies this
      ensures View() == Pruned(old(View()), now)
      ensures now < old(prunedAt) + PRUNE_EVERY ==> receipts == old(receipts) && prunedAt == old(prunedAt)
      ensures now >= old(prunedAt) + PRUNE_EVERY ==> prunedAt == now && forall id :: id in receipts <==>
                id in old(receipts) && match old(receipts)[id].updatedAt
                                       case Some(updated) => now <= updated + RETENTION
                                       case None => now <= old(receipts)[id].startedAt + RETENTION
      ensures forall id :: id in receipts ==> receipts[id] == old(receipts)[id]
    {
      if now < prunedAt + PRUNE_EVERY { return; }
      var i := 0;
      ghost var was := receipts;
      while i < |keys|
        invariant 0 <= i <= |keys|
        invariant forall id :: id in receipts <==> id in was && !(id in keys[..i] && Expired(was[id], now))
        invariant forall id :: id in receipts ==> receipts[id] == was[id]
      {
        var id := keys[i];
        assert keys[..i + 1] == keys[..i] + [id];
        if id in receipts && Expired(receipts[id], now) { receipts := receipts - {id}; }
        i := i + 1;
      }
      assert keys[..i] == keys;
      prunedAt := now;
    }

    method Claim(id: Id, request: Request, startedAt: nat, now: nat, keys: seq<Id>) returns (answer: Answer)
      requires forall k :: k in keys <==> k in receipts
      modifies this
      ensures (View(), answer) == ClaimStep(old(View()), now, startedAt, id, request)
      ensures id in old(receipts) ==>
        && receipts == old(receipts) && prunedAt == old(prunedAt)
        && answer == if old(receipts)[id].request != request then Mismatch
                     else if old(receipts)[id].status == Applied then Replay
                     else Reconcile(old(receipts)[id].status)
      ensures id !in old(receipts) ==>
        && answer == Execute && id in receipts && receipts[id] == Receipt(request, InProgress, startedAt, None)
        && forall k :: k != id && k in receipts ==> k in old(receipts) && receipts[k] == old(receipts)[k]
    {
      if id in receipts {
        var existing := receipts[id];
        if existing.request != request { return Mismatch; }
        if existing.status == Applied { return Replay; }
        return Reconcile(existing.status);
      }
      Prune(now, keys);
      receipts := receipts[id := Receipt(request, InProgress, startedAt, None)];
      return Execute;
    }

    method Finish(id: Id, request: Request, startedAt: nat, now: nat, applied: bool)
      modifies this`receipts
      ensures View() == FinishStep(old(View()), now, startedAt, id, request, applied)
      ensures id in receipts && (applied <==> receipts[id].status == Applied) && receipts[id].status != InProgress
      ensures receipts[id].request == request && receipts[id].startedAt == startedAt
      ensures receipts[id].updatedAt == Some(now) && receipts - {id} == old(receipts) - {id}
    {
      receipts := receipts[id := Receipt(request, if applied then Applied else Indeterminate, startedAt, Some(now))];
    }
  }

  // ---------------------------------------------------------------- the system

  /** One execution: the id it ran for, the start its receipt records and when it was let through. */
  datatype Execution = Execution(id: Id, request: Request, startedAt: nat, claimedAt: nat)

  /** History: `log` lists every execution that was ever started, in order. */
  datatype World = World(now: nat, store: Store, running: seq<Execution>, log: seq<Execution>)

  datatype Step =
    | Tick(ms: nat)
    | Submit(id: Id, request: Request, startedAt: nat)
    | Finish(execution: Execution, applied: bool)

  /** A crash is a run that never finishes; clients may send any id again at any time. */
  predicate Enabled(w: World, step: Step) {
    match step
    case Tick(ms) => true
    case Submit(id, request, startedAt) => ValidId(id) && startedAt <= w.now
    case Finish(x, applied) => x in w.running
  }

  function Apply(w: World, step: Step): World
    requires Enabled(w, step)
  {
    match step
    case Tick(ms) => w.(now := w.now + ms)
    case Submit(id, request, startedAt) =>
      var (s, answer) := ClaimStep(w.store, w.now, startedAt, id, request);
      var x := Execution(id, request, startedAt, w.now);
      if answer == Execute then w.(store := s, running := w.running + [x], log := w.log + [x]) else w.(store := s)
    case Finish(x, applied) => w.(store := FinishStep(w.store, w.now, x.startedAt, x.id, x.request, applied))
  }

  // ---------------------------------------------------------------- what every step keeps

  /** Every execution is still covered by a receipt at least as young, or out of the retention. */
  ghost predicate Covered(w: World) {
    && (forall i :: 0 <= i < |w.log| ==> w.log[i].startedAt <= w.log[i].claimedAt <= w.now)
    && (forall i :: 0 <= i < |w.log| ==>
          || (w.log[i].id in w.store.receipts && Stamp(w.store.receipts[w.log[i].id]) >= w.log[i].startedAt)
          || w.now > w.log[i].startedAt + RETENTION)
    && (forall x :: x in w.running ==> x.startedAt <= w.now)
  }

  ghost predicate Apart(log: seq<Execution>) {
    forall i, j :: 0 <= i < j < |log| && log[i].id == log[j].id ==> log[j].claimedAt > log[i].startedAt + RETENTION
  }

  ghost predicate ValidIds(log: seq<Execution>) {
    forall i :: 0 <= i < |log| ==> ValidId(log[i].id)
  }

  ghost predicate Inv(w: World) {
    Covered(w) && Apart(w.log) && ValidIds(w.log)
  }

  lemma StepKeeps(w: World, step: Step)
    requires Inv(w) && Enabled(w, step)
    ensures Inv(Apply(w, step))
  {
    hide ValidId;
    if step.Finish? {
      var v := Apply(w, step);
      assert forall id :: id in w.store.receipts ==> id in v.store.receipts;
    }
  }

  // ---------------------------------------------------------------- whole runs

  ghost predicate Initial(w: World) {
    w.running == [] && w.log == []
  }

  ghost predicate Possible(w: World, steps: seq<Step>)
    decreases |steps|
  {
    steps == [] || (Enabled(w, steps[0]) && Possible(Apply(w, steps[0]), steps[1..]))
  }

  ghost function After(w: World, steps: seq<Step>): World
    requires Possible(w, steps)
    decreases |steps|
  {
    if steps == [] then w else After(Apply(w, steps[0]), steps[1..])
  }

  lemma {:induction false} RunKeeps(w: World, steps: seq<Step>)
    requires Inv(w) && Possible(w, steps)
    ensures Inv(After(w, steps))
    decreases |steps|
  {
    hide Inv, Enabled;
    if steps == [] {
    } else {
      StepKeeps(w, steps[0]);
      RunKeeps(Apply(w, steps[0]), steps[1..]);
    }
  }

  /** At most one execution of an id in any 30 days, however requests overlap, repeat or crash. */
  lemma ExecutedAtMostOnce(w: World, steps: seq<Step>, i: nat, j: nat)
    requires Initial(w) && Possible(w, steps) && i < j < |After(w, steps).log|
    requires After(w, steps).log[i].id == After(w, steps).log[j].id
    ensures After(w, steps).log[j].claimedAt > After(w, steps).log[i].startedAt + RETENTION
  {
    hide Possible, After;
    RunKeeps(w, steps);
  }

  /** Since a receipt was stamped at s, with n executions logged, none of its id has started within the retention. */
  ghost predicate Shielded(w: World, id: Id, s: nat, n: nat) {
    && n <= |w.log|
    && ((id in w.store.receipts && Stamp(w.store.receipts[id]) >= s) || w.now > s + RETENTION)
    && forall i :: n <= i < |w.log| && w.log[i].id == id ==> w.log[i].claimedAt > s + RETENTION
  }

  lemma StepShields(w: World, step: Step, id: Id, s: nat, n: nat)
    requires Enabled(w, step) && Shielded(w, id, s, n) && s <= w.now
    ensures Shielded(Apply(w, step), id, s, n) && s <= Apply(w, step).now
  {
    hide ValidId;
  }

  lemma {:induction false} RunShields(w: World, steps: seq<Step>, id: Id, s: nat, n: nat)
    requires Possible(w, steps) && Shielded(w, id, s, n) && s <= w.now
    ensures Shielded(After(w, steps), id, s, n)
    decreases |steps|
  {
    hide Enabled, Shielded;
    if steps == [] {
    } else {
      StepShields(w, steps[0], id, s, n);
      RunShields(Apply(w, steps[0]), steps[1..], id, s, n);
    }
  }

  /** Once a receipt is there, no request with its id, the same or a different one, executes within 30 days of its
      stamp, whatever happens in between. */
  lemma NoExecutionPastAReceipt(w: World, later: seq<Step>, id: Id, i: nat)
    requires id in w.store.receipts && Stamp(w.store.receipts[id]) <= w.now && Possible(w, later)
    requires |w.log| <= i < |After(w, later).log| && After(w, later).log[i].id == id
    ensures After(w, later).log[i].claimedAt > Stamp(w.store.receipts[id]) + RETENTION
  {
    hide Possible, After;
    RunShields(w, later, id, Stamp(w.store.receipts[id]), |w.log|);
  }

  /** What every later submission of the id is answered as long as its receipt stands: a differing request is refused, a
      repeat is left to reconciliation until the outcome is known to be applied, and replayed from then on. */
  lemma AnswersFollowTheReceipt(w: World, id: Id, request: Request, startedAt: nat)
    requires Enabled(w, Submit(id, request, startedAt)) && id in w.store.receipts
    ensures var answer := ClaimStep(w.store, w.now, startedAt, id, request).1; var r := w.store.receipts[id];
      && (answer == Mismatch <==> r.request != request)
      && (answer == Replay <==> r.request == request && r.status == Applied)
      && (answer.Reconcile? ==> answer.status == r.status)
      && answer != Execute && Apply(w, Submit(id, request, startedAt)) == w
  {
  }

  /** A request that differs from the one on the receipt is refused and changes nothing. */
  lemma MismatchNeverExecutes(w: World, id: Id, request: Request, startedAt: nat)
    requires Enabled(w, Submit(id, request, startedAt)) && id in w.store.receipts
    requires w.store.receipts[id].request != request
    ensures Apply(w, Submit(id, request, startedAt)) == w
  {
  }

  /** A repeat of a request is answered from its receipt: left to reconciliation while it runs or after it failed,
      replayed once it was applied. */
  lemma RepeatsAreAnswered(s: Store, now: nat, startedAt: nat, id: Id, request: Request, later: nat, again: nat)
    requires id !in s.receipts
    ensures var (t, answer) := ClaimStep(s, now, startedAt, id, request);
      && answer == Execute
      && ClaimStep(t, later, again, id, request) == (t, Reconcile(InProgress))
      && (forall ok :: var u := FinishStep(t, now, startedAt, id, request, ok);
            ClaimStep(u, later, again, id, request) == (u, if ok then Replay else Reconcile(Indeterminate)))
  {
  }

  /** Clients do not use an id more than 29 days before the time it carries. */
  ghost predicate NotTooEarly(log: seq<Execution>) {
    forall i :: 0 <= i < |log| ==> IssuedAt(log[i].id) <= log[i].startedAt + RETENTION - SAFE_AGE
  }

  /** The answer is given for every id without a receipt whose time lies within a day, five minutes of skew allowed. */
  lemma RetrySafeIff(s: Store, now: nat, id: Id)
    ensures RetrySafe(s, now, id) <==>
      && (ValidId(id) ==> id !in s.receipts) && IssuedAt(id) > 0
      && IssuedAt(id) - CLOCK_SKEW <= now <= IssuedAt(id) + SAFE_AGE
  {
  }

  /** An answer that a retry is safe means the id has never been executed. */
  lemma RetrySafeMeansNeverStarted(w: World, steps: seq<Step>, id: Id, i: nat)
    requires Initial(w) && Possible(w, steps) && NotTooEarly(After(w, steps).log)
    requires RetrySafe(After(w, steps).store, After(w, steps).now, id) && i < |After(w, steps).log|
    ensures After(w, steps).log[i].id != id
  {
    hide Possible, After, IssuedAt, ValidId;
    RunKeeps(w, steps);
  }

  // ---------------------------------------------------------------- an id after its retention

  lemma {:induction false} Extend(w: World, steps: seq<Step>, step: Step)
    requires Possible(w, steps) && Enabled(After(w, steps), step)
    ensures Possible(w, steps + [step]) && After(w, steps + [step]) == Apply(After(w, steps), step)
    decreases |steps|
  {
    hide Enabled, Apply;
    if steps == [] {
      assert (steps + [step])[1..] == [];
    } else {
      assert (steps + [step])[1..] == steps[1..] + [step];
      Extend(Apply(w, steps[0]), steps[1..], step);
    }
  }

  ghost predicate Reaches(w: World, v: World) {
    exists steps :: Possible(w, steps) && After(w, steps) == v
  }

  lemma ReachStart(w: World)
    ensures Reaches(w, w)
  {
    assert Possible(w, []) && After(w, []) == w;
  }

  lemma Reach(w: World, v: World, step: Step)
    requires Reaches(w, v) && Enabled(v, step)
    ensures Reaches(w, Apply(v, step))
  {
    var steps :| Possible(w, steps) && After(w, steps) == v;
    Extend(w, steps, step);
  }

  /** The retention is no longer than it says: an id executes, is answered without a second execution while its receipt
      stands, and once that has been pruned by a later request executes again. */
  lemma ExecutedAgainAfterRetention(a: Id, b: Id, r: Request) returns (w: World, v: World)
    requires ValidId(a) && ValidId(b) && a != b
    ensures w == World(1, Store(map[], 0), [], []) && Initial(w) && Reaches(w, v)
    ensures var first, last := Execution(a, r, 1, 1), RETENTION + 2;
      var other, again := Execution(b, r, last, last), Execution(a, r, last, last);
      && v == World(last, Store(map[b := Receipt(r, InProgress, last, None), a := Receipt(r, InProgress, last, None)],
                                last), [first, other, again], [first, other, again])
  {
    hide Reaches, ValidId;
    w := World(1, Store(map[], 0), [], []);
    ReachStart(w);
    v := w;
    Reach(w, v, Submit(a, r, 1));
    v := Apply(v, Submit(a, r, 1));
    Reach(w, v, Submit(a, r, 1));
    v := Apply(v, Submit(a, r, 1));
    assert v == World(1, Store(map[a := Receipt(r, InProgress, 1, None)], 0), [Execution(a, r, 1, 1)],
                      [Execution(a, r, 1, 1)]);
    v := OneFinished(w, v, a, r);
    v := TwoMore(w, v, a, b, r);
  }

  lemma OneFinished(w: World, u: World, a: Id, r: Request) returns (v: World)
    requires Reaches(w, u) && ValidId(a)
    requires u == World(1, Store(map[a := Receipt(r, InProgress, 1, None)], 0), [Execution(a, r, 1, 1)],
                        [Execution(a, r, 1, 1)])
    ensures Reaches(w, v)
    ensures v == World(RETENTION + 2, Store(map[a := Receipt(r, Applied, 1, Some(1))], 0), u.running, u.log)
  {
    hide Reaches, ValidId;
    v := u;
    assert Execution(a, r, 1, 1) in u.running;
    Reach(w, v, Finish(Execution(a, r, 1, 1), true));
    v := Apply(v, Finish(Execution(a, r, 1, 1), true));
    Reach(w, v, Submit(a, r, 1));
    v := Apply(v, Submit(a, r, 1));
    Reach(w, v, Tick(RETENTION + 1));
    v := Apply(v, Tick(RETENTION + 1));
  }

  lemma TwoMore(w: World, u: World, a: Id, b: Id, r: Request) returns (v: World)
    requires Reaches(w, u) && ValidId(a) && ValidId(b) && a != b
    requires u == World(RETENTION + 2, Store(map[a := Receipt(r, Applied, 1, Some(1))], 0), [Execution(a, r, 1, 1)],
                        [Execution(a, r, 1, 1)])
    ensures Reaches(w, v)
    ensures var last := RETENTION + 2; var more := [Execution(b, r, last, last), Execution(a, r, last, last)];
      v == World(last, Store(map[b := Receipt(r, InProgress, last, None), a := Receipt(r, InProgress, last, None)],
                             last), u.running + more, u.log + more)
  {
    hide Reaches, ValidId;
    v := u;
    Reach(w, v, Submit(b, r, RETENTION + 2));
    v := Apply(v, Submit(b, r, RETENTION + 2));
    assert v.store.receipts == map[b := Receipt(r, InProgress, RETENTION + 2, None)];
    Reach(w, v, Submit(a, r, RETENTION + 2));
    v := Apply(v, Submit(a, r, RETENTION + 2));
  }
}
