/** The Supabase dirty queue (supabaseSync.js): marks, the lock-contended side channel, the flush and its
    clean-up. Trades are opaque ids and revisions are fresh names; the sheet is a count of edits, and a read
    sees every edit counted so far. */
module SupaQueue {

  import opened Basics

  type Tid = nat

  const LEASE := 600000
  const MERGE_BATCH := 100
  const FIRST_RETRY := 60000
  const LONGEST_RETRY := 1800000
  const RETRY_HORIZON := 21600000
  const MOST_FAILURES := 16

  /** The value of one dirty property: a bare revision, or the retry record that keeps the revision. */
  datatype Mark = New(revision: nat) | Retry(revision: nat, failures: nat, nextAt: nat)

  datatype Lease = Lease(id: nat, until: nat)

  // ---------------------------------------------------------------- values of one key

  predicate Due(mark: Mark, now: nat) {
    !(mark.Retry? && now < mark.nextAt <= now + RETRY_HORIZON)
  }

  function DueMarks(dirty: map<Tid, Mark>, now: nat): map<Tid, Mark> {
    map t | t in dirty && Due(dirty[t], now) :: dirty[t]
  }

  function Failures(mark: Mark): nat {
    if mark.Retry? then mark.failures else 0
  }

  function Backoff(mark: Mark, now: nat): Mark {
    var failures := Min(MOST_FAILURES, Failures(mark) + 1);
    var exponent := if failures > 0 then failures - 1 else 0;
    Retry(mark.revision, failures, now + Min(LONGEST_RETRY, FIRST_RETRY * Pow2(exponent)))
  }

  /** Two writes a pending mark: the trade becomes dirty under a new revision, then the mark is deleted. */
  function Copied(dirty: map<Tid, Mark>, tid: Tid, revision: nat): map<Tid, Mark> {
    dirty[tid := New(revision)]
  }

  function Merged(dirty: map<Tid, Mark>, keys: seq<Tid>, firstRevision: nat): map<Tid, Mark>
    decreases |keys|
  {
    if keys == [] then dirty else Merged(Copied(dirty, keys[0], firstRevision), keys[1..], firstRevision + 1)
  }

  /** Exactly the trades of the keys become dirty under new revisions. */
  lemma {:induction false} MergedIs(dirty: map<Tid, Mark>, keys: seq<Tid>, firstRevision: nat)
    ensures var m := Merged(dirty, keys, firstRevision);
      && m.Keys == dirty.Keys + (set t | t in keys)
      && (forall t :: t in m && t !in keys ==> m[t] == dirty[t])
      && (forall t :: t in keys ==> m[t].New? && firstRevision <= m[t].revision < firstRevision + |keys|)
    decreases |keys|
  {
    if keys != [] {
      MergedIs(Copied(dirty, keys[0], firstRevision), keys[1..], firstRevision + 1);
      assert keys == [keys[0]] + keys[1..];
    }
  }

  lemma {:induction false} MergedLast(dirty: map<Tid, Mark>, keys: seq<Tid>, tid: Tid, firstRevision: nat)
    ensures Merged(dirty, keys + [tid], firstRevision)
            == Copied(Merged(dirty, keys, firstRevision), tid, firstRevision + |keys|)
    decreases |keys|
  {
    if keys == [] {
      assert (keys + [tid])[1..] == [];
    } else {
      assert (keys + [tid])[1..] == keys[1..] + [tid];
      MergedLast(Copied(dirty, keys[0], firstRevision), keys[1..], tid, firstRevision + 1);
    }
  }

  /** The clean-up of one trade: only a value unchanged since the snapshot is cleared or put back. */
  function Settle(dirty: map<Tid, Mark>, tid: Tid, seen: Mark, pushed: bool, deferred: bool, now: nat): map<Tid, Mark> {
    if deferred || tid !in dirty || dirty[tid] != seen then dirty
    else if pushed then dirty - {tid}
    else dirty[tid := Backoff(seen, now)]
  }

  function SettleAll(dirty: map<Tid, Mark>, tids: seq<Tid>, snapshot: map<Tid, Mark>, pushed: set<Tid>,
                     deferred: set<Tid>, now: nat): map<Tid, Mark>
    requires forall t :: t in tids ==> t in snapshot
  {
    if tids == [] then dirty
    else
      var last := tids[|tids| - 1];
      Settle(SettleAll(dirty, tids[..|tids| - 1], snapshot, pushed, deferred, now), last, snapshot[last],
             last in pushed, last in deferred, now)
  }

  /** The mark of a trade that failed once more: the same revision, a longer and longer wait of at most half an hour. */
  ghost predicate PutOff(seen: Mark, mark: Mark, now: nat) {
    var before := match seen case New(_) => 0 case Retry(_, n, _) => n;
    var failures := if before < MOST_FAILURES then before + 1 else MOST_FAILURES;
    && mark.Retry? && mark.revision == seen.revision && mark.failures == failures
    && now < mark.nextAt <= now + LONGEST_RETRY
    && mark.nextAt == now + Min(LONGEST_RETRY, FIRST_RETRY * Pow2(failures - 1))
  }

  /** What a clean-up leaves under one key. */
  ghost predicate Settled(was: map<Tid, Mark>, now: map<Tid, Mark>, tid: Tid, seen: Mark, pushed: bool, at: nat) {
    if tid in was && was[tid] == seen
    then if pushed then tid !in now else tid in now && PutOff(seen, now[tid], at)
    else SameMark(was, now, tid)
  }

  ghost predicate SameMark(was: map<Tid, Mark>, now: map<Tid, Mark>, tid: Tid) {
    (tid in now <==> tid in was) && (tid in now ==> now[tid] == was[tid])
  }

  lemma BackoffIs(seen: Mark, now: nat)
    ensures PutOff(seen, Backoff(seen, now), now)
  {
    assert forall n: nat :: FIRST_RETRY * Pow2(n) > 0;
  }

  lemma SettleIs(dirty: map<Tid, Mark>, tid: Tid, seen: Mark, pushed: bool, deferred: bool, now: nat)
    ensures var d := Settle(dirty, tid, seen, pushed, deferred, now);
      && (if deferred then SameMark(dirty, d, tid) else Settled(dirty, d, tid, seen, pushed, now))
      && forall t :: t != tid ==> SameMark(dirty, d, t)
  {
    hide PutOff, Backoff;
    BackoffIs(seen, now);
  }

  /** A clean-up of all its trades settles each of them and nothing else. */
  lemma {:induction false} SettleAllIs(dirty: map<Tid, Mark>, tids: seq<Tid>, snapshot: map<Tid, Mark>,
                                       pushed: set<Tid>, deferred: set<Tid>, now: nat, t: Tid)
    requires forall u :: u in tids ==> u in snapshot
    ensures var d := SettleAll(dirty, tids, snapshot, pushed, deferred, now);
      if t in tids && t !in deferred then Settled(dirty, d, t, snapshot[t], t in pushed, now) else SameMark(dirty, d, t)
  {
    hide PutOff, Settle;
    if tids != [] {
      var init, last := tids[..|tids| - 1], tids[|tids| - 1];
      assert tids == init + [last];
      SettleAllIs(dirty, init, snapshot, pushed, deferred, now, t);
      var before := SettleAll(dirty, init, snapshot, pushed, deferred, now);
      SettleIs(before, last, snapshot[last], last in pushed, last in deferred, now);
      if t != last { assert SameMark(before, SettleAll(dirty, tids, snapshot, pushed, deferred, now), t); }
    }
  }

  // ---------------------------------------------------------------- outcomes of one flush

  /** What one upload stage reported: single verdicts where it has them, else one for the whole batch. */
  datatype Report = Report(tids: seq<Tid>, ok: bool, verdicts: map<Tid, bool>)

  predicate Passed(r: Report, tid: Tid) {
    if tid in r.verdicts then r.verdicts[tid] else r.ok
  }

  predicate Standing(stage: map<Tid, bool>, tid: Tid) {
    tid in stage ==> stage[tid]
  }

  ghost predicate PassedAll(staged: map<Tid, bool>, reports: seq<Report>, tid: Tid) {
    Standing(staged, tid) && forall r :: r in reports && tid in r.tids ==> Passed(r, tid)
  }

  /** Merging one report only ever withdraws: a trade stands iff it stood and the report passes it. */
  method MergeReport(stage: map<Tid, bool>, r: Report) returns (merged: map<Tid, bool>)
    ensures forall t :: Standing(merged, t) <==> Standing(stage, t) && (t in r.tids ==> Passed(r, t))
    ensures forall t :: t in r.tids ==>
              (Standing(merged, t) <==> Standing(stage, t) && if t in r.verdicts then r.verdicts[t] else r.ok)
    ensures merged.Keys == stage.Keys + set t | t in r.tids
  {
    merged := stage;
    var i := 0;
    while i < |r.tids|
      invariant 0 <= i <= |r.tids|
      invariant forall t :: Standing(merged, t) <==> Standing(stage, t) && (t in r.tids[..i] ==> Passed(r, t))
      invariant merged.Keys == stage.Keys + set t | t in r.tids[..i]
    {
      var tid := r.tids[i];
      assert r.tids[..i + 1] == r.tids[..i] + [tid];
      merged := merged[tid := (tid in merged ==> merged[tid]) && Passed(r, tid)];
      i := i + 1;
    }
    assert r.tids[..i] == r.tids;
  }

  /** The stages of one flush: a trade is acknowledged iff it was staged and every report covering it passed. */
  method Outcomes(staged: map<Tid, bool>, reports: seq<Report>) returns (stage: map<Tid, bool>)
    ensures forall t :: Standing(stage, t) <==> PassedAll(staged, reports, t)
  {
    stage := staged;
    var i := 0;
    while i < |reports|
      invariant 0 <= i <= |reports|
      invariant forall t :: Standing(stage, t) <==> PassedAll(staged, reports[..i], t)
    {
      assert reports[..i + 1] == reports[..i] + [reports[i]];
      stage := MergeReport(stage, reports[i]);
      i := i + 1;
    }
    assert reports[..i] == reports;
  }

  // ---------------------------------------------------------------- the stored queue

  class SyncStore {
    var dirty: map<Tid, Mark>
    var pending: set<Tid>
    var lease: Option<Lease>

    /** `supaMarkTradeDirty_`: under the lock the trade gets a new revision, otherwise a pending mark. */
    method MarkDirty(tid: Tid, revision: nat, locked: bool)
      modifies this`dirty, this`pending
      ensures dirty == if locked then old(dirty)[tid := New(revision)] else old(dirty)
      ensures pending == if locked then old(pending) else old(pending) + {tid}
    {
      if locked { dirty := dirty[tid := New(revision)]; } else { pending := pending + {tid}; }
    }

    /** `supaSyncMergePendingMarks_` over the keys it listed, undisturbed. */
    method MergePending(keys: seq<Tid>, firstRevision: nat)
      modifies this`dirty, this`pending
      ensures pending == old(pending) - set t | t in keys
      ensures dirty == Merged(old(dirty), keys, firstRevision)
    {
      var i := 0;
      while i < |keys|
        invariant 0 <= i <= |keys|
        invariant pending == old(pending) - set t | t in keys[..i]
        invariant dirty == Merged(old(dirty), keys[..i], firstRevision)
      {
        var tid := keys[i];
        assert keys[..i + 1] == keys[..i] + [tid];
        MergedLast(old(dirty), keys[..i], tid, firstRevision);
        dirty := dirty[tid := New(firstRevision + i)];
        pending := pending - {tid};
        i := i + 1;
      }
      assert keys[..i] == keys;
    }

    /** The lock-held start of a flush: the due marks are copied and the lease is taken, or nothing changes. */
    method TakeSnapshot(now: nat, id: nat) returns (snapshot: map<Tid, Mark>)
      modifies this`lease
      ensures var free := !(old(lease).Some? && old(lease).value.until > now);
        && snapshot == (if free then DueMarks(dirty, now) else map[])
        && (forall t :: t in snapshot <==>
              && free && t in dirty
              && match dirty[t] case New(_) => true case Retry(_, _, at) => at <= now || at > now + RETRY_HORIZON)
        && (forall t :: t in snapshot ==> snapshot[t] == dirty[t])
        && lease == (if snapshot == map[] then old(lease) else Some(Lease(id, now + LEASE)))
    {
      if lease.Some? && lease.value.until > now { return map[]; }
      snapshot := DueMarks(dirty, now);
      if snapshot != map[] { lease := Some(Lease(id, now + LEASE)); }
    }

    /** The lock-held end of a flush. For the lease owner: a listed, undeferred trade whose mark is as it was in the
        snapshot is cleared if it was pushed and otherwise put off; every other mark stays. */
    method CleanUp(id: nat, now: nat, tids: seq<Tid>, snapshot: map<Tid, Mark>, pushed: set<Tid>, deferred: set<Tid>)
      requires forall t :: t in tids ==> t in snapshot
      modifies this`dirty, this`lease
      ensures var mine := old(lease).Some? && old(lease).value.id == id;
        && dirty == (if mine then SettleAll(old(dirty), tids, snapshot, pushed, deferred, now) else old(dirty))
        && lease == (if mine then None else old(lease))
        && forall t :: if mine && t in tids && t !in deferred
                       then Settled(old(dirty), dirty, t, snapshot[t], t in pushed, now)
                       else SameMark(old(dirty), dirty, t)
    {
      if lease.None? || lease.value.id != id { return; }
      hide Settled, SameMark;
      forall t
        ensures var d := SettleAll(old(dirty), tids, snapshot, pushed, deferred, now);
          if t in tids && t !in deferred then Settled(old(dirty), d, t, snapshot[t], t in pushed, now)
          else SameMark(old(dirty), d, t)
      {
        SettleAllIs(old(dirty), tids, snapshot, pushed, deferred, now, t);
      }
      var i := 0;
      assert tids[..0] == [];
      while i < |tids|
        invariant 0 <= i <= |tids| && lease == old(lease)
        invariant dirty == SettleAll(old(dirty), tids[..i], snapshot, pushed, deferred, now)
      {
        var tid := tids[i];
        assert tids[..i + 1][..i] == tids[..i];
        if tid !in deferred && tid in dirty && dirty[tid] == snapshot[tid] {
          if tid in pushed { dirty := dirty - {tid}; } else { dirty := dirty[tid := Backoff(snapshot[tid], now)]; }
        }
        i := i + 1;
      }
      assert tids[..i] == tids;
      lease := None;
    }
  }

  // ---------------------------------------------------------------- the system

  /** `half` is the trade whose pending mark has been copied to a dirty mark but not yet deleted. */
  datatype Phase =
    | Merging(keys: seq<Tid>)
    | Half(half: Tid, keys: seq<Tid>)
    | Snapped(snapshot: map<Tid, Mark>)
    | Fetched(snapshot: map<Tid, Mark>, seen: nat)
    | Pushed(snapshot: map<Tid, Mark>, seen: nat, ok: set<Tid>, deferred: set<Tid>)
    | Cleaning(snapshot: map<Tid, Mark>, seen: nat, ok: set<Tid>, deferred: set<Tid>)

  /** History: `edits` counts sheet edits, `marked` the newest edit of a trade whose mark is stored, `synced` the
      newest read of a trade that every upload stage accepted. */
  datatype World = World(now: nat, nextName: nat, dirty: map<Tid, Mark>, pending: set<Tid>, lease: Option<Lease>,
                         lock: Option<nat>, flushes: map<nat, Phase>,
                         edits: nat, marked: map<Tid, nat>, synced: map<Tid, nat>)

  function RaiseAll(m: map<Tid, nat>, tids: set<Tid>, n: nat): (r: map<Tid, nat>)
    ensures forall t :: At(r, t) == if t in tids && At(m, t) < n then n else At(m, t)
  {
    map t | t in m.Keys + tids :: if t in tids && At(m, t) < n then n else At(m, t)
  }

  datatype Step =
    | Tick(ms: nat)
    | Edit
    | MarkLocked(tid: Tid, edit: nat)
    | MarkContended(tid: Tid, edit: nat)
    | Start(keys: seq<Tid>)
    | CopyMark(f: nat)
    | DropMark(f: nat)
    | Snapshot(f: nat)
    | Fetch(f: nat)
    | Push(f: nat, staged: map<Tid, bool>, reports: seq<Report>, deferred: set<Tid>)
    | Fail(f: nat, deferred: set<Tid>)
    | BeginClean(f: nat)
    | CleanOne(f: nat, tid: Tid)
    | End(f: nat, finished: bool)

  predicate In(w: World, f: nat) {
    f in w.flushes
  }

  predicate Enabled(w: World, step: Step) {
    match step
    case Tick(ms) => true
    case Edit => true
    case MarkLocked(tid, edit) => w.lock.None? && edit <= w.edits
    case MarkContended(tid, edit) => edit <= w.edits
    case Start(keys) =>
      && w.lock.None? && (forall t :: t in keys ==> t in w.pending)
      && (forall i, j :: 0 <= i < j < |keys| ==> keys[i] != keys[j])
      && |keys| == Min(MERGE_BATCH, |w.pending|)
    case CopyMark(f) => In(w, f) && w.flushes[f].Merging? && w.flushes[f].keys != []
    case DropMark(f) => In(w, f) && w.flushes[f].Half?
    case Snapshot(f) =>
      && In(w, f) && w.flushes[f] == Merging([]) && !(w.lease.Some? && w.lease.value.until > w.now)
      && DueMarks(w.dirty, w.now) != map[]
    case Fetch(f) => In(w, f) && w.flushes[f].Snapped? && w.lock.None?
    case Push(f, staged, reports, deferred) => In(w, f) && w.flushes[f].Fetched?
    case Fail(f, deferred) => In(w, f) && (w.flushes[f].Snapped? || w.flushes[f].Fetched?)
    case BeginClean(f) =>
      In(w, f) && w.flushes[f].Pushed? && w.lock.None? && w.lease.Some? && w.lease.value.id == f
    case CleanOne(f, tid) => In(w, f) && w.flushes[f].Cleaning? && tid in w.flushes[f].snapshot
    case End(f, finished) => In(w, f) && (finished ==> w.flushes[f].Cleaning?)
  }

  function Go(w: World, f: nat, p: Phase): World {
    w.(flushes := w.flushes[f := p])
  }

  /** An execution may stop at any point; the platform then frees its lock. A clean-up that ends, with or without an
      exception, also drops the lease. */
  function Leave(w: World, f: nat): World {
    w.(flushes := w.flushes - {f}, lock := if w.lock == Some(f) then None else w.lock)
  }

  ghost function Apply(w: World, step: Step): World
    requires Enabled(w, step)
  {
    match step
    case Tick(ms) => w.(now := w.now + ms)
    case Edit => w.(edits := w.edits + 1)
    case MarkLocked(tid, edit) =>
      w.(dirty := w.dirty[tid := New(w.nextName)], nextName := w.nextName + 1, marked := Raise(w.marked, tid, edit))
    case MarkContended(tid, edit) => w.(pending := w.pending + {tid}, marked := Raise(w.marked, tid, edit))
    case Start(keys) => Go(w, w.nextName, Merging(keys)).(lock := Some(w.nextName), nextName := w.nextName + 1)
    case CopyMark(f) =>
      var keys := w.flushes[f].keys;
      Go(w, f, Half(keys[0], keys[1..])).(dirty := Copied(w.dirty, keys[0], w.nextName), nextName := w.nextName + 1)
    case DropMark(f) =>
      Go(w, f, Merging(w.flushes[f].keys)).(pending := w.pending - {w.flushes[f].half})
    case Snapshot(f) =>
      Go(w, f, Snapped(DueMarks(w.dirty, w.now)))
        .(lease := Some(Lease(f, w.now + LEASE)), lock := if w.lock == Some(f) then None else w.lock)
    case Fetch(f) => Go(w, f, Fetched(w.flushes[f].snapshot, w.edits))
    case Push(f, staged, reports, deferred) =>
      var p := w.flushes[f];
      var ok := set t | t in p.snapshot && t !in deferred && PassedAll(staged, reports, t);
      Go(w, f, Pushed(p.snapshot, p.seen, ok, deferred)).(synced := RaiseAll(w.synced, ok, p.seen))
    case Fail(f, deferred) => Go(w, f, Pushed(w.flushes[f].snapshot, 0, {}, deferred))
    case BeginClean(f) =>
      var p := w.flushes[f];
      Go(w, f, Cleaning(p.snapshot, p.seen, p.ok, p.deferred)).(lock := Some(f))
    case CleanOne(f, tid) =>
      var p := w.flushes[f];
      Go(w, f, p.(snapshot := p.snapshot - {tid}))
        .(dirty := Settle(w.dirty, tid, p.snapshot[tid], tid in p.ok, tid in p.deferred, w.now))
    case End(f, finished) => Leave(w, f).(lease := if finished then None else w.lease)
  }

  // ---------------------------------------------------------------- what every step keeps

  predicate HoldsLock(p: Phase) {
    p.Merging? || p.Half? || p.Cleaning?
  }

  predicate HasSnapshot(p: Phase) {
    !p.Merging? && !p.Half?
  }

  ghost predicate Named(w: World) {
    && (forall t :: t in w.dirty ==> w.dirty[t].revision < w.nextName)
    && (forall f :: f in w.flushes ==> f < w.nextName)
    && (forall f, t :: f in w.flushes && HasSnapshot(w.flushes[f]) && t in w.flushes[f].snapshot ==>
          w.flushes[f].snapshot[t].revision < w.nextName)
    && (w.lease.Some? ==> w.lease.value.id < w.nextName)
    && (w.lock.Some? ==> w.lock.value < w.nextName)
  }

  ghost predicate Locked(w: World) {
    && (forall f :: f in w.flushes && HoldsLock(w.flushes[f]) ==> w.lock == Some(f))
    && (forall f :: f in w.flushes && w.flushes[f].Cleaning? ==> w.lease.Some? && w.lease.value.id == f)
  }

  ghost predicate Counted(w: World) {
    forall t :: At(w.marked, t) <= w.edits
  }

  /** A trade with a stored but unsynced change is marked. */
  ghost predicate Unlost(w: World) {
    forall t :: At(w.marked, t) > At(w.synced, t) ==> t in w.dirty || t in w.pending
  }

  /** The copy half of a merge made a revision no flush has in its snapshot. */
  ghost predicate HalfSafe(w: World) {
    forall f :: f in w.flushes && w.flushes[f].Half? ==>
      var t := w.flushes[f].half;
      t in w.dirty && forall g :: g in w.flushes && HasSnapshot(w.flushes[g]) && t in w.flushes[g].snapshot ==>
        w.flushes[g].snapshot[t] != w.dirty[t]
  }

  /** What the lease owner may clear was read after every mark it would clear. */
  ghost predicate OwnerSafe(w: World) {
    forall f :: f in w.flushes && w.lease.Some? && w.lease.value.id == f ==> PhaseSafe(w, w.flushes[f])
  }

  ghost predicate PhaseSafe(w: World, p: Phase) {
    match p
    case Fetched(snapshot, seen) => ReadLate(w, snapshot, seen)
    case Pushed(snapshot, seen, ok, deferred) => ok == {} || ReadLate(w, snapshot, seen)
    case Cleaning(snapshot, seen, ok, deferred) => ok == {} || ReadLate(w, snapshot, seen)
    case _ => true
  }

  ghost predicate ReadLate(w: World, snapshot: map<Tid, Mark>, seen: nat) {
    forall t :: t in snapshot && t in w.dirty && w.dirty[t] == snapshot[t] && t !in w.pending ==>
      At(w.marked, t) <= seen
  }

  ghost predicate OkSynced(w: World) {
    forall f, t :: f in w.flushes && (w.flushes[f].Pushed? || w.flushes[f].Cleaning?) && t in w.flushes[f].ok ==>
      At(w.synced, t) >= w.flushes[f].seen
  }

  ghost predicate Bounded(w: World) {
    forall t :: t in w.dirty && w.dirty[t].Retry? ==>
      w.dirty[t].nextAt <= w.now + LONGEST_RETRY && w.dirty[t].failures <= MOST_FAILURES
  }

  ghost predicate Inv(w: World) {
    && Named(w) && Locked(w) && Counted(w) && Unlost(w) && HalfSafe(w) && OwnerSafe(w) && OkSynced(w) && Bounded(w)
  }

  lemma KeepsNamed(w: World, step: Step)
    requires Inv(w) && Enabled(w, step)
    ensures Named(Apply(w, step))
  {
    hide PassedAll, Locked, Counted, Unlost, HalfSafe, OwnerSafe, OkSynced, Bounded, At;
  }

  lemma KeepsLocked(w: World, step: Step)
    requires Inv(w) && Enabled(w, step)
    ensures Locked(Apply(w, step))
  {
    hide Counted, Unlost, HalfSafe, OwnerSafe, OkSynced, Bounded, At, Backoff;
  }

  lemma KeepsCounted(w: World, step: Step)
    requires Inv(w) && Enabled(w, step)
    ensures Counted(Apply(w, step))
  {
    hide Named, Locked, Unlost, HalfSafe, OwnerSafe, OkSynced, Bounded, At, Backoff;
  }

  lemma KeepsUnlost(w: World, step: Step)
    requires Inv(w) && Enabled(w, step)
    ensures Unlost(Apply(w, step))
  {
    hide Named, Bounded, Counted, At, Backoff;
  }

  lemma KeepsHalfSafe(w: World, step: Step)
    requires Inv(w) && Enabled(w, step)
    ensures HalfSafe(Apply(w, step))
  {
    hide Counted, Unlost, OwnerSafe, OkSynced, Bounded, At, Backoff;
  }

  lemma KeepsPhaseSafe(w: World, step: Step, f: nat)
    requires Inv(w) && Enabled(w, step) && f in Apply(w, step).flushes
    requires Apply(w, step).lease.Some? && Apply(w, step).lease.value.id == f
    ensures PhaseSafe(Apply(w, step), Apply(w, step).flushes[f])
  {
    hide PassedAll, Unlost, OkSynced, Bounded, At, Backoff;
  }

  lemma KeepsOwnerSafe(w: World, step: Step)
    requires Inv(w) && Enabled(w, step)
    ensures OwnerSafe(Apply(w, step))
  {
    hide Inv, Enabled, Apply, PhaseSafe;
    var v := Apply(w, step);
    if v.lease.Some? && v.lease.value.id in v.flushes { KeepsPhaseSafe(w, step, v.lease.value.id); }
  }

  lemma KeepsOkSynced(w: World, step: Step)
    requires Inv(w) && Enabled(w, step)
    ensures OkSynced(Apply(w, step))
  {
    hide Counted, Unlost, HalfSafe, OwnerSafe, Bounded, At, Backoff;
  }

  lemma KeepsBounded(w: World, step: Step)
    requires Inv(w) && Enabled(w, step)
    ensures Bounded(Apply(w, step))
  {
    hide Named, Counted, Unlost, HalfSafe, OwnerSafe, OkSynced, Locked, At, Due;
  }

  lemma StepKeeps(w: World, step: Step)
    requires Inv(w) && Enabled(w, step)
    ensures Inv(Apply(w, step))
  {
    hide PassedAll, Enabled, Apply, Named, Locked, Counted, Unlost, HalfSafe, OwnerSafe, OkSynced, Bounded;
    KeepsNamed(w, step);
    KeepsLocked(w, step);
    KeepsCounted(w, step);
    KeepsUnlost(w, step);
    KeepsHalfSafe(w, step);
    KeepsOwnerSafe(w, step);
    KeepsOkSynced(w, step);
    KeepsBounded(w, step);
  }

  // ---------------------------------------------------------------- whole runs

  ghost predicate Initial(w: World) {
    && w.dirty == map[] && w.pending == {} && w.lease.None? && w.lock.None? && w.flushes == map[]
    && w.marked == map[] && w.synced == map[]
  }

  ghost predicate Possible(w: World, steps: seq<Step>)
    decreases |steps|
  {
    steps == [] || (Enabled(w, steps[0]) && Possible(Apply(w, steps[0]), steps[1..]))
  }

  ghost function After(w: World, steps: seq<Step>): World
    requires Possible(w, steps)
    decreases |steps|
  {
    if steps == [] then w else After(Apply(w, steps[0]), steps[1..])
  }

  lemma {:induction false} RunKeeps(w: World, steps: seq<Step>)
    requires Inv(w) && Possible(w, steps)
    ensures Inv(After(w, steps))
    decreases |steps|
  {
    hide Inv, Enabled;
    if steps == [] {
    } else {
      StepKeeps(w, steps[0]);
      RunKeeps(Apply(w, steps[0]), steps[1..]);
    }
  }

  /** No change is lost: once an edit and its mark are complete, the trade stays dirty or pending until a flush
      that read the sheet after that edit had every upload stage accept the trade. */
  lemma NoChangeLost(w: World, steps: seq<Step>, tid: Tid)
    requires Initial(w) && Possible(w, steps)
    ensures var v := After(w, steps); At(v.marked, tid) > At(v.synced, tid) ==> tid in v.dirty || tid in v.pending
  {
    hide Possible, After;
    RunKeeps(w, steps);
  }

  /** No failure delays a dirty trade by more than half an hour. */
  lemma DueWithinHalfAnHour(w: World, steps: seq<Step>, tid: Tid, later: nat)
    requires Initial(w) && Possible(w, steps)
    requires tid in After(w, steps).dirty && later >= After(w, steps).now + LONGEST_RETRY
    ensures Due(After(w, steps).dirty[tid], later)
  {
    hide Possible, After;
    RunKeeps(w, steps);
  }

  // ---------------------------------------------------------------- what is accepted leaves the queue

  /** The step gives the trade a new revision. */
  predicate Marks(w: World, step: Step, tid: Tid) {
    match step
    case MarkLocked(t, _) => t == tid
    case CopyMark(f) => f in w.flushes && w.flushes[f].Merging? && [tid] <= w.flushes[f].keys
    case _ => false
  }

  ghost predicate Unmarked(w: World, steps: seq<Step>, tid: Tid)
    requires Possible(w, steps)
    decreases |steps|
  {
    steps == [] || (!Marks(w, steps[0], tid) && Unmarked(Apply(w, steps[0]), steps[1..], tid))
  }

  /** As long as f owns the lease and has not cleaned the trade, its mark is the one in the snapshot. */
  ghost predicate Untouched(w: World, f: nat, tid: Tid) {
    f in w.flushes ==>
      && HasSnapshot(w.flushes[f])
      && (tid in w.flushes[f].snapshot && w.lease.Some? && w.lease.value.id == f ==>
            tid in w.dirty && w.dirty[tid] == w.flushes[f].snapshot[tid])
  }

  lemma KeepsUntouched(w: World, step: Step, f: nat, tid: Tid)
    requires Inv(w) && Enabled(w, step) && Untouched(w, f, tid) && !Marks(w, step, tid) && f < w.nextName
    ensures Untouched(Apply(w, step), f, tid) && f < Apply(w, step).nextName
  {
    hide PassedAll, Counted, Unlost, HalfSafe, OwnerSafe, OkSynced, Bounded, At, Backoff, Due;
  }

  lemma {:induction false} RunKeepsUntouched(w: World, steps: seq<Step>, f: nat, tid: Tid)
    requires Inv(w) && Possible(w, steps) && Unmarked(w, steps, tid) && Untouched(w, f, tid) && f < w.nextName
    ensures Inv(After(w, steps)) && Untouched(After(w, steps), f, tid)
    decreases |steps|
  {
    hide Inv, Enabled, Untouched, Marks;
    if steps == [] {
    } else {
      StepKeeps(w, steps[0]);
      KeepsUntouched(w, steps[0], f, tid);
      RunKeepsUntouched(Apply(w, steps[0]), steps[1..], f, tid);
    }
  }

  /** A trade of the snapshot that nobody has marked since: once its clean-up is done it is out of the queue if every
      stage accepted it, and otherwise, unless deferred, it waits under the same revision. */
  lemma AcceptedLeaves(w: World, before: seq<Step>, f: nat, tid: Tid, later: seq<Step>)
    requires Initial(w) && Possible(w, before) && Enabled(After(w, before), Snapshot(f))
    requires var u := Apply(After(w, before), Snapshot(f)); Possible(u, later) && Unmarked(u, later, tid)
    requires var z := After(Apply(After(w, before), Snapshot(f)), later);
      f in z.flushes && z.flushes[f].Cleaning? && tid in z.flushes[f].snapshot && tid !in z.flushes[f].deferred
    ensures var z := After(Apply(After(w, before), Snapshot(f)), later);
      && Enabled(z, CleanOne(f, tid))
      && var left := Apply(z, CleanOne(f, tid)).dirty;
         if tid in z.flushes[f].ok then tid !in left
         else tid in left && PutOff(z.flushes[f].snapshot[tid], left[tid], z.now)
  {
    hide Possible, After, Inv, Unmarked, PutOff;
    RunKeeps(w, before) by { assert Inv(w) by { InitialInv(w); } }
    var v := After(w, before);
    StepKeeps(v, Snapshot(f));
    SnapshotUntouched(v, f, tid);
    hide Enabled, Apply, Initial;
    var u := Apply(v, Snapshot(f));
    RunKeepsUntouched(u, later, f, tid);
    CleanedIs(After(u, later), f, tid);
  }

  lemma InitialInv(w: World)
    requires Initial(w)
    ensures Inv(w)
  {
  }

  lemma SnapshotUntouched(w: World, f: nat, tid: Tid)
    requires Inv(w) && Enabled(w, Snapshot(f))
    ensures Untouched(Apply(w, Snapshot(f)), f, tid) && f < Apply(w, Snapshot(f)).nextName
  {
    hide Counted, Unlost, HalfSafe, OwnerSafe, OkSynced, Bounded, Locked, Due;
  }

  lemma CleanedIs(w: World, f: nat, tid: Tid)
    requires Inv(w) && Untouched(w, f, tid)
    requires f in w.flushes && w.flushes[f].Cleaning? && tid in w.flushes[f].snapshot && tid !in w.flushes[f].deferred
    ensures Enabled(w, CleanOne(f, tid))
    ensures var left := Apply(w, CleanOne(f, tid)).dirty;
      if tid in w.flushes[f].ok then tid !in left
      else tid in left && PutOff(w.flushes[f].snapshot[tid], left[tid], w.now)
  {
    hide PutOff, Backoff, Counted, Unlost, HalfSafe, OwnerSafe, OkSynced, Bounded;
    var p := w.flushes[f];
    SettleIs(w.dirty, tid, p.snapshot[tid], tid in p.ok, false, w.now);
  }

  /** An execution that ends or is killed holds no lock any longer, and a clean-up that ends no lease. */
  lemma EndHoldsNothing(w: World, f: nat, finished: bool)
    requires Enabled(w, End(f, finished))
    ensures var v := Apply(w, End(f, finished));
      && f !in v.flushes && v.lock != Some(f) && v.dirty == w.dirty && v.pending == w.pending
      && (w.lock != Some(f) ==> v.lock == w.lock)
      && v.lease == if finished then None else w.lease
  {
  }

  // ---------------------------------------------------------------- the loops, step by step

  function MergeSteps(f: nat, n: nat): seq<Step> {
    if n == 0 then [] else [CopyMark(f), DropMark(f)] + MergeSteps(f, n - 1)
  }

  lemma MergeOne(w: World, f: nat) returns (u: World, v: World)
    requires In(w, f) && w.flushes[f].Merging? && w.flushes[f].keys != []
    ensures Enabled(w, CopyMark(f)) && u == Apply(w, CopyMark(f))
    ensures Enabled(u, DropMark(f)) && v == Apply(u, DropMark(f))
    ensures var keys := w.flushes[f].keys;
      && v.dirty == Copied(w.dirty, keys[0], w.nextName) && v.pending == w.pending - {keys[0]}
      && v.nextName == w.nextName + 1 && In(v, f) && v.flushes[f] == Merging(keys[1..])
  {
    u := Apply(w, CopyMark(f));
    v := Apply(u, DropMark(f));
  }

  lemma Twice(w: World, a: Step, b: Step, rest: seq<Step>)
    requires Enabled(w, a) && Enabled(Apply(w, a), b) && Possible(Apply(Apply(w, a), b), rest)
    ensures Possible(w, [a, b] + rest) && After(w, [a, b] + rest) == After(Apply(Apply(w, a), b), rest)
  {
    hide Enabled, Apply;
    var steps := [a, b] + rest;
    assert steps[1..] == [b] + rest && steps[1..][1..] == rest;
  }

  /** The merge loop is what its single writes come to when nothing happens in between. */
  lemma {:induction false} MergeUndisturbed(w: World, f: nat)
    requires In(w, f) && w.flushes[f].Merging?
    ensures var keys := w.flushes[f].keys;
      && Possible(w, MergeSteps(f, |keys|))
      && var v := After(w, MergeSteps(f, |keys|));
         && v.dirty == Merged(w.dirty, keys, w.nextName) && v.pending == w.pending - (set t | t in keys)
         && In(v, f) && v.flushes[f] == Merging([])
    decreases |w.flushes[f].keys|
  {
    hide Enabled, Apply, Copied;
    var keys := w.flushes[f].keys;
    if keys == [] {
      assert w.pending - (set t | t in keys) == w.pending;
    } else {
      var u, v := MergeOne(w, f);
      MergeUndisturbed(v, f);
      hide Possible, After;
      Twice(w, CopyMark(f), DropMark(f), MergeSteps(f, |keys| - 1));
      assert keys == [keys[0]] + keys[1..];
      assert w.pending - (set t | t in keys) == v.pending - (set t | t in keys[1..]);
    }
  }

  function CleanSteps(f: nat, tids: seq<Tid>): seq<Step> {
    if tids == [] then [] else CleanSteps(f, tids[..|tids| - 1]) + [CleanOne(f, tids[|tids| - 1])]
  }

  lemma {:induction false} Extend(w: World, steps: seq<Step>, step: Step)
    requires Possible(w, steps) && Enabled(After(w, steps), step)
    ensures Possible(w, steps + [step]) && After(w, steps + [step]) == Apply(After(w, steps), step)
    decreases |steps|
  {
    hide Enabled, Apply;
    if steps == [] {
      assert (steps + [step])[1..] == [];
    } else {
      assert (steps + [step])[1..] == steps[1..] + [step];
      Extend(Apply(w, steps[0]), steps[1..], step);
    }
  }

  lemma CleanStep(w: World, f: nat, tid: Tid)
    requires In(w, f) && w.flushes[f].Cleaning? && tid in w.flushes[f].snapshot
    ensures Enabled(w, CleanOne(f, tid))
    ensures var p, v := w.flushes[f], Apply(w, CleanOne(f, tid));
      && v.dirty == Settle(w.dirty, tid, p.snapshot[tid], tid in p.ok, tid in p.deferred, w.now) && v.now == w.now
      && In(v, f) && v.flushes[f] == p.(snapshot := p.snapshot - {tid})
  {
  }

  /** So is the clean-up loop. */
  lemma {:induction false} CleanUndisturbed(w: World, f: nat, tids: seq<Tid>)
    requires In(w, f) && w.flushes[f].Cleaning? && forall i, j :: 0 <= i < j < |tids| ==> tids[i] != tids[j]
    requires forall t :: t in tids ==> t in w.flushes[f].snapshot
    ensures Possible(w, CleanSteps(f, tids))
    ensures var p, v := w.flushes[f], After(w, CleanSteps(f, tids));
      && v.dirty == SettleAll(w.dirty, tids, p.snapshot, p.ok, p.deferred, w.now) && v.now == w.now
      && In(v, f) && v.flushes[f] == p.(snapshot := p.snapshot - set t | t in tids)
    decreases |tids|
  {
    hide Enabled, Apply, Settle;
    var p := w.flushes[f];
    if tids == [] {
      assert p.snapshot - (set t | t in tids) == p.snapshot;
    } else {
      var init, last := tids[..|tids| - 1], tids[|tids| - 1];
      assert tids == init + [last];
      CleanUndisturbed(w, f, init);
      var v := After(w, CleanSteps(f, init));
      hide Possible, After;
      assert last !in init && last in v.flushes[f].snapshot;
      CleanStep(v, f, last);
      Extend(w, CleanSteps(f, init), CleanOne(f, last));
      assert p.snapshot - (set t | t in tids) == v.flushes[f].snapshot - {last};
    }
  }

  // ---------------------------------------------------------------- a run from an edit to the end

  ghost predicate Reaches(w: World, v: World) {
    exists steps :: Possible(w, steps) && After(w, steps) == v
  }

  lemma ReachStart(w: World)
    ensures Reaches(w, w)
  {
    assert Possible(w, []) && After(w, []) == w;
  }

  lemma Reach(w: World, v: World, step: Step)
    requires Reaches(w, v) && Enabled(v, step)
    ensures Reaches(w, Apply(v, step))
  {
    var steps :| Possible(w, steps) && After(w, steps) == v;
    Extend(w, steps, step);
  }

  /** A locked and a contended mark, one flush: the trade every stage accepted leaves, the other waits a minute. */
  lemma FlushedOnce() returns (w: World, v: World)
    ensures Initial(w) && Reaches(w, v)
    ensures w == World(1, 0, map[], {}, None, None, map[], 0, map[], map[])
    ensures v == World(8, 3, map[6 := Retry(2, 1, 8 + FIRST_RETRY)], {}, None, None, map[], 1, map[5 := 1, 6 := 1],
                       map[5 := 1])
  {
    hide Reaches;
    w := World(1, 0, map[], {}, None, None, map[], 0, map[], map[]);
    var u := MarksMerged(w);
    u := FlushPushed(w, u);
    v := FlushCleaned(w, u);
  }

  lemma MarksMerged(w: World) returns (v: World)
    requires w == World(1, 0, map[], {}, None, None, map[], 0, map[], map[])
    ensures Reaches(w, v)
    ensures v == World(1, 3, map[5 := New(0), 6 := New(2)], {}, None, Some(1), map[1 := Merging([])], 1,
                       map[5 := 1, 6 := 1], map[])
  {
    hide Reaches;
    ReachStart(w);
    v := w;
    Reach(w, v, Edit);
    v := Apply(v, Edit);
    Reach(w, v, MarkLocked(5, 1));
    v := Apply(v, MarkLocked(5, 1));
    Reach(w, v, MarkContended(6, 1));
    v := Apply(v, MarkContended(6, 1));
    assert v == World(1, 1, map[5 := New(0)], {6}, None, None, map[], 1, map[5 := 1, 6 := 1], map[]);
    v := OneMerged(w, v);
  }

  lemma OneMerged(w: World, u: World) returns (v: World)
    requires Reaches(w, u)
    requires u == World(1, 1, map[5 := New(0)], {6}, None, None, map[], 1, map[5 := 1, 6 := 1], map[])
    ensures Reaches(w, v)
    ensures v == World(1, 3, map[5 := New(0), 6 := New(2)], {}, None, Some(1), map[1 := Merging([])], 1,
                       map[5 := 1, 6 := 1], map[])
  {
    hide Reaches;
    v := u;
    Reach(w, v, Start([6]));
    v := Apply(v, Start([6]));
    assert [6][1..] == [];
    Reach(w, v, CopyMark(1));
    v := Apply(v, CopyMark(1));
    Reach(w, v, DropMark(1));
    v := Apply(v, DropMark(1));
  }

  lemma FlushPushed(w: World, u: World) returns (v: World)
    requires Reaches(w, u)
    requires u == World(1, 3, map[5 := New(0), 6 := New(2)], {}, None, Some(1), map[1 := Merging([])], 1,
                        map[5 := 1, 6 := 1], map[])
    ensures Reaches(w, v)
    ensures v == World(8, 3, u.dirty, {}, Some(Lease(1, 1 + LEASE)), None, map[1 := Pushed(u.dirty, 1, {5}, {})], 1,
                       map[5 := 1, 6 := 1], map[5 := 1])
  {
    hide Reaches;
    v := u;
    assert DueMarks(u.dirty, 1) == u.dirty;
    assert 5 in DueMarks(u.dirty, 1);
    hide DueMarks, PassedAll;
    Reach(w, v, Snapshot(1));
    v := Apply(v, Snapshot(1));
    Reach(w, v, Fetch(1));
    v := Apply(v, Fetch(1));
    Reach(w, v, Tick(7));
    v := Apply(v, Tick(7));
    v := PushedOne(w, v);
  }

  lemma PushedOne(w: World, u: World) returns (v: World)
    requires Reaches(w, u) && u.flushes == map[1 := Fetched(map[5 := New(0), 6 := New(2)], 1)] && u.synced == map[]
    ensures Reaches(w, v)
    ensures v == u.(flushes := map[1 := Pushed(map[5 := New(0), 6 := New(2)], 1, {5}, {})], synced := map[5 := 1])
  {
    hide Reaches;
    var staged := map[5 := true, 6 := false];
    var snapshot: map<Tid, Mark> := map[5 := New(0), 6 := New(2)];
    assert PassedAll(staged, [], 5) && !PassedAll(staged, [], 6);
    assert RaiseAll(map[], {5}, 1) == map[5 := 1];
    hide PassedAll, RaiseAll;
    v := u;
    Reach(w, v, Push(1, staged, [], {}));
    v := Apply(v, Push(1, staged, [], {}));
    assert v.flushes[1].ok == {5};
  }

  lemma FlushCleaned(w: World, u: World) returns (v: World)
    requires Reaches(w, u)
    requires var dirty: map<Tid, Mark> := map[5 := New(0), 6 := New(2)];
      u == World(8, 3, dirty, {}, Some(Lease(1, 1 + LEASE)), None, map[1 := Pushed(dirty, 1, {5}, {})], 1,
                 map[5 := 1, 6 := 1], map[5 := 1])
    ensures Reaches(w, v)
    ensures v == World(8, 3, map[6 := Retry(2, 1, 8 + FIRST_RETRY)], {}, None, None, map[], 1, map[5 := 1, 6 := 1],
                       map[5 := 1])
  {
    hide Reaches, Backoff, Settle;
    v := u;
    Reach(w, v, BeginClean(1));
    v := Apply(v, BeginClean(1));
    v := FirstCleaned(w, v);
    v := LastCleaned(w, v);
    v := FlushEnded(w, v);
  }

  lemma FirstCleaned(w: World, u: World) returns (v: World)
    requires Reaches(w, u)
    requires var dirty: map<Tid, Mark> := map[5 := New(0), 6 := New(2)];
      u == World(8, 3, dirty, {}, Some(Lease(1, 1 + LEASE)), Some(1), map[1 := Cleaning(dirty, 1, {5}, {})], 1,
                 map[5 := 1, 6 := 1], map[5 := 1])
    ensures Reaches(w, v)
    ensures v == u.(dirty := map[6 := New(2)], flushes := map[1 := Cleaning(map[6 := New(2)], 1, {5}, {})])
  {
    hide Reaches, Backoff;
    v := u;
    assert map[5 := New(0), 6 := New(2)] - {5} == map[6 := New(2)];
    Reach(w, v, CleanOne(1, 5));
    v := Apply(v, CleanOne(1, 5));
  }

  lemma LastCleaned(w: World, u: World) returns (v: World)
    requires Reaches(w, u)
    requires u == World(8, 3, map[6 := New(2)], {}, Some(Lease(1, 1 + LEASE)), Some(1),
                        map[1 := Cleaning(map[6 := New(2)], 1, {5}, {})], 1, map[5 := 1, 6 := 1], map[5 := 1])
    ensures Reaches(w, v)
    ensures v == u.(dirty := map[6 := Retry(2, 1, 8 + FIRST_RETRY)], flushes := map[1 := Cleaning(map[], 1, {5}, {})])
  {
    hide Reaches;
    v := u;
    assert Pow2(0) == 1;
    assert Backoff(New(2), 8) == Retry(2, 1, 8 + FIRST_RETRY);
    hide Backoff;
    assert map[6 := New(2)] - {6} == map[];
    Reach(w, v, CleanOne(1, 6));
    v := Apply(v, CleanOne(1, 6));
  }

  lemma FlushEnded(w: World, u: World) returns (v: World)
    requires Reaches(w, u) && u.flushes == map[1 := Cleaning(map[], 1, {5}, {})] && u.lock == Some(1)
    ensures Reaches(w, v) && v == u.(flushes := map[], lock := None, lease := None)
  {
    hide Reaches;
    v := u;
    Reach(w, v, End(1, true));
    v := Apply(v, End(1, true));
  }
}
