/** Replacing a one-shot trigger under the platform's quota of 20 (Code.js:1404-1475), by a call that nobody else's
    steps interrupt; TriggerCalls has the calls that overlap. Assumed: triggers can be listed and deleted and tell their
    id, and creating one fails exactly when 20 exist. */
module Triggers {

  import opened Basics

  const QUOTA := 20

  /** The seven one-shot handlers; every other handler belongs to a recurring trigger. */
  datatype Handler =
    | RegenPendingContracts
    | RegenPendingContractsWatchdog
    | SyncTemplateMasterDebounced
    | ProcessCancelledTradeCleanup
    | FlushDashboardStructureProjectionQueue
    | RunPendingRegister
    | RunPendingScheduleFormat
    | Recurring(name: nat)

  const ONE_SHOT := [RegenPendingContracts, RegenPendingContractsWatchdog, SyncTemplateMasterDebounced,
                     ProcessCancelledTradeCleanup, FlushDashboardStructureProjectionQueue, RunPendingRegister,
                     RunPendingScheduleFormat]

  datatype Trigger = Trigger(uid: nat, handler: Handler)

  // ---------------------------------------------------------------- lists of triggers

  function Last(ts: seq<Trigger>): Trigger
    requires ts != []
  {
    ts[|ts| - 1]
  }

  function Init(ts: seq<Trigger>): seq<Trigger>
    requires ts != []
  {
    ts[..|ts| - 1]
  }

  function Count(ts: seq<Trigger>, h: Handler): nat {
    if ts == [] then 0 else Count(Init(ts), h) + if Last(ts).handler == h then 1 else 0
  }

  /** The triggers of all other handlers, in order. */
  function Without(ts: seq<Trigger>, h: Handler): seq<Trigger> {
    if ts == [] then []
    else if Last(ts).handler == h then Without(Init(ts), h)
    else Without(Init(ts), h) + [Last(ts)]
  }

  /** The triggers outside the list of one-shot handlers, in order. */
  function Outside(ts: seq<Trigger>): seq<Trigger> {
    if ts == [] then []
    else if Last(ts).handler.Recurring? then Outside(Init(ts)) + [Last(ts)]
    else Outside(Init(ts))
  }

  predicate Matches(t: Trigger, h: Handler, skip: Option<nat>) {
    t.handler == h && skip != Some(t.uid)
  }

  function Matching(ts: seq<Trigger>, h: Handler, skip: Option<nat>): nat {
    if ts == [] then 0 else Matching(Init(ts), h, skip) + if Matches(Last(ts), h, skip) then 1 else 0
  }

  /** What `pruneOneShotTriggers_` leaves: of the matching triggers only the first `keep`. */
  function Pruned(ts: seq<Trigger>, h: Handler, keep: nat, skip: Option<nat>): seq<Trigger> {
    if ts == [] then []
    else if Matches(Last(ts), h, skip) && Matching(Init(ts), h, skip) >= keep then Pruned(Init(ts), h, keep, skip)
    else Pruned(Init(ts), h, keep, skip) + [Last(ts)]
  }

  /** One unfolding of each. */
  lemma Unfold(ts: seq<Trigger>, h: Handler, keep: nat, skip: Option<nat>)
    requires ts != []
    ensures Count(ts, h) == Count(Init(ts), h) + if Last(ts).handler == h then 1 else 0
    ensures Without(ts, h) == if Last(ts).handler == h then Without(Init(ts), h) else Without(Init(ts), h) + [Last(ts)]
    ensures Outside(ts) == if Last(ts).handler.Recurring? then Outside(Init(ts)) + [Last(ts)] else Outside(Init(ts))
    ensures Matching(ts, h, skip) == Matching(Init(ts), h, skip) + if Matches(Last(ts), h, skip) then 1 else 0
    ensures Pruned(ts, h, keep, skip)
            == if Matches(Last(ts), h, skip) && Matching(Init(ts), h, skip) >= keep then Pruned(Init(ts), h, keep, skip)
               else Pruned(Init(ts), h, keep, skip) + [Last(ts)]
  {
  }

  lemma UnfoldEmpty(h: Handler, keep: nat, skip: Option<nat>)
    ensures Count([], h) == 0 && Without([], h) == [] && Outside([]) == [] && Matching([], h, skip) == 0
    ensures Pruned([], h, keep, skip) == []
  {
  }

  lemma CountSnoc(ts: seq<Trigger>, t: Trigger, h: Handler)
    ensures Count(ts + [t], h) == Count(ts, h) + if t.handler == h then 1 else 0
    ensures Without(ts + [t], h) == if t.handler == h then Without(ts, h) else Without(ts, h) + [t]
    ensures Outside(ts + [t]) == if t.handler.Recurring? then Outside(ts) + [t] else Outside(ts)
  {
    assert Init(ts + [t]) == ts;
  }

  /** Pruning touches no trigger of another handler. */
  lemma {:induction false} PrunedKeeps(ts: seq<Trigger>, h: Handler, keep: nat, skip: Option<nat>)
    ensures Without(Pruned(ts, h, keep, skip), h) == Without(ts, h)
    ensures |Pruned(ts, h, keep, skip)| <= |ts|
  {
    hide Count, Without, Outside, Matching, Pruned;
    if ts == [] {
      UnfoldEmpty(h, keep, skip);
    } else {
      Unfold(ts, h, keep, skip);
      PrunedKeeps(Init(ts), h, keep, skip);
      CountSnoc(Pruned(Init(ts), h, keep, skip), Last(ts), h);
    }
  }

  /** It leaves `keep` of its own, if there were so many. */
  lemma {:induction false} PrunedCount(ts: seq<Trigger>, h: Handler, keep: nat)
    ensures Count(Pruned(ts, h, keep, None), h) == if Count(ts, h) < keep then Count(ts, h) else keep
    ensures Matching(ts, h, None) == Count(ts, h)
  {
    hide Count, Without, Outside, Matching, Pruned;
    if ts == [] {
      UnfoldEmpty(h, keep, None);
    } else {
      Unfold(ts, h, keep, None);
      PrunedCount(Init(ts), h, keep);
      if !(Matches(Last(ts), h, None) && Matching(Init(ts), h, None) >= keep) {
        CountSnoc(Pruned(Init(ts), h, keep, None), Last(ts), h);
      }
    }
  }

  /** Pruning to none but a skipped trigger drops exactly the others of that handler. */
  lemma {:induction false} PrunedButOne(ts: seq<Trigger>, h: Handler, uid: nat)
    requires forall i :: 0 <= i < |ts| ==> ts[i].uid != uid
    ensures Pruned(ts, h, 0, Some(uid)) == Without(ts, h)
  {
    hide Count, Without, Outside, Matching, Pruned;
    if ts == [] {
      UnfoldEmpty(h, 0, Some(uid));
    } else {
      Unfold(ts, h, 0, Some(uid));
      PrunedButOne(Init(ts), h, uid);
    }
  }

  /** Lists that agree on everything but one one-shot handler agree on recurring triggers and all other counts. */
  lemma {:induction false} CountWithout(ts: seq<Trigger>, h: Handler, other: Handler)
    requires other != h && !h.Recurring?
    ensures Count(Without(ts, h), other) == Count(ts, other) && Outside(Without(ts, h)) == Outside(ts)
    ensures Count(Without(ts, h), h) == 0 && |ts| == |Without(ts, h)| + Count(ts, h)
  {
    hide Count, Without, Outside, Matching, Pruned;
    if ts == [] {
      UnfoldEmpty(h, 0, None);
      UnfoldEmpty(other, 0, None);
    } else {
      Unfold(ts, h, 0, None);
      Unfold(ts, other, 0, None);
      CountWithout(Init(ts), h, other);
      CountSnoc(Without(Init(ts), h), Last(ts), other);
      CountSnoc(Without(Init(ts), h), Last(ts), h);
    }
  }

  // ---------------------------------------------------------------- how many can stay

  function CountAll(ts: seq<Trigger>, hs: seq<Handler>): nat {
    if hs == [] then 0 else CountAll(ts, hs[..|hs| - 1]) + Count(ts, hs[|hs| - 1])
  }

  /** How many handlers of the list, other than one, have a trigger. */
  function Present(ts: seq<Trigger>, hs: seq<Handler>, except: Handler): nat {
    if hs == [] then 0
    else
      var h := hs[|hs| - 1];
      Present(ts, hs[..|hs| - 1], except) + if h != except && Count(ts, h) > 0 then 1 else 0
  }

  function Position(h: Handler): nat {
    match h
    case RegenPendingContracts => 0
    case RegenPendingContractsWatchdog => 1
    case SyncTemplateMasterDebounced => 2
    case ProcessCancelledTradeCleanup => 3
    case FlushDashboardStructureProjectionQueue => 4
    case RunPendingRegister => 5
    case RunPendingScheduleFormat => 6
    case Recurring(_) => 7
  }

  lemma Positions(h: Handler)
    requires !h.Recurring?
    ensures Position(h) < |ONE_SHOT| && ONE_SHOT[Position(h)] == h
    ensures forall i :: 0 <= i < |ONE_SHOT| && ONE_SHOT[i] == h ==> i == Position(h)
    ensures forall i :: 0 <= i < |ONE_SHOT| ==> !ONE_SHOT[i].Recurring?
  {
  }

  lemma {:induction false} CountAllSnoc(ts: seq<Trigger>, t: Trigger, n: nat)
    requires n <= |ONE_SHOT|
    ensures CountAll(ts + [t], ONE_SHOT[..n])
            == CountAll(ts, ONE_SHOT[..n]) + if !t.handler.Recurring? && Position(t.handler) < n then 1 else 0
  {
    if n == 0 {
    } else {
      assert ONE_SHOT[..n][..n - 1] == ONE_SHOT[..n - 1];
      CountAllSnoc(ts, t, n - 1);
      CountSnoc(ts, t, ONE_SHOT[n - 1]);
      Positions(ONE_SHOT[n - 1]);
      if !t.handler.Recurring? { Positions(t.handler); }
    }
  }

  /** Every trigger is either outside the list or counted under one of its handlers. */
  lemma {:induction false} CountsAddUp(ts: seq<Trigger>)
    ensures |ts| == |Outside(ts)| + CountAll(ts, ONE_SHOT)
  {
    assert ONE_SHOT[..|ONE_SHOT|] == ONE_SHOT;
    if ts == [] {
      CountAllEmpty(ONE_SHOT);
    } else {
      CountsAddUp(Init(ts));
      assert ts == Init(ts) + [Last(ts)];
      CountAllSnoc(Init(ts), Last(ts), |ONE_SHOT|);
      if !Last(ts).handler.Recurring? { Positions(Last(ts).handler); }
    }
  }

  lemma {:induction false} CountAllEmpty(hs: seq<Handler>)
    ensures CountAll([], hs) == 0
  {
    if hs != [] { CountAllEmpty(hs[..|hs| - 1]); }
  }

  /** What every handler but one having at most one trigger, and that one none, comes to. */
  lemma {:induction false} CountAllPresent(ts: seq<Trigger>, was: seq<Trigger>, hs: seq<Handler>, except: Handler)
    requires forall h :: h in hs ==> Count(ts, h) == if h == except || Count(was, h) == 0 then 0 else 1
    ensures CountAll(ts, hs) == Present(was, hs, except)
  {
    if hs != [] { CountAllPresent(ts, was, hs[..|hs| - 1], except); }
  }

  lemma {:induction false} CountAllAtLeast(ts: seq<Trigger>, hs: seq<Handler>, except: Handler)
    ensures CountAll(ts, hs) >= Present(ts, hs, except)
  {
    if hs != [] { CountAllAtLeast(ts, hs[..|hs| - 1], except); }
  }

  lemma {:induction false} PresentOf(ts: seq<Trigger>, was: seq<Trigger>, hs: seq<Handler>, except: Handler)
    requires forall h :: h in hs && h != except ==> (Count(ts, h) > 0 <==> Count(was, h) > 0)
    ensures Present(ts, hs, except) == Present(was, hs, except)
  {
    if hs != [] { PresentOf(ts, was, hs[..|hs| - 1], except); }
  }

  /** At most the six other handlers are present. */
  lemma PresentAtMostSix(ts: seq<Trigger>, except: Handler)
    requires !except.Recurring?
    ensures Present(ts, ONE_SHOT, except) <= 6
  {
    PresentBounded(ts, except, |ONE_SHOT|);
    Positions(except);
    assert ONE_SHOT[..|ONE_SHOT|] == ONE_SHOT;
  }

  lemma {:induction false} PresentBounded(ts: seq<Trigger>, except: Handler, n: nat)
    requires n <= |ONE_SHOT| && !except.Recurring?
    ensures Present(ts, ONE_SHOT[..n], except) <= n - if Position(except) < n then 1 else 0
  {
    if n > 0 {
      assert ONE_SHOT[..n][..n - 1] == ONE_SHOT[..n - 1];
      PresentBounded(ts, except, n - 1);
      Positions(except);
    }
  }

  // ---------------------------------------------------------------- the project's triggers

  /** No recurring trigger is touched, no other handler loses its last trigger, and the quota is respected. */
  ghost predicate Gentle(was: seq<Trigger>, now: seq<Trigger>, h: Handler) {
    && Outside(now) == Outside(was)
    && (forall g :: g != h && Count(was, g) > 0 ==> Count(now, g) > 0)
    && (|was| <= QUOTA ==> |now| <= QUOTA)
  }

  ghost predicate AllGentle(was: seq<Trigger>, past: seq<seq<Trigger>>, trail: seq<seq<Trigger>>, h: Handler) {
    past <= trail && forall i :: |past| <= i < |trail| ==> Gentle(was, trail[i], h)
  }

  /** A prune that has got as far as the trigger at n. */
  function Cut(ts: seq<Trigger>, n: nat, h: Handler, keep: nat, skip: Option<nat>): seq<Trigger>
    requires n <= |ts|
  {
    Pruned(ts[..n], h, keep, skip) + ts[n..]
  }

  predicate Midway(ts: seq<Trigger>, now: seq<Trigger>, h: Handler, keep: nat, skip: Option<nat>) {
    exists n :: 0 <= n <= |ts| && now == Cut(ts, n, h, keep, skip)
  }

  lemma MidwayAt(ts: seq<Trigger>, n: nat, h: Handler, keep: nat, skip: Option<nat>)
    requires n <= |ts|
    ensures Midway(ts, Cut(ts, n, h, keep, skip), h, keep, skip)
  {
  }

  lemma CutEnds(ts: seq<Trigger>, h: Handler, keep: nat, skip: Option<nat>)
    ensures Cut(ts, 0, h, keep, skip) == ts && Cut(ts, |ts|, h, keep, skip) == Pruned(ts, h, keep, skip)
    ensures Pruned(ts[..0], h, keep, skip) == [] && Matching(ts[..0], h, skip) == 0
  {
    assert ts[..|ts|] == ts;
  }

  lemma CutStep(ts: seq<Trigger>, n: nat, h: Handler, keep: nat, skip: Option<nat>)
    requires n < |ts|
    ensures var here := |Pruned(ts[..n], h, keep, skip)|; var now := Cut(ts, n, h, keep, skip);
      && here < |now|
      && (if Matches(ts[n], h, skip) && Matching(ts[..n], h, skip) >= keep
          then |Pruned(ts[..n + 1], h, keep, skip)| == here
               && Cut(ts, n + 1, h, keep, skip) == now[..here] + now[here + 1..]
          else |Pruned(ts[..n + 1], h, keep, skip)| == here + 1 && Cut(ts, n + 1, h, keep, skip) == now)
    ensures Matching(ts[..n + 1], h, skip) == Matching(ts[..n], h, skip) + if Matches(ts[n], h, skip) then 1 else 0
  {
    assert Init(ts[..n + 1]) == ts[..n] && Last(ts[..n + 1]) == ts[n];
    assert ts[n..] == [ts[n]] + ts[n + 1..];
  }

  class Project {
    var triggers: seq<Trigger>
    ghost var trail: seq<seq<Trigger>>

    method Delete(position: nat)
      requires position < |triggers|
      modifies this
      ensures triggers == old(triggers)[..position] + old(triggers)[position + 1..] && trail == old(trail) + [triggers]
    {
      triggers := triggers[..position] + triggers[position + 1..];
      trail := trail + [triggers];
    }

    /** `pruneOneShotTriggers_` over the listed triggers. */
    method Prune(h: Handler, keep: nat, skip: Option<nat>)
      modifies this
      ensures triggers == Pruned(old(triggers), h, keep, skip)
      ensures old(trail) <= trail
      ensures forall i :: |old(trail)| <= i < |trail| ==> Midway(old(triggers), trail[i], h, keep, skip)
    {
      hide Pruned, Matching, Midway;
      var all := triggers;
      ghost var past := trail;
      var kept, i, position := keep, 0, 0;
      CutEnds(all, h, keep, skip);
      while i < |all|
        invariant 0 <= i <= |all| && triggers == Cut(all, i, h, keep, skip)
        invariant position == |Pruned(all[..i], h, keep, skip)|
        invariant kept == if Matching(all[..i], h, skip) < keep then keep - Matching(all[..i], h, skip) else 0
        invariant past <= trail && forall j :: |past| <= j < |trail| ==> Midway(all, trail[j], h, keep, skip)
      {
        var t := all[i];
        CutStep(all, i, h, keep, skip);
        i := i + 1;
        if skip == Some(t.uid) || t.handler != h {
          position := position + 1;
          continue;
        }
        if kept > 0 {
          kept, position := kept - 1, position + 1;
          continue;
        }
        Delete(position);
        MidwayAt(all, i, h, keep, skip);
      }
    }

    /** A prune that leaves every handler but `replaced` a trigger is gentle after each of its deletions. */
    method PruneGently(h: Handler, keep: nat, skip: Option<nat>, replaced: Handler)
      requires !h.Recurring? && (h == replaced || (keep > 0 && skip == None))
      modifies this
      ensures triggers == Pruned(old(triggers), h, keep, skip) && forall t :: t in triggers ==> t in old(triggers)
      ensures NeverNone(old(triggers), old(trail), trail, h, keep, skip)
      ensures Gentle(old(triggers), triggers, replaced) && AllGentle(old(triggers), old(trail), trail, replaced)
    {
      ghost var was, past := triggers, trail;
      Prune(h, keep, skip);
      MidwayNeverNone(was, past, trail, h, keep, skip);
      PrunedSubset(was, h, keep, skip);
      CutEnds(was, h, keep, skip);
      MidPruneGentle(was, |was|, h, keep, skip, replaced);
      forall i | |past| <= i < |trail|
        ensures Gentle(was, trail[i], replaced)
      {
        var n :| 0 <= n <= |was| && trail[i] == Cut(was, n, h, keep, skip);
        MidPruneGentle(was, n, h, keep, skip, replaced);
      }
    }

    /** `pruneAllOneShotTriggers_`. */
    method PruneAll(except: Handler)
      requires !except.Recurring?
      modifies this
      ensures forall t :: t in triggers ==> t in old(triggers)
      ensures Gentle(old(triggers), triggers, except) && AllGentle(old(triggers), old(trail), trail, except)
      ensures forall h :: h in ONE_SHOT ==>
                Count(triggers, h) == if h == except || Count(old(triggers), h) == 0 then 0 else 1
    {
      hide Gentle, Count, Pruned, Outside;
      ghost var was, past := triggers, trail;
      GentleStart(was, past, except);
      var i := 0;
      while i < |ONE_SHOT|
        invariant 0 <= i <= |ONE_SHOT| && forall t :: t in triggers ==> t in was
        invariant Gentle(was, triggers, except) && AllGentle(was, past, trail, except)
        invariant forall j :: 0 <= j < i ==>
                    Count(triggers, ONE_SHOT[j])
                    == if ONE_SHOT[j] == except || Count(was, ONE_SHOT[j]) == 0 then 0 else 1
        invariant forall j :: i <= j < |ONE_SHOT| ==> Count(triggers, ONE_SHOT[j]) == Count(was, ONE_SHOT[j])
      {
        var h := ONE_SHOT[i];
        Positions(h);
        ghost var before, middle := triggers, trail;
        PruneGently(h, if h == except then 0 else 1, None, except);
        GentleOn(was, before, triggers, past, middle, trail, except);
        PrunedKeeps(before, h, if h == except then 0 else 1, None);
        PrunedCount(before, h, if h == except then 0 else 1);
        forall j | 0 <= j < |ONE_SHOT| && j != i
          ensures Count(triggers, ONE_SHOT[j]) == Count(before, ONE_SHOT[j])
        {
          Positions(ONE_SHOT[j]);
          CountWithout(triggers, h, ONE_SHOT[j]);
          CountWithout(before, h, ONE_SHOT[j]);
        }
        i := i + 1;
      }
      forall h | h in ONE_SHOT
        ensures Count(triggers, h) == if h == except || Count(was, h) == 0 then 0 else 1
      {
        var j :| 0 <= j < |ONE_SHOT| && ONE_SHOT[j] == h;
      }
    }

    method Create(h: Handler, uid: nat) returns (created: bool)
      requires !h.Recurring?
      modifies this
      ensures created <==> |old(triggers)| < QUOTA
      ensures triggers == if created then old(triggers) + [Trigger(uid, h)] else old(triggers)
      ensures created ==> trail == old(trail) + [triggers]
      ensures Gentle(old(triggers), triggers, h) && AllGentle(old(triggers), old(trail), trail, h)
    {
      created := |triggers| < QUOTA;
      if created {
        CreateGentle(triggers, Trigger(uid, h));
        triggers := triggers + [Trigger(uid, h)];
        trail := trail + [triggers];
      }
    }

    /** `replaceOneShotTrigger_`, undisturbed: on success exactly one trigger of the handler is left, the new one; a
        refusal by the quota, even after the clean-up, leaves it none. */
    method Replace(h: Handler, uid: nat) returns (created: bool)
      requires !h.Recurring? && forall t :: t in triggers ==> t.uid != uid
      modifies this
      ensures Gentle(old(triggers), triggers, h) && AllGentle(old(triggers), old(trail), trail, h)
      ensures created <==> |Outside(old(triggers))| + Present(old(triggers), ONE_SHOT, h) < QUOTA
      ensures Count(triggers, h) == if created then 1 else 0
      ensures created ==> triggers == Without(triggers, h) + [Trigger(uid, h)]
      ensures |old(triggers)| < QUOTA ==> Without(triggers, h) == Without(old(triggers), h)
      ensures Count(old(triggers), h) > 0 && |Without(old(triggers), h)| + 1 < QUOTA ==>
                forall i :: |old(trail)| <= i < |trail| ==> Count(trail[i], h) > 0
    {
      hide Gentle, AllGentle, NeverNone, Count, Pruned, Outside, Without, Present, ONE_SHOT;
      ghost var was, past := triggers, trail;
      GentleStart(was, past, h);
      PruneGently(h, 1, None, h);
      GentleOn(was, was, triggers, past, past, trail, h);
      ghost var first, early, middle := triggers, trail, trail;
      PrunedKeeps(was, h, 1, None);
      FirstSize(was, h);
      created := Create(h, uid);
      GentleOn(was, first, triggers, past, middle, trail, h);
      ghost var base := first;
      if created {
        RoomIfSmall(was, first, h);
      } else {
        middle := trail;
        PruneAll(h);
        GentleOn(was, first, triggers, past, middle, trail, h);
        base, middle := triggers, trail;
        RoomAfterPruneAll(was, first, base, h);
        created := Create(h, uid);
        GentleOn(was, base, triggers, past, middle, trail, h);
        if !created { return; }
      }
      middle := trail;
      PruneGently(h, 0, Some(uid), h);
      if Count(was, h) > 0 && |Without(was, h)| + 1 < QUOTA {
        NoWindow(was, first, past, early, trail, h, uid);
      }
      GentleOn(was, base + [Trigger(uid, h)], triggers, past, middle, trail, h);
      ReplacedLast(base, h, uid);
    }
  }

  /** Room is certain when no more than 13 triggers lie outside the list of one-shot handlers. */
  lemma RoomForThirteenOutside(ts: seq<Trigger>, h: Handler)
    requires !h.Recurring? && |Outside(ts)| <= 13
    ensures |Outside(ts)| + Present(ts, ONE_SHOT, h) < QUOTA
  {
    PresentAtMostSix(ts, h);
  }

  lemma {:induction false} PrunedSubset(ts: seq<Trigger>, h: Handler, keep: nat, skip: Option<nat>)
    ensures forall t :: t in Pruned(ts, h, keep, skip) ==> t in ts
  {
    if ts != [] { PrunedSubset(Init(ts), h, keep, skip); }
  }

  lemma {:induction false} WithoutTwice(ts: seq<Trigger>, h: Handler)
    ensures Without(Without(ts, h), h) == Without(ts, h) && Count(Without(ts, h), h) == 0
  {
    hide Count, Without, Outside, Matching, Pruned;
    if ts == [] {
      UnfoldEmpty(h, 0, None);
    } else {
      Unfold(ts, h, 0, None);
      WithoutTwice(Init(ts), h);
      CountSnoc(Without(Init(ts), h), Last(ts), h);
    }
  }

  lemma ReplacedLast(base: seq<Trigger>, h: Handler, uid: nat)
    requires forall t :: t in base ==> t.uid != uid
    ensures var now := Pruned(base + [Trigger(uid, h)], h, 0, Some(uid));
      now == Without(base, h) + [Trigger(uid, h)] && Without(now, h) == Without(base, h) && Count(now, h) == 1
  {
    var t := Trigger(uid, h);
    assert Init(base + [t]) == base && Last(base + [t]) == t;
    PrunedButOne(base, h, uid);
    WithoutTwice(base, h);
    CountSnoc(Without(base, h), t, h);
  }

  lemma SamePresence(was: seq<Trigger>, first: seq<Trigger>, h: Handler)
    requires !h.Recurring? && Without(first, h) == Without(was, h)
    ensures Outside(first) == Outside(was) && Present(first, ONE_SHOT, h) == Present(was, ONE_SHOT, h)
  {
    SameOutside(was, first, h);
    forall g | g != h
      ensures Count(first, g) == Count(was, g)
    {
      CountWithout(was, h, g);
      CountWithout(first, h, g);
    }
    PresentOf(first, was, ONE_SHOT, h);
  }

  lemma RoomIfSmall(was: seq<Trigger>, first: seq<Trigger>, h: Handler)
    requires !h.Recurring? && Without(first, h) == Without(was, h) && |first| < QUOTA
    ensures |Outside(was)| + Present(was, ONE_SHOT, h) < QUOTA
  {
    SamePresence(was, first, h);
    CountsAddUp(first);
    CountAllAtLeast(first, ONE_SHOT, h);
  }

  /** After the clean-up there are as many triggers as recurring ones and other one-shot handlers present. */
  lemma RoomAfterPruneAll(was: seq<Trigger>, first: seq<Trigger>, now: seq<Trigger>, h: Handler)
    requires !h.Recurring? && Without(first, h) == Without(was, h) && Gentle(first, now, h)
    requires forall g :: g in ONE_SHOT ==> Count(now, g) == if g == h || Count(first, g) == 0 then 0 else 1
    ensures |now| == |Outside(was)| + Present(was, ONE_SHOT, h)
    ensures Count(now, h) == 0
  {
    SamePresence(was, first, h);
    CountsAddUp(now);
    CountAllPresent(now, first, ONE_SHOT, h);
    Positions(h);
    assert h in ONE_SHOT;
  }

  lemma {:induction false} CountConcat(a: seq<Trigger>, b: seq<Trigger>, h: Handler)
    ensures Count(a + b, h) == Count(a, h) + Count(b, h) && Without(a + b, h) == Without(a, h) + Without(b, h)
    decreases |b|
  {
    hide Count, Without, Outside, Matching, Pruned;
    if b == [] {
      UnfoldEmpty(h, 0, None);
      assert a + b == a && Without(a, h) + [] == Without(a, h);
    } else {
      Unfold(b, h, 0, None);
      CountConcat(a, Init(b), h);
      assert a + b == (a + Init(b)) + [Last(b)] && b == Init(b) + [Last(b)];
      CountSnoc(a + Init(b), Last(b), h);
    }
  }

  lemma MidPruneGentle(ts: seq<Trigger>, n: nat, h: Handler, keep: nat, skip: Option<nat>, replaced: Handler)
    requires n <= |ts| && !h.Recurring? && (h == replaced || (keep > 0 && skip == None))
    ensures Gentle(ts, Cut(ts, n, h, keep, skip), replaced)
  {
    var mid := Pruned(ts[..n], h, keep, skip) + ts[n..];
    assert ts == ts[..n] + ts[n..];
    PrunedKeeps(ts[..n], h, keep, skip);
    CountConcat(ts[..n], ts[n..], h);
    CountConcat(Pruned(ts[..n], h, keep, skip), ts[n..], h);
    SameOutside(ts, mid, h);
    forall g | g != replaced && Count(ts, g) > 0
      ensures Count(mid, g) > 0
    {
      if g == h {
        PrunedCount(ts[..n], h, keep);
      } else {
        CountWithout(ts, h, g);
        CountWithout(mid, h, g);
      }
    }
  }

  /** Where a prune leaves a handler a trigger, it has one after each deletion. */
  ghost predicate NeverNone(was: seq<Trigger>, past: seq<seq<Trigger>>, trail: seq<seq<Trigger>>, h: Handler, keep: nat,
                            skip: Option<nat>) {
    past <= trail
    && (Stays(was, h, keep, skip) ==> forall i :: |past| <= i < |trail| ==> Count(trail[i], h) > 0)
  }

  ghost predicate Stays(was: seq<Trigger>, h: Handler, keep: nat, skip: Option<nat>) {
    (keep > 0 && skip == None && Count(was, h) > 0) || exists t :: t in was && t.handler == h && skip == Some(t.uid)
  }

  lemma MidwayNeverNone(was: seq<Trigger>, past: seq<seq<Trigger>>, trail: seq<seq<Trigger>>, h: Handler, keep: nat,
                        skip: Option<nat>)
    requires past <= trail && forall i :: |past| <= i < |trail| ==> Midway(was, trail[i], h, keep, skip)
    ensures NeverNone(was, past, trail, h, keep, skip)
  {
    hide Count, Pruned, Matching;
    if Stays(was, h, keep, skip) {
      forall i | |past| <= i < |trail|
        ensures Count(trail[i], h) > 0
      {
        var n :| 0 <= n <= |was| && trail[i] == Cut(was, n, h, keep, skip);
        CutStays(was, n, h, keep, skip);
      }
    }
  }

  lemma CutStays(ts: seq<Trigger>, n: nat, h: Handler, keep: nat, skip: Option<nat>)
    requires n <= |ts| && Stays(ts, h, keep, skip)
    ensures Count(Cut(ts, n, h, keep, skip), h) > 0
  {
    assert ts == ts[..n] + ts[n..];
    CountConcat(ts[..n], ts[n..], h);
    CountConcat(Pruned(ts[..n], h, keep, skip), ts[n..], h);
    if keep > 0 && skip == None && Count(ts, h) > 0 {
      PrunedCount(ts[..n], h, keep);
    } else {
      var t :| t in ts && t.handler == h && skip == Some(t.uid);
      SkippedStays(ts[..n], t, h, keep);
      if t in ts[..n] { CountsOne(Pruned(ts[..n], h, keep, skip), t); } else { CountsOne(ts[n..], t); }
    }
  }

  lemma {:induction false} SkippedStays(ts: seq<Trigger>, t: Trigger, h: Handler, keep: nat)
    ensures t in ts ==> t in Pruned(ts, h, keep, Some(t.uid))
  {
    if ts != [] {
      SkippedStays(Init(ts), t, h, keep);
      assert ts == Init(ts) + [Last(ts)];
    }
  }

  lemma {:induction false} CountsOne(ts: seq<Trigger>, t: Trigger)
    requires t in ts
    ensures Count(ts, t.handler) > 0
  {
    assert ts == Init(ts) + [Last(ts)];
    if t != Last(ts) { CountsOne(Init(ts), t); }
  }

  lemma FirstSize(was: seq<Trigger>, h: Handler)
    ensures Count(was, h) > 0 ==> |Pruned(was, h, 1, None)| == |Without(was, h)| + 1
  {
    PrunedKeeps(was, h, 1, None);
    PrunedCount(was, h, 1);
    SizeOf(Pruned(was, h, 1, None), h);
  }

  /** First prune, creation and last prune: the handler has a trigger all the time. */
  lemma NoWindow(was: seq<Trigger>, first: seq<Trigger>, past: seq<seq<Trigger>>, early: seq<seq<Trigger>>,
                 trail: seq<seq<Trigger>>, h: Handler, uid: nat)
    requires Count(was, h) > 0 && NeverNone(was, past, early, h, 1, None)
    requires var both := first + [Trigger(uid, h)]; NeverNone(both, early + [both], trail, h, 0, Some(uid))
    ensures forall i :: |past| <= i < |trail| ==> Count(trail[i], h) > 0
  {
    hide Count;
    var both := first + [Trigger(uid, h)];
    assert Stays(was, h, 1, None);
    assert Trigger(uid, h) in both;
    assert Stays(both, h, 0, Some(uid));
    CountsOne(both, Trigger(uid, h));
    forall i | |past| <= i < |trail|
      ensures Count(trail[i], h) > 0
    {
      if i <= |early| { assert trail[i] == (early + [both])[i]; }
    }
  }

  lemma {:induction false} SizeOf(ts: seq<Trigger>, h: Handler)
    ensures |ts| == |Without(ts, h)| + Count(ts, h)
  {
    if ts != [] { SizeOf(Init(ts), h); }
  }

  lemma CreateGentle(ts: seq<Trigger>, t: Trigger)
    requires |ts| < QUOTA && !t.handler.Recurring?
    ensures Gentle(ts, ts + [t], t.handler)
  {
    CountSnoc(ts, t, t.handler);
    forall g | g != t.handler
      ensures Count(ts + [t], g) == Count(ts, g)
    {
      CountSnoc(ts, t, g);
    }
  }

  lemma SameOutside(a: seq<Trigger>, b: seq<Trigger>, h: Handler)
    requires !h.Recurring? && Without(a, h) == Without(b, h)
    ensures Outside(a) == Outside(b)
  {
    CountWithout(a, h, Recurring(0));
    CountWithout(b, h, Recurring(0));
  }

  lemma GentleStart(was: seq<Trigger>, past: seq<seq<Trigger>>, h: Handler)
    ensures Gentle(was, was, h) && AllGentle(was, past, past, h)
  {
  }

  lemma GentleTwice(a: seq<Trigger>, b: seq<Trigger>, c: seq<Trigger>, h: Handler)
    requires Gentle(a, b, h) && Gentle(b, c, h)
    ensures Gentle(a, c, h)
  {
  }

  lemma GentleOn(was: seq<Trigger>, before: seq<Trigger>, now: seq<Trigger>, past: seq<seq<Trigger>>,
                 middle: seq<seq<Trigger>>, trail: seq<seq<Trigger>>, h: Handler)
    requires Gentle(was, before, h) && Gentle(before, now, h)
    requires AllGentle(was, past, middle, h) && AllGentle(before, middle, trail, h)
    ensures Gentle(was, now, h) && AllGentle(was, past, trail, h)
  {
    hide Gentle;
    GentleTwice(was, before, now, h);
    forall i | |past| <= i < |trail|
      ensures Gentle(was, trail[i], h)
    {
      if i < |middle| {
        assert trail[i] == middle[i];
      } else {
        GentleTwice(was, before, trail[i], h);
      }
    }
  }
}
