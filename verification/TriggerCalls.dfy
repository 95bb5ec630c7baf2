/** Overlapping calls of `replaceOneShotTrigger_` (Code.js:1405-1475). It takes no lock; edits, workers and the rescue
    call it at any time (Code.js:1497, 1552, 1799, 1827, 1989), and a handler is cleared besides (Code.js:1548, 2094). A
    listing, a deletion and a creation are one step each, and a call can end at any point. Assumed: as in Triggers, and
    deleting a trigger that is already gone changes nothing (its error is swallowed, Code.js:1435). */
module TriggerCalls {

  import opened Basics
  import opened Triggers

  // ---------------------------------------------------------------- one listing

  /** The triggers a prune deletes once it has listed ts. */
  function Doomed(ts: seq<Trigger>, h: Handler, keep: nat, skip: Option<nat>): seq<nat> {
    if ts == [] then []
    else
      var before := Doomed(Init(ts), h, keep, skip);
      if Matches(Last(ts), h, skip) && Matching(Init(ts), h, skip) >= keep then before + [Last(ts).uid] else before
  }

  function Removed(ts: seq<Trigger>, uid: nat): seq<Trigger> {
    if ts == [] then []
    else if Last(ts).uid == uid then Removed(Init(ts), uid)
    else Removed(Init(ts), uid) + [Last(ts)]
  }

  /** The longest standing trigger of a handler. */
  function Eldest(ts: seq<Trigger>, h: Handler): Option<nat> {
    if ts == [] then None
    else if Eldest(Init(ts), h).Some? then Eldest(Init(ts), h)
    else if Last(ts).handler == h then Some(Last(ts).uid)
    else None
  }

  ghost predicate Distinct(ts: seq<Trigger>) {
    forall i, j :: 0 <= i < j < |ts| ==> ts[i].uid != ts[j].uid
  }

  lemma Parts(ts: seq<Trigger>)
    requires ts != []
    ensures ts == Init(ts) + [Last(ts)] && Last(ts) in ts && forall t :: t in ts <==> t in Init(ts) || t == Last(ts)
    ensures Distinct(ts) ==> Distinct(Init(ts)) && forall t :: t in Init(ts) ==> t.uid != Last(ts).uid
  {
    assert ts == Init(ts) + [Last(ts)];
  }

  lemma SameUid(ts: seq<Trigger>, s: Trigger, t: Trigger)
    requires Distinct(ts) && s in ts && t in ts && s.uid == t.uid
    ensures s == t
  {
    var i :| 0 <= i < |ts| && ts[i] == s;
    var j :| 0 <= j < |ts| && ts[j] == t;
    assert !(i < j) && !(j < i);
  }

  /** Only matching triggers are doomed, and with nothing to keep all of them. */
  lemma {:induction false} DoomedIs(ts: seq<Trigger>, h: Handler, keep: nat, skip: Option<nat>)
    ensures forall u :: u in Doomed(ts, h, keep, skip) ==> exists t :: t in ts && t.uid == u && Matches(t, h, skip)
    ensures keep == 0 ==> forall t :: t in ts && Matches(t, h, skip) ==> t.uid in Doomed(ts, h, keep, skip)
  {
    if ts != [] {
      DoomedIs(Init(ts), h, keep, skip);
      Parts(ts);
    }
  }

  lemma {:induction false} RemovedIs(ts: seq<Trigger>, uid: nat)
    ensures forall t :: t in Removed(ts, uid) <==> t in ts && t.uid != uid
    ensures |Removed(ts, uid)| <= |ts| && (Distinct(ts) ==> Distinct(Removed(ts, uid)))
  {
    if ts != [] {
      RemovedIs(Init(ts), uid);
      Parts(ts);
    }
  }

  lemma {:induction false} RemovedOutside(ts: seq<Trigger>, uid: nat)
    requires forall t :: t in ts && t.handler.Recurring? ==> t.uid != uid
    ensures Outside(Removed(ts, uid)) == Outside(ts)
  {
    hide Count, Without;
    if ts != [] {
      Parts(ts);
      RemovedOutside(Init(ts), uid);
      CountSnoc(Removed(Init(ts), uid), Last(ts), Recurring(0));
    }
  }

  lemma {:induction false} CountOne(ts: seq<Trigger>, h: Handler, uid: nat)
    requires Distinct(ts) && forall t :: t in ts && t.handler == h ==> t.uid == uid
    ensures Count(ts, h) == if Trigger(uid, h) in ts then 1 else 0
  {
    if ts != [] {
      Parts(ts);
      CountOne(Init(ts), h, uid);
    }
  }

  // ---------------------------------------------------------------- the system

  /** What a call does once its deletions are through: list for the first, a clean-up, the last or a clearing prune,
      or create. A second failure to create throws. */
  datatype Phase =
    | Converging
    | Creating(retry: bool)
    | Sweeping(next: nat)
    | Settling
    | Clearing
    | Done
    | Thrown
    | Killed

  /** `doomed` are the listed triggers still to delete; `made`, `first` and `cleared` are the numbers of the steps that
      created, that listed first, and that last listed all triggers of the call's own handler (0 for none). */
  datatype Call = Call(handler: Handler, phase: Phase, doomed: seq<nat>, made: Option<nat>, first: nat, cleared: nat)

  datatype Made = Made(call: nat, uid: nat)

  /** Steps are numbered by `now`, and a number names what its step starts or creates. As history: the last trigger
      created for each handler, every trigger ever listed for deletion, and when another handler's clean-up last
      listed a handler. */
  datatype World = World(triggers: seq<Trigger>, calls: map<nat, Call>, now: nat, last: map<Handler, Made>,
                         listed: set<nat>, swept: map<Handler, nat>)

  datatype Step =
    | Replace(h: Handler)
    | Clear(h: Handler)
    | List(call: nat)
    | Delete(call: nat)
    | Create(call: nat)
    | Kill(call: nat)

  predicate Lists(phase: Phase) {
    phase.Converging? || (phase.Sweeping? && phase.next < |ONE_SHOT|) || phase.Settling? || phase.Clearing?
  }

  predicate Ended(call: Call) {
    call.doomed == [] && (call.phase.Done? || call.phase.Thrown?)
  }

  ghost predicate Enabled(w: World, step: Step) {
    match step
    case Replace(h) => !h.Recurring?
    case Clear(h) => !h.Recurring?
    case List(c) => c in w.calls && w.calls[c].doomed == [] && Lists(w.calls[c].phase)
    case Delete(c) => c in w.calls && w.calls[c].doomed != [] && !w.calls[c].phase.Killed?
    case Create(c) => c in w.calls && w.calls[c].doomed == [] && w.calls[c].phase.Creating?
    case Kill(c) => c in w.calls && !Ended(w.calls[c])
  }

  /** The handler a listing is for, how many of its triggers it keeps, and which it skips. */
  function Target(call: Call): Handler {
    if call.phase.Sweeping? && call.phase.next < |ONE_SHOT| then ONE_SHOT[call.phase.next] else call.handler
  }

  function Keep(call: Call): nat {
    if call.phase.Converging? || (call.phase.Sweeping? && Target(call) != call.handler) then 1 else 0
  }

  function Skip(call: Call): Option<nat> {
    if call.phase.Settling? then call.made else None
  }

  function Following(phase: Phase): Phase {
    match phase
    case Converging => Creating(false)
    case Sweeping(i) => if i + 1 < |ONE_SHOT| then Sweeping(i + 1) else Creating(true)
    case Settling => Done
    case Clearing => Done
    case _ => phase
  }

  function Doom(w: World, call: Call): seq<nat> {
    Doomed(w.triggers, Target(call), Keep(call), Skip(call))
  }

  function Listing(w: World, call: Call): Call {
    Call(call.handler, Following(call.phase), Doom(w, call), call.made,
         if call.phase.Converging? then w.now else call.first, if Keep(call) == 0 then w.now else call.cleared)
  }

  function Elements(s: seq<nat>): set<nat> {
    set u | u in s
  }

  ghost function Apply(w: World, step: Step): World
    requires Enabled(w, step)
  {
    var v := w.(now := w.now + 1);
    match step
    case Replace(h) => v.(calls := w.calls[w.now := Call(h, Converging, [], None, 0, 0)])
    case Clear(h) => v.(calls := w.calls[w.now := Call(h, Clearing, [], None, 0, 0)])
    case List(c) =>
      var call := w.calls[c];
      v.(calls := w.calls[c := Listing(w, call)],
         listed := w.listed + Elements(Doom(w, call)),
         swept := if Target(call) == call.handler then w.swept else w.swept[Target(call) := w.now])
    case Delete(c) =>
      v.(triggers := Removed(w.triggers, w.calls[c].doomed[0]),
         calls := w.calls[c := w.calls[c].(doomed := w.calls[c].doomed[1..])])
    case Create(c) =>
      var call := w.calls[c];
      if |w.triggers| < QUOTA then
        v.(triggers := w.triggers + [Trigger(w.now, call.handler)],
           calls := w.calls[c := call.(phase := Settling, made := Some(w.now))],
           last := w.last[call.handler := Made(c, w.now)])
      else
        v.(calls := w.calls[c := call.(phase := if call.phase.retry then Thrown else Sweeping(0))])
    case Kill(c) => v.(calls := w.calls[c := w.calls[c].(phase := Killed)])
  }

  predicate Acts(step: Step, c: nat) {
    (step.List? || step.Delete? || step.Create?) && step.call == c
  }

  /** A killed call does nothing more, and neither does one that has thrown: it throws when even after its clean-up 20
      triggers exist. */
  lemma CallsEnd(w: World, c: nat, next: Step)
    requires Enabled(w, Kill(c)) || Enabled(w, Create(c))
    ensures Enabled(w, Kill(c)) && Acts(next, c) ==> !Enabled(Apply(w, Kill(c)), next)
    ensures Enabled(w, Create(c)) && |w.triggers| >= QUOTA ==>
      var v := Apply(w, Create(c));
      && v.triggers == w.triggers && v.calls[c].made == w.calls[c].made
      && (w.calls[c].phase.retry && Acts(next, c) ==> !Enabled(v, next))
      && (!w.calls[c].phase.retry ==> Enabled(v, List(c)))
  {
    hide Doom, Removed, Distinct;
  }

  // ---------------------------------------------------------------- what every step keeps

  ghost predicate Numbered(w: World) {
    && Distinct(w.triggers)
    && (forall t :: t in w.triggers ==> t.uid < w.now)
    && (forall u :: u in w.listed ==> u < w.now)
    && (forall c :: c in w.calls ==> c < w.now && w.calls[c].first < w.now && w.calls[c].cleared < w.now)
    && (forall c :: c in w.calls && w.calls[c].made.Some? ==> w.calls[c].made.value < w.now)
  }

  /** Where a call stands, and what it has done by then. */
  ghost predicate Ordered(call: Call) {
    && !call.handler.Recurring?
    && (call.phase.Sweeping? ==> call.phase.next < |ONE_SHOT|)
    && (call.phase.Settling? ==> call.made.Some?)
    && (call.made.Some? ==> call.phase.Settling? || call.phase.Done? || call.phase.Killed?)
    && (call.cleared > 0 ==> call.first < call.cleared)
    && (call.phase.Converging? || call.phase.Clearing? ==> call.cleared == 0 && call.first == 0)
    && (call.phase == Creating(true) || call.phase.Done? || call.phase.Thrown? ==> call.cleared > 0)
    && (call.phase.Sweeping? && call.phase.next > Position(call.handler) ==> call.cleared > 0)
    && (call.phase.Done? && call.made.Some? ==> call.made.value < call.cleared)
  }

  ghost predicate Phased(w: World) {
    forall c :: c in w.calls ==> Ordered(w.calls[c])
  }

  predicate On(w: World, h: Handler, c: nat) {
    c in w.calls && w.calls[c].handler == h
  }

  /** The last creation for h belongs to one of its calls. */
  ghost predicate Recorded(w: World, h: Handler) {
    h in w.last ==>
      var m := w.last[h];
      m.call < m.uid < w.now && On(w, h, m.call) && w.calls[m.call].made == Some(m.uid)
  }

  /** No call of h made a later one. */
  ghost predicate NoneLater(w: World, h: Handler) {
    forall c :: On(w, h, c) && w.calls[c].made.Some? ==>
      h in w.last && w.calls[c].made.value <= w.last[h].uid
      && (w.calls[c].made.value == w.last[h].uid ==> c == w.last[h].call)
  }

  /** No trigger of h is younger than the last one created for it, and that one is there until somebody lists it. */
  ghost predicate Youngest(w: World, h: Handler) {
    h in w.last ==>
      && (forall t :: t in w.triggers && t.handler == h ==> t.uid <= w.last[h].uid)
      && (forall t :: t in w.triggers && t.uid == w.last[h].uid ==> t.handler == h)
      && (w.last[h].uid !in w.listed ==> Trigger(w.last[h].uid, h) in w.triggers)
  }

  predicate Dooms(w: World, c: nat, uid: nat) {
    c in w.calls && uid in w.calls[c].doomed
  }

  /** What is to be deleted was listed, and what was listed and is still there is to be deleted. */
  ghost predicate Pending(w: World) {
    && (forall c, u :: Dooms(w, c, u) ==> u in w.listed)
    && (forall t :: t in w.triggers && t.uid in w.listed ==> exists c :: Dooms(w, c, t.uid))
  }

  /** The creator's last listing leaves no other trigger of the handler out. */
  ghost predicate Settled(w: World, h: Handler) {
    h in w.last && w.last[h].call in w.calls && w.calls[w.last[h].call].phase.Done? ==>
      forall t :: t in w.triggers && t.handler == h && t.uid != w.last[h].uid ==> Dooms(w, w.last[h].call, t.uid)
  }

  /** A call on h, other than the creator of its last trigger. */
  predicate Other(w: World, h: Handler, c: nat) {
    On(w, h, c) && h in w.last && c != w.last[h].call
  }

  predicate SweptSince(w: World, h: Handler) {
    h in w.swept && h in w.last && w.last[h].uid < w.swept[h]
  }

  predicate ListedSince(w: World, h: Handler, c: nat) {
    Other(w, h, c) && (w.last[h].uid < w.calls[c].first || w.last[h].uid < w.calls[c].cleared)
  }

  /** Another call that has listed all triggers of the handler since has listed the last one. */
  ghost predicate HitByOthers(w: World, h: Handler) {
    forall c :: Other(w, h, c) && w.last[h].uid <= w.calls[c].cleared ==> w.last[h].uid in w.listed
  }

  /** Who has listed it is another call of the handler, or a clean-up. */
  ghost predicate OnlyByOthers(w: World, h: Handler) {
    h in w.last && w.last[h].uid in w.listed && !SweptSince(w, h) ==> exists c :: ListedSince(w, h, c)
  }

  ghost predicate StrangersSwept(w: World, h: Handler) {
    forall c :: h in w.last && Dooms(w, c, w.last[h].uid) && !On(w, h, c) ==> SweptSince(w, h)
  }

  ghost predicate NoneOutside(w: World) {
    forall c, t :: t in w.triggers && t.handler.Recurring? ==> !Dooms(w, c, t.uid)
  }

  ghost predicate Inv(w: World, h: Handler) {
    && Numbered(w) && Phased(w) && Pending(w) && NoneOutside(w)
    && Recorded(w, h) && NoneLater(w, h) && Youngest(w, h) && Settled(w, h)
    && HitByOthers(w, h) && OnlyByOthers(w, h) && StrangersSwept(w, h)
  }

  /** What a listing dooms, and what a deletion removes, in the terms of the invariant. */
  lemma StepFacts(w: World, step: Step)
    requires Enabled(w, step)
    ensures step.List? ==>
      var call := w.calls[step.call]; var doom := Doom(w, call);
      && (forall u :: u in doom ==>
            exists t :: t in w.triggers && t.uid == u && t.handler == Target(call) && Skip(call) != Some(u))
      && (Keep(call) == 0 ==>
            forall t :: t in w.triggers && t.handler == Target(call) && Skip(call) != Some(t.uid) ==> t.uid in doom)
    ensures step.Delete? ==>
      var now := Removed(w.triggers, w.calls[step.call].doomed[0]);
      && (forall t :: t in now <==> t in w.triggers && t.uid != w.calls[step.call].doomed[0])
      && |now| <= |w.triggers| && (Distinct(w.triggers) ==> Distinct(now))
  {
    hide Doomed, Removed;
    if step.List? {
      var call := w.calls[step.call];
      DoomedIs(w.triggers, Target(call), Keep(call), Skip(call));
    } else if step.Delete? {
      RemovedIs(w.triggers, w.calls[step.call].doomed[0]);
    }
  }

  predicate Creates(w: World, step: Step) {
    step.Create? && |w.triggers| < QUOTA
  }

  /** What a step makes of one call. */
  lemma CallAfter(w: World, step: Step, c: nat)
    requires Enabled(w, step)
    ensures var v := Apply(w, step);
      && (c in v.calls <==> c in w.calls || (c == w.now && (step.Replace? || step.Clear?)))
      && (c in v.calls && c !in w.calls ==>
            v.calls[c].made == None && v.calls[c].first == v.calls[c].cleared == 0 && !v.calls[c].phase.Done?)
    ensures c in w.calls && c < w.now ==>
      var was, now := w.calls[c], Apply(w, step).calls[c];
      && now.handler == was.handler
      && now.made == (if step == Create(c) && Creates(w, step) then Some(w.now) else was.made)
      && now.first == (if step == List(c) && was.phase.Converging? then w.now else was.first)
      && now.cleared == (if step == List(c) && Keep(was) == 0 then w.now else was.cleared)
      && (now.phase.Done? ==> was.phase.Done? || (step == List(c) && (was.phase.Settling? || was.phase.Clearing?)))
  {
    hide Doom, Removed, Target, Keep, Skip, Elements;
  }

  /** What it makes of the rest. */
  lemma RestAfter(w: World, step: Step)
    requires Enabled(w, step)
    ensures var v := Apply(w, step);
      && v.now == w.now + 1
      && v.last == (if Creates(w, step) then w.last[w.calls[step.call].handler := Made(step.call, w.now)] else w.last)
      && v.listed == (if step.List? then w.listed + Elements(Doom(w, w.calls[step.call])) else w.listed)
      && v.swept == if step.List? && Target(w.calls[step.call]) != w.calls[step.call].handler
                    then w.swept[Target(w.calls[step.call]) := w.now] else w.swept
    ensures step.List? ==> step.call in w.calls && Lists(w.calls[step.call].phase)
    ensures step.Delete? ==> step.call in w.calls && w.calls[step.call].doomed != []
    ensures step.Create? ==> step.call in w.calls && w.calls[step.call].phase.Creating?
  {
    hide Doom, Removed, Target, Keep, Skip, Following, Elements;
  }

  lemma TriggersAfter(w: World, step: Step)
    requires Enabled(w, step)
    ensures forall t :: t in Apply(w, step).triggers <==>
      (t in w.triggers && (step.Delete? ==> t.uid != w.calls[step.call].doomed[0]))
      || (Creates(w, step) && t == Trigger(w.now, w.calls[step.call].handler))
  {
    hide Doom, Removed, Target, Keep, Skip, Following, Elements;
    StepFacts(w, step);
  }

  /** Only a listing dooms anything, and a deletion takes its trigger off the call's list. */
  lemma DoomsAfter(w: World, step: Step, c: nat, uid: nat)
    requires Numbered(w) && Enabled(w, step)
    ensures Dooms(Apply(w, step), c, uid) ==>
      Dooms(w, c, uid) || (step == List(c) && uid in Doom(w, w.calls[c]))
    ensures Dooms(w, c, uid) && !(step == Delete(c) && uid == w.calls[c].doomed[0]) ==> Dooms(Apply(w, step), c, uid)
    ensures step == List(c) && uid in Doom(w, w.calls[c]) ==> Dooms(Apply(w, step), c, uid)
    ensures step == Delete(c) ==> Dooms(w, c, w.calls[c].doomed[0])
  {
    hide Doom, Removed, Distinct, Target, Keep, Skip, Following, Elements;
    if step == Delete(c) {
      assert w.calls[c].doomed == [w.calls[c].doomed[0]] + w.calls[c].doomed[1..];
    }
  }

  lemma KeepsNumbers(w: World, step: Step)
    requires Numbered(w) && Pending(w) && Enabled(w, step)
    ensures Numbered(Apply(w, step))
  {
    hide Pending, Doom, Removed, Target;
    StepFacts(w, step);
  }

  /** The clean-up reaches its own handler at that handler's place. */
  lemma Swept(call: Call)
    requires !call.handler.Recurring?
    ensures |ONE_SHOT| == 7 && Position(call.handler) < 7 && !Target(call).Recurring?
    ensures call.phase.Sweeping? && call.phase.next < |ONE_SHOT| ==>
      (Target(call) == call.handler <==> call.phase.next == Position(call.handler))
  {
    Positions(call.handler);
  }

  lemma ListingOrdered(w: World, call: Call)
    requires Ordered(call) && Lists(call.phase) && call.first < w.now && call.cleared < w.now && 0 < w.now
    requires call.made.Some? ==> call.made.value < w.now
    ensures Ordered(Listing(w, call))
  {
    hide Doom, Target, Position, ONE_SHOT;
    Swept(call);
  }

  lemma KeepsOrder(w: World, step: Step, c: nat)
    requires Numbered(w) && Phased(w) && Enabled(w, step) && c in Apply(w, step).calls
    ensures Ordered(Apply(w, step).calls[c])
  {
    hide Doom, Removed, Distinct, Elements, ONE_SHOT, Target, Position, Keep, Skip, Following;
    Swept(Call(RegenPendingContracts, Done, [], None, 0, 0));
    if c in w.calls {
      assert Ordered(w.calls[c]);
      hide Phased;
      if step == List(c) { ListingOrdered(w, w.calls[c]); }
    }
  }

  lemma KeepsPhases(w: World, step: Step)
    requires Numbered(w) && Phased(w) && Enabled(w, step)
    ensures Phased(Apply(w, step))
  {
    hide Apply, Enabled, Ordered, Numbered;
    forall c | c in Apply(w, step).calls
      ensures Ordered(Apply(w, step).calls[c])
    {
      KeepsOrder(w, step, c);
    }
  }

  lemma KeepsPending(w: World, step: Step)
    requires Numbered(w) && Pending(w) && Enabled(w, step)
    ensures Pending(Apply(w, step))
  {
    hide Apply, Enabled, Doom, Distinct, Target, Dooms;
    var v := Apply(w, step);
    RestAfter(w, step);
    TriggersAfter(w, step);
    forall c, u | Dooms(v, c, u)
      ensures u in v.listed
    {
      DoomsAfter(w, step, c, u);
    }
    forall t | t in v.triggers && t.uid in v.listed
      ensures exists c :: Dooms(v, c, t.uid)
    {
      if t.uid in w.listed {
        var c :| Dooms(w, c, t.uid);
        DoomsAfter(w, step, c, t.uid);
      } else {
        DoomsAfter(w, step, step.call, t.uid);
      }
    }
  }

  /** A call that creates has not created before. */
  predicate CreatesOnce(w: World, step: Step) {
    step.Create? && step.call in w.calls ==> w.calls[step.call].made == None
  }

  lemma CreatesFirst(w: World, step: Step)
    requires Phased(w) && Enabled(w, step)
    ensures CreatesOnce(w, step)
  {
  }

  lemma KeepsRecorded(w: World, step: Step, h: Handler)
    requires Numbered(w) && Recorded(w, h) && Enabled(w, step) && CreatesOnce(w, step)
    ensures Recorded(Apply(w, step), h)
  {
    hide Apply, Enabled, Doom, Distinct, Target, Keep, Elements;
    RestAfter(w, step);
    if h in Apply(w, step).last { CallAfter(w, step, Apply(w, step).last[h].call); }
  }

  lemma KeepsLater(w: World, step: Step, h: Handler)
    requires Numbered(w) && Recorded(w, h) && NoneLater(w, h) && Enabled(w, step)
    ensures NoneLater(Apply(w, step), h)
  {
    hide Apply, Enabled, Doom, Distinct, Target, Keep, Elements;
    var v := Apply(w, step);
    RestAfter(w, step);
    forall c | On(v, h, c) && v.calls[c].made.Some?
      ensures h in v.last && v.calls[c].made.value <= v.last[h].uid
      ensures v.calls[c].made.value == v.last[h].uid ==> c == v.last[h].call
    {
      CallAfter(w, step, c);
      if c in w.calls { assert On(w, h, c); }
    }
  }

  lemma KeepsYoungest(w: World, step: Step, h: Handler)
    requires Numbered(w) && Pending(w) && Youngest(w, h) && Enabled(w, step)
    ensures Youngest(Apply(w, step), h)
  {
    hide Apply, Enabled, Doom, Distinct, Target;
    RestAfter(w, step);
    TriggersAfter(w, step);
    if step.Delete? { DoomsAfter(w, step, step.call, 0); }
  }

  /** Who lists the last trigger of h did not create it. */
  lemma ListsLast(w: World, step: Step, h: Handler)
    requires Numbered(w) && Phased(w) && Recorded(w, h) && Youngest(w, h) && Enabled(w, step)
    requires step.List? && h in w.last && w.last[h].uid in Doom(w, w.calls[step.call])
    ensures step.call != w.last[h].call && Target(w.calls[step.call]) == h
    ensures On(w, h, step.call) ==> w.calls[step.call].phase.Converging? || Keep(w.calls[step.call]) == 0
  {
    hide Apply, Doom, Distinct, Following, Position;
    StepFacts(w, step);
  }

  lemma KeepsSettled(w: World, step: Step, h: Handler)
    requires Numbered(w) && Phased(w) && Recorded(w, h) && Settled(w, h) && Enabled(w, step)
    ensures Settled(Apply(w, step), h)
  {
    hide Apply, Enabled, Doom, Distinct, Dooms, Position;
    var v := Apply(w, step);
    RestAfter(w, step);
    TriggersAfter(w, step);
    StepFacts(w, step);
    if h in v.last && v.last[h].call in v.calls && v.calls[v.last[h].call].phase.Done? {
      var c := v.last[h].call;
      CallAfter(w, step, c);
      forall t | t in v.triggers && t.handler == h && t.uid != v.last[h].uid
        ensures Dooms(v, c, t.uid)
      {
        DoomsAfter(w, step, c, t.uid);
      }
    }
  }

  lemma KeepsHit(w: World, step: Step, h: Handler)
    requires Numbered(w) && Phased(w) && Recorded(w, h) && NoneLater(w, h) && Youngest(w, h) && HitByOthers(w, h)
    requires Enabled(w, step)
    ensures HitByOthers(Apply(w, step), h)
  {
    hide Apply, Enabled, Doom, Distinct, Position;
    var v := Apply(w, step);
    RestAfter(w, step);
    StepFacts(w, step);
    forall c | Other(v, h, c) && v.last[h].uid <= v.calls[c].cleared
      ensures v.last[h].uid in v.listed
    {
      CallAfter(w, step, c);
      CallAfter(w, step, v.last[h].call);
      if h in w.last && w.last[h] == v.last[h] && c in w.calls { assert Other(w, h, c); }
    }
  }

  lemma StillListed(w: World, step: Step, h: Handler)
    requires Numbered(w) && Recorded(w, h) && OnlyByOthers(w, h) && Enabled(w, step)
    requires h in Apply(w, step).last && Apply(w, step).last[h].uid in w.listed && !SweptSince(Apply(w, step), h)
    ensures exists c :: ListedSince(Apply(w, step), h, c)
  {
    hide Apply, Enabled, Doom, Distinct, Target, Keep, Elements;
    RestAfter(w, step);
    var c :| ListedSince(w, h, c);
    CallAfter(w, step, c);
    assert ListedSince(Apply(w, step), h, c);
  }

  lemma NewlyListed(w: World, step: Step, h: Handler)
    requires Numbered(w) && Phased(w) && Recorded(w, h) && Youngest(w, h) && Enabled(w, step)
    requires h in Apply(w, step).last && Apply(w, step).last[h].uid in Apply(w, step).listed - w.listed
    requires !SweptSince(Apply(w, step), h)
    ensures exists c :: ListedSince(Apply(w, step), h, c)
  {
    hide Apply, Enabled, Doom, Distinct, Phased, Target;
    RestAfter(w, step);
    ListsLast(w, step, h);
    CallAfter(w, step, step.call);
    assert ListedSince(Apply(w, step), h, step.call);
  }

  lemma KeepsOnly(w: World, step: Step, h: Handler)
    requires Numbered(w) && Phased(w) && Recorded(w, h) && Youngest(w, h) && OnlyByOthers(w, h) && Enabled(w, step)
    ensures OnlyByOthers(Apply(w, step), h)
  {
    hide Apply, Enabled, Numbered, Phased, Recorded, Youngest, SweptSince, ListedSince;
    var v := Apply(w, step);
    if h in v.last && v.last[h].uid in v.listed && !SweptSince(v, h) {
      if v.last[h].uid in w.listed { StillListed(w, step, h); } else { NewlyListed(w, step, h); }
    }
  }

  lemma KeepsStrangers(w: World, step: Step, h: Handler)
    requires Numbered(w) && Phased(w) && Recorded(w, h) && Youngest(w, h) && Pending(w) && StrangersSwept(w, h)
    requires Enabled(w, step)
    ensures StrangersSwept(Apply(w, step), h)
  {
    hide Apply, Enabled, Doom, Distinct, Phased, Dooms, Target;
    var v := Apply(w, step);
    RestAfter(w, step);
    forall c | h in v.last && Dooms(v, c, v.last[h].uid) && !On(v, h, c)
      ensures SweptSince(v, h)
    {
      DoomsAfter(w, step, c, v.last[h].uid);
      CallAfter(w, step, c);
      if step == List(c) && v.last[h].uid in Doom(w, w.calls[c]) { ListsLast(w, step, h); }
    }
  }

  lemma KeepsOutside(w: World, step: Step)
    requires Numbered(w) && Phased(w) && Pending(w) && NoneOutside(w) && Enabled(w, step)
    ensures NoneOutside(Apply(w, step))
  {
    hide Apply, Enabled, Doom, Distinct, Target, Dooms;
    var v := Apply(w, step);
    RestAfter(w, step);
    TriggersAfter(w, step);
    forall c, t | t in v.triggers && t.handler.Recurring?
      ensures !Dooms(v, c, t.uid)
    {
      DoomsAfter(w, step, c, t.uid);
      if step == List(c) && t.uid in Doom(w, w.calls[c]) {
        StepFacts(w, step);
        Swept(w.calls[c]);
        var s :| s in w.triggers && s.uid == t.uid && s.handler == Target(w.calls[c]);
        SameUid(w.triggers, s, t);
        assert false;
      }
    }
  }

  /** No step touches a trigger outside the list of one-shot handlers or goes beyond the quota. */
  lemma StepOutside(w: World, step: Step)
    requires Numbered(w) && Phased(w) && NoneOutside(w) && Enabled(w, step)
    ensures Outside(Apply(w, step).triggers) == Outside(w.triggers)
    ensures |w.triggers| <= QUOTA ==> |Apply(w, step).triggers| <= QUOTA
  {
    hide Doom, Removed, Distinct, Elements, Outside, Target, Keep, Skip, Following;
    StepFacts(w, step);
    if step.Delete? {
      assert forall t :: t in w.triggers && t.handler.Recurring? ==> !Dooms(w, step.call, t.uid);
      RemovedOutside(w.triggers, w.calls[step.call].doomed[0]);
    } else if step.Create? {
      CountSnoc(w.triggers, Trigger(w.now, w.calls[step.call].handler), w.calls[step.call].handler);
    }
  }

  lemma StepKeeps(w: World, step: Step, h: Handler)
    requires Inv(w, h) && Enabled(w, step)
    ensures Inv(Apply(w, step), h)
  {
    hide Apply, Enabled, Numbered, Phased, Recorded, NoneLater, Youngest, Pending, Settled;
    hide HitByOthers, OnlyByOthers, StrangersSwept, NoneOutside, CreatesOnce;
    KeepsNumbers(w, step);
    KeepsPhases(w, step);
    KeepsPending(w, step);
    KeepsOutside(w, step);
    assert CreatesOnce(w, step) by { CreatesFirst(w, step); }
    KeepsRecorded(w, step, h);
    KeepsLater(w, step, h);
    KeepsYoungest(w, step, h);
    KeepsSettled(w, step, h);
    KeepsHit(w, step, h);
    KeepsOnly(w, step, h);
    KeepsStrangers(w, step, h);
  }

  // ---------------------------------------------------------------- whole runs

  /** Any triggers, and no call under way. */
  ghost predicate Initial(w: World) {
    && Distinct(w.triggers) && (forall t :: t in w.triggers ==> t.uid < w.now)
    && w.calls == map[] && w.last == map[] && w.listed == {} && w.swept == map[]
  }

  ghost predicate Possible(w: World, steps: seq<Step>)
    decreases |steps|
  {
    steps == [] || (Enabled(w, steps[0]) && Possible(Apply(w, steps[0]), steps[1..]))
  }

  ghost function After(w: World, steps: seq<Step>): World
    requires Possible(w, steps)
    decreases |steps|
  {
    if steps == [] then w else After(Apply(w, steps[0]), steps[1..])
  }

  lemma {:induction false} RunKeeps(w: World, steps: seq<Step>, h: Handler)
    requires Inv(w, h) && Possible(w, steps)
    ensures Inv(After(w, steps), h) && Outside(After(w, steps).triggers) == Outside(w.triggers)
    ensures |w.triggers| <= QUOTA ==> |After(w, steps).triggers| <= QUOTA
    decreases |steps|
  {
    hide Enabled, Apply, Outside, Numbered, Phased, Recorded, NoneLater, Youngest, Pending, Settled;
    hide HitByOthers, OnlyByOthers, StrangersSwept, NoneOutside;
    if steps == [] {
    } else {
      StepKeeps(w, steps[0], h);
      StepOutside(w, steps[0]);
      RunKeeps(Apply(w, steps[0]), steps[1..], h);
    }
  }

  lemma InitialInv(w: World, h: Handler)
    requires Initial(w)
    ensures Inv(w, h)
  {
  }

  /** Whatever calls overlap, fail or are killed, no trigger outside the seven handlers is touched and there are never
      more than 20. */
  lemma OutsideUntouched(w: World, steps: seq<Step>)
    requires Initial(w) && Possible(w, steps)
    ensures Outside(After(w, steps).triggers) == Outside(w.triggers)
    ensures |w.triggers| <= QUOTA ==> |After(w, steps).triggers| <= QUOTA
  {
    hide Possible, After, Initial, Inv;
    InitialInv(w, RegenPendingContracts);
    RunKeeps(w, steps, RegenPendingContracts);
  }

  /** Once the call that created the last trigger of h has ended, and nobody still has that trigger to delete, it is the
      only one of h, or h has none: it is there iff no call has listed it for deletion. */
  lemma LastCreationDecides(w: World, steps: seq<Step>, h: Handler)
    requires Initial(w) && Possible(w, steps)
    requires var v := After(w, steps);
      && h in v.last && v.last[h].call in v.calls && Ended(v.calls[v.last[h].call])
      && forall c :: c in v.calls ==> v.last[h].uid !in v.calls[c].doomed
    ensures var v := After(w, steps);
      && Count(v.triggers, h) == (if v.last[h].uid in v.listed then 0 else 1)
      && (v.last[h].uid !in v.listed ==> Trigger(v.last[h].uid, h) in v.triggers)
  {
    hide Possible, After;
    InitialInv(w, h);
    RunKeeps(w, steps, h);
    var v := After(w, steps);
    assert forall t :: t in v.triggers && t.handler == h ==> !Dooms(v, v.last[h].call, t.uid);
    CountOne(v.triggers, h, v.last[h].uid);
    var z := Trigger(v.last[h].uid, h);
    assert forall c :: !Dooms(v, c, z.uid);
  }

  ghost predicate AllEnded(w: World, h: Handler) {
    forall c :: On(w, h, c) ==> Ended(w.calls[c])
  }

  /** Every other call of h listed all its triggers for the last time before c created. */
  ghost predicate InTurn(w: World, h: Handler, made: Made) {
    forall c :: On(w, h, c) && c != made.call ==> w.calls[c].cleared < made.uid
  }

  /** Once all calls on h have ended, and unless another handler's clean-up has listed h since its last creation: one
      trigger is left iff every other call had made its last listing before that creation, and otherwise none. */
  lemma OneLeftIffInTurn(w: World, steps: seq<Step>, h: Handler)
    requires Initial(w) && Possible(w, steps)
    requires var v := After(w, steps); h in v.last && AllEnded(v, h) && !SweptSince(v, h)
    ensures var v := After(w, steps); Count(v.triggers, h) == if InTurn(v, h, v.last[h]) then 1 else 0
  {
    hide Possible, After;
    InitialInv(w, h);
    RunKeeps(w, steps, h);
    var v := After(w, steps);
    var z := v.last[h];
    assert On(v, h, z.call);
    forall c | c in v.calls
      ensures z.uid !in v.calls[c].doomed
    {
      NobodyLeft(v, h, c);
    }
    LastCreationDecides(w, steps, h);
    if z.uid in v.listed {
      SomebodyLate(v, h);
    } else {
      AllEarly(v, h);
    }
  }

  lemma NobodyLeft(v: World, h: Handler, c: nat)
    requires Inv(v, h) && h in v.last && AllEnded(v, h) && !SweptSince(v, h)
    ensures !Dooms(v, c, v.last[h].uid)
  {
    if c in v.calls && v.calls[c].handler == h { assert On(v, h, c); }
  }

  lemma SomebodyLate(v: World, h: Handler)
    requires Inv(v, h) && h in v.last && v.last[h].uid in v.listed && AllEnded(v, h) && !SweptSince(v, h)
    ensures !InTurn(v, h, v.last[h])
  {
    var c :| ListedSince(v, h, c);
    assert On(v, h, c);
  }

  lemma AllEarly(v: World, h: Handler)
    requires Inv(v, h) && h in v.last && v.last[h].uid !in v.listed
    ensures InTurn(v, h, v.last[h])
  {
    forall c | On(v, h, c) && c != v.last[h].call
      ensures v.calls[c].cleared < v.last[h].uid
    {
      assert Other(v, h, c);
    }
  }

  /** Of two calls that both created, one trigger is left iff one of them had made its last listing before the other
      created. */
  lemma TwoCalls(w: World, steps: seq<Step>, h: Handler, a: nat, b: nat)
    requires Initial(w) && Possible(w, steps)
    requires var v := After(w, steps);
      && On(v, h, a) && On(v, h, b) && a != b && (forall c :: On(v, h, c) ==> c == a || c == b) && AllEnded(v, h)
      && v.calls[a].made.Some? && v.calls[b].made.Some? && !SweptSince(v, h)
    ensures var v := After(w, steps);
      Count(v.triggers, h)
      == if v.calls[a].cleared < v.calls[b].made.value || v.calls[b].cleared < v.calls[a].made.value then 1 else 0
  {
    hide Possible, After;
    InitialInv(w, h);
    RunKeeps(w, steps, h);
    OneLeftIffInTurn(w, steps, h);
    var v := After(w, steps);
    assert On(v, h, v.last[h].call);
    TwoInTurn(v, h, a, b, v.last[h]);
  }

  lemma TwoInTurn(v: World, h: Handler, a: nat, b: nat, z: Made)
    requires On(v, h, a) && On(v, h, b) && a != b && (forall c :: On(v, h, c) ==> c == a || c == b)
    requires Phased(v) && Recorded(v, h) && NoneLater(v, h) && AllEnded(v, h)
    requires v.calls[a].made.Some? && v.calls[b].made.Some?
    requires z == v.last[h] && On(v, h, z.call)
    ensures InTurn(v, h, z)
      <==> v.calls[a].cleared < v.calls[b].made.value || v.calls[b].cleared < v.calls[a].made.value
  {
    assert Ended(v.calls[a]) && Ended(v.calls[b]);
    var other := if z.call == a then b else a;
    assert v.calls[z.call].made.value == z.uid && v.calls[other].made.value < z.uid;
    assert v.calls[z.call].cleared > v.calls[other].made.value;
  }

  // ---------------------------------------------------------------- a handler nobody replaces

  ghost predicate Leaves(steps: seq<Step>, h: Handler) {
    forall i :: 0 <= i < |steps| ==> steps[i] != Replace(h) && steps[i] != Clear(h)
  }

  ghost predicate Spared(w: World, h: Handler, uid: nat) {
    && Eldest(w.triggers, h) == Some(uid)
    && forall c :: c in w.calls ==> w.calls[c].handler != h && uid !in w.calls[c].doomed
  }

  lemma {:induction false} EldestIs(ts: seq<Trigger>, h: Handler)
    ensures Eldest(ts, h).Some? <==> Count(ts, h) > 0
    ensures Eldest(ts, h).Some? ==> Trigger(Eldest(ts, h).value, h) in ts
  {
    if ts != [] {
      Parts(ts);
      EldestIs(Init(ts), h);
    }
  }

  lemma {:induction false} EldestStays(ts: seq<Trigger>, h: Handler, uid: nat)
    requires Eldest(ts, h).Some? && Eldest(ts, h) != Some(uid) && Distinct(ts)
    ensures Eldest(Removed(ts, uid), h) == Eldest(ts, h)
  {
    Parts(ts);
    EldestIs(Init(ts), h);
    if Eldest(Init(ts), h).Some? {
      EldestStays(Init(ts), h, uid);
    } else {
      RemovedIs(Init(ts), uid);
      EldestIs(Removed(Init(ts), uid), h);
      NoneOf(Init(ts), h);
      NoneOf(Removed(Init(ts), uid), h);
    }
    if Last(ts).uid != uid { assert Init(Removed(Init(ts), uid) + [Last(ts)]) == Removed(Init(ts), uid); }
  }

  /** A handler has no trigger iff none of the listed ones is its. */
  lemma {:induction false} NoneOf(ts: seq<Trigger>, h: Handler)
    ensures Count(ts, h) == 0 <==> forall t :: t in ts ==> t.handler != h
    ensures Matching(ts, h, None) == Count(ts, h)
  {
    if ts != [] {
      Parts(ts);
      NoneOf(Init(ts), h);
    }
  }

  lemma SomeEldest(ts: seq<Trigger>, h: Handler)
    requires Eldest(ts, h).Some?
    ensures ts != []
  {
  }

  lemma UnfoldDoomed(ts: seq<Trigger>, k: Handler, h: Handler, keep: nat)
    requires ts != []
    ensures Doomed(ts, k, keep, None) == Doomed(Init(ts), k, keep, None)
      + if Last(ts).handler == k && Matching(Init(ts), k, None) >= keep then [Last(ts).uid] else []
    ensures Eldest(ts, h) == if Eldest(Init(ts), h).Some? then Eldest(Init(ts), h)
                             else if Last(ts).handler == h then Some(Last(ts).uid) else None
  {
  }

  /** A prune that keeps one never dooms the eldest. */
  lemma {:induction false} EldestSpared(ts: seq<Trigger>, k: Handler, h: Handler, keep: nat)
    requires Distinct(ts) && ts != [] && Eldest(ts, h).Some? && (k == h ==> keep > 0)
    ensures Eldest(ts, h).value !in Doomed(ts, k, keep, None)
  {
    Parts(ts);
    EldestIs(Init(ts), h);
    UnfoldDoomed(ts, k, h, keep);
    hide Doomed, Eldest, Matching, Distinct, Count;
    if Eldest(Init(ts), h).Some? {
      assert Distinct(Init(ts)) && Init(ts) != [] by { SomeEldest(Init(ts), h); }
      EldestSpared(Init(ts), k, h, keep);
    } else {
      DoomedIs(Init(ts), k, keep, None);
      NoneOf(Init(ts), h);
    }
  }

  /** A clean-up lists every trigger of another handler but the eldest: the one just created iff another stands. */
  lemma {:induction false} SweepListsAllButEldest(ts: seq<Trigger>, h: Handler, t: Trigger)
    requires Distinct(ts) && t in ts && t.handler == h
    ensures t.uid in Doomed(ts, h, 1, None) <==> Eldest(ts, h) != Some(t.uid)
  {
    hide Distinct, Doomed, Eldest, Matching, Count;
    Parts(ts);
    EldestIs(ts, h);
    EldestIs(Init(ts), h);
    NoneOf(Init(ts), h);
    UnfoldDoomed(ts, h, h, 1);
    DoomedIs(Init(ts), h, 1, None);
    if t in Init(ts) { SweepListsAllButEldest(Init(ts), h, t); }
  }

  lemma KeepsSpared(w: World, step: Step, h: Handler, uid: nat)
    requires Numbered(w) && Phased(w) && Spared(w, h, uid) && Enabled(w, step)
    requires step != Replace(h) && step != Clear(h)
    ensures Spared(Apply(w, step), h, uid)
  {
    hide Doomed, Removed, ONE_SHOT, Following, Elements, Eldest, Distinct, Position;
    match step
    case List(c) =>
      var call := w.calls[c];
      if call.phase.Settling? {
        DoomedIs(w.triggers, Target(call), Keep(call), Skip(call));
        EldestIs(w.triggers, h);
        forall t | t in w.triggers && t.uid == uid
          ensures t.handler == h
        {
          SameUid(w.triggers, t, Trigger(uid, h));
        }
      } else {
        SomeEldest(w.triggers, h);
        EldestSpared(w.triggers, Target(call), h, Keep(call));
      }
    case Delete(c) => EldestStays(w.triggers, h, w.calls[c].doomed[0]);
    case Create(c) =>
      var t := Trigger(w.now, w.calls[c].handler);
      assert Init(w.triggers + [t]) == w.triggers;
      EldestSnoc(w.triggers, t, h);
    case _ =>
  }

  lemma EldestSnoc(ts: seq<Trigger>, t: Trigger, h: Handler)
    requires Eldest(ts, h).Some?
    ensures Eldest(ts + [t], h) == Eldest(ts, h)
  {
    assert Init(ts + [t]) == ts;
  }

  lemma {:induction false} RunSpares(w: World, steps: seq<Step>, h: Handler, uid: nat)
    requires Inv(w, h) && Spared(w, h, uid) && Possible(w, steps) && Leaves(steps, h)
    ensures Spared(After(w, steps), h, uid)
    decreases |steps|
  {
    hide Enabled, Apply, Spared;
    if steps == [] {
    } else {
      StepKeeps(w, steps[0], h);
      KeepsSpared(w, steps[0], h, uid);
      RunSpares(Apply(w, steps[0]), steps[1..], h, uid);
    }
  }

  /** While no call replaces or clears h, its eldest trigger survives, however many clean-ups overlap. */
  lemma EldestSurvives(w: World, steps: seq<Step>, h: Handler)
    requires Initial(w) && Possible(w, steps) && Leaves(steps, h) && Count(w.triggers, h) > 0
    ensures Eldest(w.triggers, h).Some? && Trigger(Eldest(w.triggers, h).value, h) in After(w, steps).triggers
    ensures Count(After(w, steps).triggers, h) > 0
  {
    hide Possible, After;
    InitialInv(w, h);
    EldestIs(w.triggers, h);
    RunSpares(w, steps, h, Eldest(w.triggers, h).value);
    EldestIs(After(w, steps).triggers, h);
  }

  // ---------------------------------------------------------------- undisturbed

  function RemovedAll(ts: seq<Trigger>, uids: seq<nat>): seq<Trigger> {
    if uids == [] then ts else Removed(RemovedAll(ts, uids[..|uids| - 1]), uids[|uids| - 1])
  }

  lemma {:induction false} RemovedSnoc(ts: seq<Trigger>, t: Trigger, uids: seq<nat>)
    requires t.uid !in uids
    ensures RemovedAll(ts + [t], uids) == RemovedAll(ts, uids) + [t]
  {
    if uids != [] {
      var init := uids[..|uids| - 1];
      RemovedSnoc(ts, t, init);
      assert Init(RemovedAll(ts, init) + [t]) == RemovedAll(ts, init);
    }
  }

  lemma {:induction false} RemovedNone(ts: seq<Trigger>, uid: nat)
    requires forall t :: t in ts ==> t.uid != uid
    ensures Removed(ts, uid) == ts
  {
    if ts != [] {
      Parts(ts);
      RemovedNone(Init(ts), uid);
    }
  }

  lemma {:induction false} RemovedAllSubset(ts: seq<Trigger>, uids: seq<nat>)
    ensures forall t :: t in RemovedAll(ts, uids) ==> t in ts
  {
    if uids != [] {
      RemovedAllSubset(ts, uids[..|uids| - 1]);
      RemovedIs(RemovedAll(ts, uids[..|uids| - 1]), uids[|uids| - 1]);
    }
  }

  /** Deleting what a listing dooms is what the prune loop does. */
  lemma {:induction false} DoomedPruned(ts: seq<Trigger>, h: Handler, keep: nat, skip: Option<nat>)
    requires Distinct(ts)
    ensures RemovedAll(ts, Doomed(ts, h, keep, skip)) == Pruned(ts, h, keep, skip)
  {
    if ts != [] {
      var init, t := Init(ts), Last(ts);
      var before := Doomed(init, h, keep, skip);
      Parts(ts);
      DoomedPruned(init, h, keep, skip);
      DoomedIs(init, h, keep, skip);
      RemovedSnoc(init, t, before);
      if Matches(t, h, skip) && Matching(init, h, skip) >= keep {
        var left := RemovedAll(init, before);
        assert (before + [t.uid])[..|before|] == before;
        RemovedAllSubset(init, before);
        RemovedNone(left, t.uid);
        assert Init(left + [t]) == left;
      }
    }
  }

  lemma {:induction false} Extend(w: World, steps: seq<Step>, step: Step)
    requires Possible(w, steps) && Enabled(After(w, steps), step)
    ensures Possible(w, steps + [step]) && After(w, steps + [step]) == Apply(After(w, steps), step)
    decreases |steps|
  {
    hide Enabled, Apply;
    if steps == [] {
      assert (steps + [step])[1..] == [];
    } else {
      assert (steps + [step])[1..] == steps[1..] + [step];
      Extend(Apply(w, steps[0]), steps[1..], step);
    }
  }

  function DeleteSteps(c: nat, n: nat): seq<Step> {
    if n == 0 then [] else DeleteSteps(c, n - 1) + [Delete(c)]
  }

  /** The world after the first n deletions of a call. */
  function Deleted(w: World, c: nat, n: nat): World
    requires c in w.calls && n <= |w.calls[c].doomed|
  {
    w.(triggers := RemovedAll(w.triggers, w.calls[c].doomed[..n]), now := w.now + n,
       calls := w.calls[c := w.calls[c].(doomed := w.calls[c].doomed[n..])])
  }

  lemma DeletedNext(w: World, c: nat, n: nat)
    requires c in w.calls && n < |w.calls[c].doomed| && !w.calls[c].phase.Killed?
    ensures Enabled(Deleted(w, c, n), Delete(c)) && Apply(Deleted(w, c, n), Delete(c)) == Deleted(w, c, n + 1)
  {
    hide Removed;
    var doomed := w.calls[c].doomed;
    assert doomed[..n + 1][..n] == doomed[..n] && doomed[..n + 1][n] == doomed[n];
    assert doomed[n..][0] == doomed[n] && doomed[n..][1..] == doomed[n + 1..];
  }

  lemma {:induction false} DeletedSoFar(w: World, c: nat, n: nat)
    requires c in w.calls && n <= |w.calls[c].doomed| && !w.calls[c].phase.Killed?
    ensures Possible(w, DeleteSteps(c, n)) && After(w, DeleteSteps(c, n)) == Deleted(w, c, n)
  {
    if n == 0 {
      assert Possible(w, []) && After(w, []) == w;
      assert w.calls[c].doomed[0..] == w.calls[c].doomed;
      assert w.calls[c := w.calls[c].(doomed := w.calls[c].doomed)] == w.calls;
    } else {
      DeletedSoFar(w, c, n - 1);
      hide Possible, After, Deleted, Enabled, Apply;
      DeletedNext(w, c, n - 1);
      Extend(w, DeleteSteps(c, n - 1), Delete(c));
    }
  }

  /** Listing and then deleting comes, undisturbed, to the prune of the class `Project`. */
  lemma PruneUndisturbed(w: World, c: nat)
    requires Distinct(w.triggers) && Enabled(w, List(c))
    ensures var call := w.calls[c]; var v := Apply(w, List(c)); var steps := DeleteSteps(c, |v.calls[c].doomed|);
      && Possible(v, steps)
      && After(v, steps).triggers == Pruned(w.triggers, Target(call), Keep(call), Skip(call))
      && After(v, steps).calls == w.calls[c := v.calls[c].(doomed := [])]
  {
    hide Possible, After, Pruned, Doomed, Removed, RemovedAll;
    var v := Apply(w, List(c));
    var doomed := v.calls[c].doomed;
    DeletedSoFar(v, c, |doomed|);
    assert doomed[..|doomed|] == doomed && doomed[|doomed|..] == [];
    DoomedPruned(w.triggers, Target(w.calls[c]), Keep(w.calls[c]), Skip(w.calls[c]));
  }

  // ---------------------------------------------------------------- what overlapping calls can do

  ghost predicate Reaches(w: World, v: World) {
    exists steps :: Possible(w, steps) && After(w, steps) == v
  }

  lemma Reach(w: World, v: World, step: Step)
    requires Reaches(w, v) && Enabled(v, step)
    ensures Reaches(w, Apply(v, step))
  {
    var steps :| Possible(w, steps) && After(w, steps) == v;
    Extend(w, steps, step);
  }

  lemma ReachStart(w: World)
    ensures Reaches(w, w)
  {
    assert Possible(w, []) && After(w, []) == w;
  }

  predicate Foreign(base: seq<Trigger>, h: Handler) {
    forall t :: t in base ==> t.handler != h
  }

  lemma {:induction false} ForeignDoomed(base: seq<Trigger>, h: Handler, keep: nat, skip: Option<nat>)
    requires Foreign(base, h)
    ensures Doomed(base, h, keep, skip) == [] && Matching(base, h, skip) == 0 && Count(base, h) == 0
  {
    if base != [] {
      Parts(base);
      ForeignDoomed(Init(base), h, keep, skip);
    }
  }

  lemma DoomedSnoc(ts: seq<Trigger>, t: Trigger, h: Handler, keep: nat, skip: Option<nat>)
    ensures Doomed(ts + [t], h, keep, skip)
      == Doomed(ts, h, keep, skip) + if Matches(t, h, skip) && Matching(ts, h, skip) >= keep then [t.uid] else []
    ensures Matching(ts + [t], h, skip) == Matching(ts, h, skip) + if Matches(t, h, skip) then 1 else 0
  {
    assert Init(ts + [t]) == ts;
  }

  /** Listing with at most two triggers of h behind the others. */
  lemma FewDoomed(base: seq<Trigger>, h: Handler, x: nat, y: nat, keep: nat, skip: Option<nat>)
    requires Foreign(base, h)
    ensures Doomed(base + [Trigger(x, h)], h, keep, skip) == if skip != Some(x) && keep == 0 then [x] else []
    ensures keep == 0 ==>
      Doomed(base + [Trigger(x, h), Trigger(y, h)], h, keep, skip)
      == (if skip == Some(x) then [] else [x]) + (if skip == Some(y) then [] else [y])
    ensures keep == 1 && skip == None ==> Doomed(base + [Trigger(x, h), Trigger(y, h)], h, keep, skip) == [y]
  {
    hide Doomed, Matching;
    ForeignDoomed(base, h, keep, skip);
    DoomedSnoc(base, Trigger(x, h), h, keep, skip);
    DoomedSnoc(base + [Trigger(x, h)], Trigger(y, h), h, keep, skip);
    assert base + [Trigger(x, h), Trigger(y, h)] == base + [Trigger(x, h)] + [Trigger(y, h)];
  }

  lemma FewRemoved(base: seq<Trigger>, h: Handler, x: nat, y: nat)
    requires (forall t :: t in base ==> t.uid != x && t.uid != y) && x != y
    ensures Removed(base + [Trigger(x, h)], x) == base
    ensures Removed(base + [Trigger(x, h), Trigger(y, h)], x) == base + [Trigger(y, h)]
    ensures Removed(base + [Trigger(x, h), Trigger(y, h)], y) == base + [Trigger(x, h)]
  {
    RemovedNone(base, x);
    RemovedNone(base, y);
    var one, two := base + [Trigger(x, h)], base + [Trigger(x, h), Trigger(y, h)];
    assert Init(one) == base && Init(two) == one;
  }

  lemma ListNone(w: World, v: World, c: nat) returns (next: World)
    requires Reaches(w, v) && Enabled(v, List(c)) && Doom(v, v.calls[c]) == [] && !v.calls[c].phase.Sweeping?
    ensures Reaches(w, next) && next == v.(calls := v.calls[c := Listing(v, v.calls[c])], now := v.now + 1)
  {
    hide Reaches, Doom, Keep, Skip, Following;
    Reach(w, v, List(c));
    next := Apply(v, List(c));
    assert v.listed + Elements([]) == v.listed;
  }

  /** A listing that dooms one trigger, and its deletion. */
  lemma ListAndDelete(w: World, v: World, c: nat, uid: nat, left: seq<Trigger>) returns (next: World)
    requires Reaches(w, v) && Enabled(v, List(c)) && Doom(v, v.calls[c]) == [uid] && Removed(v.triggers, uid) == left
    ensures Reaches(w, next)
    ensures next.triggers == left && next.now == v.now + 2 && next.last == v.last
    ensures next.calls == v.calls[c := Listing(v, v.calls[c]).(doomed := [])]
    ensures next.swept == if Target(v.calls[c]) == v.calls[c].handler then v.swept
                          else v.swept[Target(v.calls[c]) := v.now]
  {
    hide Reaches, Removed, Doom, Target, Keep, Skip;
    Reach(w, v, List(c));
    var middle := Apply(v, List(c));
    assert [uid][1..] == [];
    Reach(w, middle, Delete(c));
    next := Apply(middle, Delete(c));
  }

  /** The world in which the two runs below start. */
  function Start(triggers: seq<Trigger>, now: nat): World {
    World(triggers, map[], now, map[], {}, map[])
  }

  /** Two calls on a handler without a trigger, both past their first prune before either creates: each last prune
      deletes what the other created. Both calls return their trigger, and the handler has none. */
  lemma OverlapLeavesNone(base: seq<Trigger>, h: Handler, n: nat) returns (v: World)
    requires !h.Recurring? && Foreign(base, h) && Initial(Start(base, n)) && |base| <= 18
    ensures Reaches(Start(base, n), v) && v.triggers == base && Count(v.triggers, h) == 0
    ensures On(v, h, n) && On(v, h, n + 1) && AllEnded(v, h) && v.last.Keys == {h}
    ensures v.calls[n].made == Some(n + 4) && v.calls[n + 1].made == Some(n + 5) && v.swept == map[]
  {
    hide Reaches, Distinct, Doomed, Removed;
    var x, y := n + 4, n + 5;
    var w := Start(base, n);
    v := BothCreate(base, h, n);
    ForeignDoomed(base, h, 0, None);
    FewDoomed(base, h, x, y, 0, Some(x));
    FewDoomed(base, h, y, y, 0, Some(x));
    FewDoomed(base, h, x, y, 0, Some(y));
    FewRemoved(base, h, x, y);
    v := ListAndDelete(w, v, n, y, base + [Trigger(x, h)]);
    v := ListAndDelete(w, v, n + 1, x, base);
  }

  lemma BothCreate(base: seq<Trigger>, h: Handler, n: nat) returns (v: World)
    requires !h.Recurring? && Foreign(base, h) && |base| <= 18
    ensures Reaches(Start(base, n), v)
    ensures v.triggers == base + [Trigger(n + 4, h), Trigger(n + 5, h)] && v.now == n + 6 && v.last.Keys == {h}
    ensures v.calls == map[n := Call(h, Settling, [], Some(n + 4), n + 2, 0),
                           n + 1 := Call(h, Settling, [], Some(n + 5), n + 3, 0)]
    ensures v.listed == {} && v.swept == map[]
  {
    hide Reaches, Doomed;
    var a, b := n, n + 1;
    v := Start(base, n);
    var w := v;
    ForeignDoomed(base, h, 1, None);
    ReachStart(w);
    v := CallOne(w, v, h);
    v := CallOne(w, v, h);
    v := ListNone(w, v, a);
    v := ListNone(w, v, b);
    v := CreateOne(w, v, a);
    v := CreateOne(w, v, b);
    assert base + [Trigger(n + 4, h)] + [Trigger(n + 5, h)] == base + [Trigger(n + 4, h), Trigger(n + 5, h)];
  }

  lemma CallOne(w: World, v: World, h: Handler) returns (next: World)
    requires Reaches(w, v) && !h.Recurring?
    ensures Reaches(w, next)
    ensures next == v.(calls := v.calls[v.now := Call(h, Converging, [], None, 0, 0)], now := v.now + 1)
  {
    hide Reaches;
    Reach(w, v, Replace(h));
    next := Apply(v, Replace(h));
  }

  lemma CreateOne(w: World, v: World, c: nat) returns (next: World)
    requires Reaches(w, v) && Enabled(v, Create(c)) && |v.triggers| < QUOTA
    ensures Reaches(w, next)
    ensures next == v.(triggers := v.triggers + [Trigger(v.now, v.calls[c].handler)], now := v.now + 1,
                       calls := v.calls[c := v.calls[c].(phase := Settling, made := Some(v.now))],
                       last := v.last[v.calls[c].handler := Made(c, v.now)])
  {
    hide Reaches;
    Reach(w, v, Create(c));
    next := Apply(v, Create(c));
  }

  const REPLACED := RegenPendingContracts
  const SWEEPING := RunPendingRegister

  /** A handler that keeps a trigger through its first prune loses both when another handler's clean-up deletes the one
      just created: its own last prune then deletes the one the clean-up kept. */
  lemma SweepLeavesNone(base: seq<Trigger>, n: nat, x: nat) returns (v: World)
    requires Foreign(base, REPLACED) && Foreign(base, SWEEPING) && |base| == 18
    requires Initial(Start(base + [Trigger(x, REPLACED)], n))
    ensures Reaches(Start(base + [Trigger(x, REPLACED)], n), v)
    ensures v.triggers == base && Count(v.triggers, REPLACED) == 0
    ensures On(v, REPLACED, n) && (forall c :: On(v, REPLACED, c) ==> c == n) && AllEnded(v, REPLACED)
    ensures v.calls[n].made == Some(n + 2)
  {
    hide Reaches, Distinct, Doomed, Removed;
    var c, d, y := n, n + 3, n + 2;
    var w := Start(base + [Trigger(x, REPLACED)], n);
    assert Freshly(base, x, y) by { Apart(base, x, y, n); }
    v := SweepBegins(base, n, x);
    ForeignDoomed(base, REPLACED, 0, None);
    FewDoomed(base, REPLACED, x, y, 1, None);
    FewDoomed(base, REPLACED, x, y, 0, Some(y));
    FewRemoved(base, REPLACED, x, y);
    v := ListAndDelete(w, v, d, y, base + [Trigger(x, REPLACED)]);
    v := ListAndDelete(w, v, c, x, base);
  }

  predicate Freshly(base: seq<Trigger>, x: nat, y: nat) {
    x != y && forall t :: t in base ==> t.uid != x && t.uid != y
  }

  lemma Apart(base: seq<Trigger>, x: nat, y: nat, n: nat)
    requires Initial(Start(base + [Trigger(x, REPLACED)], n)) && y >= n
    ensures Freshly(base, x, y)
  {
    var one := base + [Trigger(x, REPLACED)];
    Parts(one);
    assert Init(one) == base;
  }

  /** The first call has created when the other's creation meets the quota. */
  lemma SweepBegins(base: seq<Trigger>, n: nat, x: nat) returns (v: World)
    requires Foreign(base, REPLACED) && Foreign(base, SWEEPING) && |base| == 18
    ensures Reaches(Start(base + [Trigger(x, REPLACED)], n), v)
    ensures v.triggers == base + [Trigger(x, REPLACED), Trigger(n + 2, REPLACED)] && v.now == n + 6
    ensures v.calls == map[n := Call(REPLACED, Settling, [], Some(n + 2), n + 1, 0),
                           n + 3 := Call(SWEEPING, Sweeping(0), [], None, n + 4, 0)]
  {
    hide Reaches, Doomed;
    var c, d := n, n + 3;
    v := Start(base + [Trigger(x, REPLACED)], n);
    var w := v;
    ReachStart(w);
    v := CallOne(w, v, REPLACED);
    FewDoomed(base, REPLACED, x, x, 1, None);
    v := ListNone(w, v, c);
    v := CreateOne(w, v, c);
    v := CallOne(w, v, SWEEPING);
    ForeignDoomed(v.triggers, SWEEPING, 1, None);
    v := ListNone(w, v, d);
    assert base + [Trigger(x, REPLACED)] + [Trigger(n + 2, REPLACED)]
        == base + [Trigger(x, REPLACED), Trigger(n + 2, REPLACED)];
    Reach(w, v, Create(d));
    v := Apply(v, Create(d));
  }
}
