/** The greedy allocator of own stock and approved upgrades (inventorySupply.js). */
module SupplyPlan {
  import opened Basics
  import opened JsText
  import opened SupplyPolicy

  datatype Item = Item(name: string, qty: nat)

  datatype Info = Info(total: nat, maintenance: nat, canonicalName: string, category: string)

  datatype Booking = Booking(equipment: string, qty: nat, startDT: int, endDT: int, status: string,
                             supplyError: string, identityCandidates: Option<seq<string>>)

  /** The equipment table and the identity ledger; name normalisation and the consumables rule are
      regular expressions and come in as parameters. */
  datatype Meta = Meta(nameKey: string -> string, excluded: (string, string) -> bool,
                       equipment: map<string, Info>, identityNames: map<string, string>,
                       identityConflicts: map<string, seq<string>>, sourceIssues: bool, categories: set<string>)

  /** One call: the tables, the schedule and the period [start, end) asked for. */
  datatype Ask = Ask(meta: Meta, schedule: seq<Booking>, start: int, end: int)

  datatype Allocation = Allocation(requestedName: string, name: string, qty: nat)

  datatype Conflict =
    | IdentityUnavailable(equipment: string)
    | Ambiguous(equipment: string)
    | InvalidSupply(equipment: string)
    | ChooseModel(equipment: string)
    | Short(equipment: string, total: nat, available: nat, requested: nat)

  datatype Warning = Unregistered(equipment: string) | UpgradeAllocated(equipment: string, upgraded: nat)

  datatype Plan = Plan(reserved: map<string, nat>, allocations: seq<Allocation>,
                       conflicts: seq<Conflict>, warnings: seq<Warning>)

  const NOTHING_YET := Plan(map[], [], [], [])

  function Smaller(a: int, b: int): int { if a < b then a else b }
  function Max(a: int, b: int): int { if a < b then b else a }

  // ---------------------------------------------------------------- names and screening

  function Canonical(m: Meta, name: string): string {
    if name in m.equipment && m.equipment[name].canonicalName != "" then m.equipment[name].canonicalName
    else if m.nameKey(name) in m.identityNames && m.identityNames[m.nameKey(name)] != ""
    then m.identityNames[m.nameKey(name)]
    else name
  }

  predicate Overlaps(q: Ask, b: Booking) {
    b.startDT < q.end && b.endDT > q.start
  }

  function CandidatesOf(m: Meta, b: Booking): seq<string> {
    if b.identityCandidates.Some? then b.identityCandidates.value
    else if m.nameKey(b.equipment) in m.identityConflicts then m.identityConflicts[m.nameKey(b.equipment)]
    else []
  }

  predicate IsAmbiguous(q: Ask, requestedName: string, name: string) {
    || q.meta.nameKey(requestedName) in q.meta.identityConflicts
    || exists b :: b in q.schedule && name in CandidatesOf(q.meta, b)
                   && b.status !in {"반납완료", "취소", "제외"} && Overlaps(q, b)
  }

  function RelatedNames(name: string): set<string> {
    if name == LOWER || name == UPPER then {LOWER, UPPER} else {name}
  }

  predicate HasInvalidSupply(q: Ask, name: string) {
    exists b :: b in q.schedule && b.supplyError != "" && b.equipment in RelatedNames(name) && Overlaps(q, b)
  }

  /** What the early exits of the loop over requests decide, in their order. */
  datatype Screening = Refused(conflict: Conflict) | Excluded | Unlisted(name: string) | Listed(name: string)

  function Resolved(m: Meta, item: Item): string {
    Canonical(m, Trim(item.name))
  }

  function Screen(q: Ask, item: Item): (r: Screening)
    ensures r.Listed? ==> r.name == Resolved(q.meta, item) && r.name in q.meta.equipment
  {
    var requestedName := Trim(item.name);
    var name := Resolved(q.meta, item);
    var category := if name in q.meta.equipment then q.meta.equipment[name].category else "";
    if q.meta.sourceIssues then Refused(IdentityUnavailable(requestedName))
    else if IsAmbiguous(q, requestedName, name) then Refused(Ambiguous(requestedName))
    else if q.meta.excluded(name, category) then Excluded
    else if HasInvalidSupply(q, name) then Refused(InvalidSupply(name))
    else if name in q.meta.equipment then Listed(name)
    else if name in q.meta.categories then Refused(ChooseModel(name))
    else Unlisted(name)
  }

  /** `Number(item.qty) || 1` */
  function Qty(item: Item): nat {
    if item.qty == 0 then 1 else item.qty
  }

  // ---------------------------------------------------------------- stock that is free over the period

  predicate Holds(q: Ask, name: string, b: Booking) {
    Canonical(q.meta, b.equipment) == name && b.status != "반납완료" && b.status != "취소"
  }

  function Over(q: Ask, name: string, n: nat): seq<Booking>
    requires n <= |q.schedule|
  {
    if n == 0 then []
    else
      var b := q.schedule[n - 1];
      Over(q, name, n - 1) + if Holds(q, name, b) && Overlaps(q, b) then [b] else []
  }

  /** The period's start and each later start of an overlapping booking. */
  function Instants(q: Ask, over: seq<Booking>): seq<int> {
    if over == [] then [q.start]
    else
      var b := over[|over| - 1];
      Instants(q, over[..|over| - 1]) + if b.startDT > q.start then [b.startDT] else []
  }

  function SumAt(over: seq<Booking>, t: int): nat {
    if over == [] then 0
    else
      var b := over[|over| - 1];
      SumAt(over[..|over| - 1], t) + if b.startDT <= t < b.endDT then b.qty else 0
  }

  function PeakOf(over: seq<Booking>, at: seq<int>): nat {
    if at == [] then 0 else Max(PeakOf(over, at[..|at| - 1]), SumAt(over, at[|at| - 1]))
  }

  function Peak(q: Ask, name: string): nat {
    var over := Over(q, name, |q.schedule|);
    PeakOf(over, Instants(q, over))
  }

  function Reserved(reserved: map<string, nat>, name: string): nat {
    if name in reserved then reserved[name] else 0
  }

  function Free(q: Ask, reserved: map<string, nat>, raw: string): nat {
    var name := Canonical(q.meta, raw);
    if name !in q.meta.equipment then 0
    else
      var info := q.meta.equipment[name];
      Max(0, info.total - info.maintenance - Peak(q, name) - Reserved(reserved, name))
  }

  method PeakNow(q: Ask, over: seq<Booking>) returns (peak: nat)
    ensures peak == PeakOf(over, Instants(q, over))
  {
    var at := [q.start];
    for i := 0 to |over|
      invariant at == Instants(q, over[..i])
    {
      assert over[..i + 1][..i] == over[..i];
      if over[i].startDT > q.start { at := at + [over[i].startDT]; }
    }
    assert over[..|over|] == over;
    peak := 0;
    for i := 0 to |at|
      invariant peak == PeakOf(over, at[..i])
    {
      var sum: nat := 0;
      for j := 0 to |over|
        invariant sum == SumAt(over[..j], at[i])
      {
        assert over[..j + 1][..j] == over[..j];
        if over[j].startDT <= at[i] && over[j].endDT > at[i] { sum := sum + over[j].qty; }
      }
      assert at[..i + 1][..i] == at[..i];
      peak := Max(peak, sum);
    }
    assert at[..|at|] == at;
  }

  method FreeNow(q: Ask, reserved: map<string, nat>, raw: string) returns (free: nat)
    ensures free == Free(q, reserved, raw)
  {
    hide Canonical, Holds, Overlaps, PeakOf, Instants;
    var name := Canonical(q.meta, raw);
    if name !in q.meta.equipment { return 0; }
    var info := q.meta.equipment[name];
    var over: seq<Booking> := [];
    for i := 0 to |q.schedule|
      invariant over == Over(q, name, i)
    {
      if Holds(q, name, q.schedule[i]) && Overlaps(q, q.schedule[i]) { over := over + [q.schedule[i]]; }
    }
    var peak := PeakNow(q, over);
    free := Max(0, info.total - info.maintenance - peak - Reserved(reserved, name));
  }

  // ---------------------------------------------------------------- the plan

  predicate Flexible(item: Item) {
    item.name == LOWER
  }

  /** The stable sort on the raw names: requests for an upgradable model go last. */
  function Ordered(items: seq<Item>): seq<Item> {
    Filtered(items, false) + Filtered(items, true)
  }

  function Filtered(items: seq<Item>, flexible: bool): seq<Item> {
    if items == [] then []
    else
      var item := items[|items| - 1];
      Filtered(items[..|items| - 1], flexible) + if Flexible(item) == flexible then [item] else []
  }

  /** Take up to `remaining` from one model after the other. */
  datatype Grab = Grab(reserved: map<string, nat>, allocations: seq<Allocation>, remaining: nat)

  function Take(q: Ask, g: Grab, requestedName: string, name: string, provided: string): (r: Grab)
    ensures r.remaining <= g.remaining
  {
    var quantity := Smaller(g.remaining, Free(q, g.reserved, provided));
    if quantity == 0 then g
    else Grab(g.reserved[provided := Reserved(g.reserved, provided) + quantity],
              g.allocations
              + [Allocation(requestedName, if provided == name then requestedName else provided, quantity)],
              g.remaining - quantity)
  }

  function TakeAll(q: Ask, g: Grab, requestedName: string, name: string, n: nat): (r: Grab)
    requires n <= |Candidates(name)|
    ensures r.remaining <= g.remaining
  {
    if n == 0 then g
    else Take(q, TakeAll(q, g, requestedName, name, n - 1), requestedName, name, Candidates(name)[n - 1])
  }

  function Grabbed(q: Ask, p: Plan, item: Item): (r: Grab)
    ensures r.remaining <= Qty(item)
  {
    var name := Resolved(q.meta, item);
    TakeAll(q, Grab(p.reserved, p.allocations, Qty(item)), Trim(item.name), name, |Candidates(name)|)
  }

  function Serve(q: Ask, p: Plan, item: Item): Plan {
    match Screen(q, item)
    case Refused(c) => p.(conflicts := p.conflicts + [c])
    case Excluded => p
    case Unlisted(name) => p.(warnings := p.warnings + [Unregistered(name)])
    case Listed(name) =>
      var g := Grabbed(q, p, item);
      var ownFree := Free(q, p.reserved, name);
      Plan(g.reserved, g.allocations,
           if g.remaining > 0
           then p.conflicts + [Short(name, q.meta.equipment[name].total, Qty(item) - g.remaining, Qty(item))]
           else p.conflicts,
           if g.remaining == 0 && ownFree < Qty(item)
           then p.warnings + [UpgradeAllocated(name, Qty(item) - ownFree)]
           else p.warnings)
  }

  function ServeAll(q: Ask, order: seq<Item>, n: nat): Plan
    requires n <= |order|
  {
    if n == 0 then NOTHING_YET else Serve(q, ServeAll(q, order, n - 1), order[n - 1])
  }

  function PlanOf(q: Ask, items: seq<Item>): Plan {
    ServeAll(q, Ordered(items), |Ordered(items)|)
  }

  method GrabNow(q: Ask, g: Grab, requestedName: string, name: string)
    returns (reserved: map<string, nat>, allocations: seq<Allocation>, remaining: nat)
    ensures Grab(reserved, allocations, remaining) == TakeAll(q, g, requestedName, name, |Candidates(name)|)
  {
    hide Free, Candidates;
    reserved, allocations, remaining := g.reserved, g.allocations, g.remaining;
    var candidates := Candidates(name);
    for j := 0 to |candidates|
      invariant Grab(reserved, allocations, remaining) == TakeAll(q, g, requestedName, name, j)
    {
      var provided := candidates[j];
      var free := FreeNow(q, reserved, provided);
      var quantity := Smaller(remaining, free);
      if quantity != 0 {
        allocations := allocations
          + [Allocation(requestedName, if provided == name then requestedName else provided, quantity)];
        reserved := reserved[provided := Reserved(reserved, provided) + quantity];
        remaining := remaining - quantity;
      }
    }
  }

  // ---------------------------------------------------------------- who is refused, said of the tables alone

  ghost predicate Meets(q: Ask, b: Booking) {
    b.startDT < q.end && q.start < b.endDT
  }

  /** An open booking in the period that may be of this model or of another. */
  ghost predicate Doubtful(q: Ask, b: Booking, name: string) {
    && Meets(q, b) && b.status != "반납완료" && b.status != "취소" && b.status != "제외"
    && match b.identityCandidates
       case Some(names) => name in names
       case None =>
         var key := q.meta.nameKey(b.equipment);
         key in q.meta.identityConflicts && name in q.meta.identityConflicts[key]
  }

  /** A booking in the period, of the model or of the one it substitutes, whose supply record cannot be read. */
  ghost predicate Unreadable(q: Ask, b: Booking, name: string) {
    && Meets(q, b) && b.supplyError != ""
    && (b.equipment == name || (b.equipment in [LOWER, UPPER] && name in [LOWER, UPPER]))
  }

  ghost predicate Ambiguity(q: Ask, item: Item) {
    || q.meta.nameKey(Trim(item.name)) in q.meta.identityConflicts
    || exists b :: b in q.schedule && Doubtful(q, b, Resolved(q.meta, item))
  }

  ghost predicate Consumable(q: Ask, item: Item) {
    var name := Resolved(q.meta, item);
    q.meta.excluded(name, if name in q.meta.equipment then q.meta.equipment[name].category else "")
  }

  ghost predicate BadSupply(q: Ask, item: Item) {
    exists b :: b in q.schedule && Unreadable(q, b, Resolved(q.meta, item))
  }

  ghost predicate BareCategory(q: Ask, item: Item) {
    Resolved(q.meta, item) !in q.meta.equipment && Resolved(q.meta, item) in q.meta.categories
  }

  /** What is reported of a request before stock comes into it: the first of its reasons, alone. */
  ghost function Refusal(q: Ask, item: Item): seq<Conflict> {
    if q.meta.sourceIssues then [IdentityUnavailable(Trim(item.name))]
    else if Ambiguity(q, item) then [Ambiguous(Trim(item.name))]
    else if Consumable(q, item) then []
    else if BadSupply(q, item) then [InvalidSupply(Resolved(q.meta, item))]
    else if BareCategory(q, item) then [ChooseModel(Resolved(q.meta, item))]
    else []
  }

  ghost predicate FromStock(q: Ask, item: Item) {
    Refusal(q, item) == [] && !Consumable(q, item) && Resolved(q.meta, item) in q.meta.equipment
  }

  ghost function Refusals(q: Ask, order: seq<Item>, n: nat): seq<Conflict>
    requires n <= |order|
  {
    if n == 0 then [] else Refusals(q, order, n - 1) + Refusal(q, order[n - 1])
  }

  ghost function BesidesShort(conflicts: seq<Conflict>): seq<Conflict> {
    if conflicts == [] then []
    else
      var c := conflicts[|conflicts| - 1];
      BesidesShort(conflicts[..|conflicts| - 1]) + if c.Short? then [] else [c]
  }

  lemma ScreenIs(q: Ask, item: Item)
    ensures Screen(q, item).Listed? <==> FromStock(q, item)
    ensures Refusal(q, item) == if Screen(q, item).Refused? then [Screen(q, item).conflict] else []
    ensures Screen(q, item).Unlisted? <==> Refusal(q, item) == [] && !Consumable(q, item) && !FromStock(q, item)
    ensures Screen(q, item).Unlisted? ==> Screen(q, item).name == Resolved(q.meta, item)
  {
    hide Trim, Canonical;
    AmbiguityIs(q, item);
    BadSupplyIs(q, item);
  }

  lemma AmbiguityIs(q: Ask, item: Item)
    ensures IsAmbiguous(q, Trim(item.name), Resolved(q.meta, item)) <==> Ambiguity(q, item)
  {
    hide Trim, Canonical;
  }

  lemma BadSupplyIs(q: Ask, item: Item)
    ensures HasInvalidSupply(q, Resolved(q.meta, item)) <==> BadSupply(q, item)
  {
    hide Trim, Canonical;
  }

  lemma BesidesShortSnoc(conflicts: seq<Conflict>, c: Conflict)
    ensures BesidesShort(conflicts + [c]) == BesidesShort(conflicts) + if c.Short? then [] else [c]
  {
    assert (conflicts + [c])[..|conflicts|] == conflicts;
  }

  lemma TakeFor(q: Ask, g: Grab, requestedName: string, name: string, provided: string)
    ensures var r := Take(q, g, requestedName, name, provided); var n := g.remaining - r.remaining;
      && n == Smaller(g.remaining, Free(q, g.reserved, provided))
      && r.allocations == g.allocations
         + if n == 0 then []
           else [Allocation(requestedName, if provided == name then requestedName else provided, n)]
  {
    hide Free;
  }

  function TotalOf(q: Ask, item: Item): nat {
    var name := Resolved(q.meta, item);
    if name in q.meta.equipment then q.meta.equipment[name].total else 0
  }

  /** What serving one request from stock allocates and reports: its own model first, under the name asked for, then the
      upgrade; a shortage with what it got, or the number of upgraded units. */
  lemma ServedReport(q: Ask, p: Plan, item: Item) returns (own: nat, up: nat)
    requires FromStock(q, item)
    ensures var asked, name, r := Trim(item.name), Resolved(q.meta, item), Serve(q, p, item);
      && own == Smaller(Qty(item), Free(q, p.reserved, name)) && own + up <= Qty(item) && (up > 0 ==> name == LOWER)
      && r.allocations == p.allocations
         + (if own > 0 then [Allocation(asked, asked, own)] else [])
         + (if up > 0 then [Allocation(asked, UPPER, up)] else [])
      && r.conflicts == p.conflicts
         + (if own + up < Qty(item) then [Short(name, TotalOf(q, item), own + up, Qty(item))] else [])
      && r.warnings == p.warnings
         + (if own + up == Qty(item) && up > 0 then [UpgradeAllocated(name, up)] else [])
  {
    hide Free, Screen, Trim, Canonical, Take;
    ScreenIs(q, item);
    hide Refusal, FromStock;
    var asked, name := Trim(item.name), Resolved(q.meta, item);
    var g0 := Grab(p.reserved, p.allocations, Qty(item));
    TakeFor(q, g0, asked, name, name);
    var g1 := Take(q, g0, asked, name, name);
    own := Qty(item) - g1.remaining;
    if name == LOWER {
      GrabFlexible(q, p, item);
      TakeFor(q, g1, asked, name, UPPER);
      LowerIsNotUpper();
      up := g1.remaining - Take(q, g1, asked, name, UPPER).remaining;
    } else {
      GrabPlain(q, p, item, name);
      up := 0;
    }
  }

  /** A request that is not served from stock gets nothing; its own refusal, or that it is unregistered, is all that is
      reported of it. */
  lemma NotFromStock(q: Ask, p: Plan, item: Item)
    requires !FromStock(q, item)
    ensures var r := Serve(q, p, item);
      && r.allocations == p.allocations && r.reserved == p.reserved && r.conflicts == p.conflicts + Refusal(q, item)
      && r.warnings == p.warnings
         + if Refusal(q, item) == [] && !Consumable(q, item) then [Unregistered(Resolved(q.meta, item))] else []
  {
    ScreenIs(q, item);
    hide Screen, Trim, Canonical, Refusal, FromStock, Resolved, Consumable;
  }

  lemma RefusalIs(q: Ask, item: Item)
    ensures FromStock(q, item) ==> Refusal(q, item) == []
    ensures Refusal(q, item) != [] ==> |Refusal(q, item)| == 1 && !Refusal(q, item)[0].Short?
  {
    hide Ambiguity, Consumable, BadSupply, BareCategory, Trim, Resolved;
  }

  lemma ServeReports(q: Ask, p: Plan, item: Item)
    ensures var r := Serve(q, p, item);
      && BesidesShort(r.conflicts) == BesidesShort(p.conflicts) + Refusal(q, item)
      && (forall a :: a in r.allocations ==>
            a in p.allocations || (FromStock(q, item) && a.requestedName == Trim(item.name)))
  {
    RefusalIs(q, item);
    hide Screen, Trim, Canonical, Refusal, FromStock, Free, Serve, BesidesShort, Resolved;
    if FromStock(q, item) {
      var own, up := ServedReport(q, p, item);
      assert p.conflicts + [] == p.conflicts;
      BesidesShortSnoc(p.conflicts, Short(Resolved(q.meta, item), TotalOf(q, item), own + up, Qty(item)));
    } else {
      NotFromStock(q, p, item);
      if Refusal(q, item) == [] {
        assert p.conflicts + [] == p.conflicts;
      } else {
        BesidesShortSnoc(p.conflicts, Refusal(q, item)[0]);
        assert Refusal(q, item) == [Refusal(q, item)[0]];
      }
    }
  }

  lemma {:induction false} ServeAllReports(q: Ask, order: seq<Item>, n: nat)
    requires n <= |order|
    ensures var p := ServeAll(q, order, n);
      && BesidesShort(p.conflicts) == Refusals(q, order, n)
      && forall a :: a in p.allocations ==>
           exists i :: 0 <= i < n && FromStock(q, order[i]) && a.requestedName == Trim(order[i].name)
  {
    hide Serve, FromStock, Refusal, Trim;
    if n > 0 {
      ServeAllReports(q, order, n - 1);
      ServeReports(q, ServeAll(q, order, n - 1), order[n - 1]);
    }
  }

  lemma SameNameSameStock(q: Ask, a: Item, b: Item)
    requires Trim(a.name) == Trim(b.name)
    ensures FromStock(q, a) <==> FromStock(q, b)
  {
    hide Trim, Canonical;
  }

  lemma {:induction false} NoneRefusedAt(q: Ask, order: seq<Item>, n: nat, i: nat)
    requires i < n <= |order| && Refusals(q, order, n) == []
    ensures Refusal(q, order[i]) == []
  {
    hide Refusal;
    if i < n - 1 { NoneRefusedAt(q, order, n - 1, i); }
  }

  /** The refusals of a plan are those of the requests in the order of service, each reported once and alone; nothing is
      allocated for a refused, excluded or unregistered request; and a plan without conflict refuses nobody. */
  lemma PlanReports(q: Ask, items: seq<Item>)
    ensures var p := PlanOf(q, items);
      && BesidesShort(p.conflicts) == Refusals(q, Ordered(items), |Ordered(items)|)
      && (forall a, item :: a in p.allocations && item in items && !FromStock(q, item) ==>
            a.requestedName != Trim(item.name))
      && (p.conflicts == [] ==> forall item :: item in items ==> Refusal(q, item) == [])
  {
    hide ServeAll, Refusal, Trim, FromStock;
    var order := Ordered(items);
    ServeAllReports(q, order, |order|);
    FilteredBoth(items);
    FilteredFrom(items, false);
    FilteredFrom(items, true);
    var p := PlanOf(q, items);
    forall a, item | a in p.allocations && item in items && !FromStock(q, item)
      ensures a.requestedName != Trim(item.name)
    {
      var i :| 0 <= i < |order| && FromStock(q, order[i]) && a.requestedName == Trim(order[i].name);
      if a.requestedName == Trim(item.name) { SameNameSameStock(q, order[i], item); }
    }
    if p.conflicts == [] {
      forall item | item in items
        ensures Refusal(q, item) == []
      {
        var i :| 0 <= i < |order| && order[i] == item;
        NoneRefusedAt(q, order, |order|, i);
      }
    }
  }

  lemma PlanRefusesNone(q: Ask, items: seq<Item>)
    ensures PlanOf(q, items).conflicts == [] ==> forall item :: item in items ==>
              && !q.meta.sourceIssues && !Ambiguity(q, item)
              && (Consumable(q, item) || (!BadSupply(q, item) && !BareCategory(q, item)))
  {
    hide Ambiguity, Consumable, BadSupply, BareCategory, Trim, Resolved, PlanOf;
    PlanReports(q, items);
    forall item | PlanOf(q, items).conflicts == [] && item in items
      ensures !q.meta.sourceIssues && !Ambiguity(q, item)
      ensures Consumable(q, item) || (!BadSupply(q, item) && !BareCategory(q, item))
    {
      assert Refusal(q, item) == [];
    }
  }

  /** `inventorySupplyPlan_`. */
  method MakePlan(q: Ask, items: seq<Item>) returns (ok: bool, plan: Plan)
    ensures plan == PlanOf(q, items)
    ensures ok == (plan.conflicts == [])
    ensures BesidesShort(plan.conflicts) == Refusals(q, Ordered(items), |Ordered(items)|)
    ensures forall a, item :: a in plan.allocations && item in items && !FromStock(q, item) ==>
              a.requestedName != Trim(item.name)
    ensures ok ==> forall item :: item in items ==>
              && !q.meta.sourceIssues && !Ambiguity(q, item)
              && (Consumable(q, item) || (!BadSupply(q, item) && !BareCategory(q, item)))
  {
    PlanReports(q, items);
    PlanRefusesNone(q, items);
    hide Screen, Free, Ordered, Candidates, Resolved, Trim, Ambiguity, Consumable, BadSupply, BareCategory;
    hide Refusal, Refusals, FromStock, BesidesShort;
    var order := Ordered(items);
    var reserved: map<string, nat> := map[];
    var allocations: seq<Allocation>, conflicts: seq<Conflict>, warnings: seq<Warning> := [], [], [];
    for i := 0 to |order|
      invariant Plan(reserved, allocations, conflicts, warnings) == ServeAll(q, order, i)
    {
      var item := order[i];
      match Screen(q, item) {
        case Refused(c) => conflicts := conflicts + [c];
        case Excluded =>
        case Unlisted(name) => warnings := warnings + [Unregistered(name)];
        case Listed(name) =>
          var requestedName, qty := Trim(item.name), Qty(item);
          var remaining: nat := qty;
          var ownFree := FreeNow(q, reserved, name);
          reserved, allocations, remaining := GrabNow(q, Grab(reserved, allocations, qty), requestedName, name);
          if remaining > 0 {
            conflicts := conflicts + [Short(name, q.meta.equipment[name].total, qty - remaining, qty)];
          } else if ownFree < qty {
            warnings := warnings + [UpgradeAllocated(name, qty - ownFree)];
          }
      }
    }
    plan := Plan(reserved, allocations, conflicts, warnings);
    ok := |conflicts| == 0;
  }

  // ---------------------------------------------------------------- sampling at starts finds the true peak

  /** The simple reading: what the first n bookings hold of a model at instant t. */
  function LiveAt(q: Ask, name: string, n: nat, t: int): nat
    requires n <= |q.schedule|
  {
    if n == 0 then 0
    else
      var b := q.schedule[n - 1];
      LiveAt(q, name, n - 1, t) + if Holds(q, name, b) && b.startDT <= t < b.endDT then b.qty else 0
  }

  lemma {:induction false} SumIsLive(q: Ask, name: string, n: nat, t: int)
    requires n <= |q.schedule| && q.start <= t < q.end
    ensures SumAt(Over(q, name, n), t) == LiveAt(q, name, n, t)
  {
    if n > 0 {
      SumIsLive(q, name, n - 1, t);
      var over := Over(q, name, n);
      if over != Over(q, name, n - 1) { assert over[..|over| - 1] == Over(q, name, n - 1); }
    }
  }

  lemma {:induction false} OverlapsAll(q: Ask, name: string, n: nat)
    requires n <= |q.schedule|
    ensures forall b :: b in Over(q, name, n) ==> Overlaps(q, b)
  {
    if n > 0 { OverlapsAll(q, name, n - 1); }
  }

  /** The last start at or before t dominates t: whatever is out at t was already out then. */
  lemma {:induction false} LatestStart(q: Ask, over: seq<Booking>, t: int) returns (u: int)
    requires q.start <= t
    ensures u in Instants(q, over) && q.start <= u <= t
    ensures forall b :: b in over && b.startDT <= t ==> b.startDT <= u
  {
    if over == [] {
      u := q.start;
    } else {
      var b := over[|over| - 1];
      u := LatestStart(q, over[..|over| - 1], t);
      assert forall c :: c in over ==> c == b || c in over[..|over| - 1];
      if u < b.startDT <= t { u := b.startDT; }
    }
  }

  lemma {:induction false} SumDominates(over: seq<Booking>, u: int, t: int)
    requires u <= t && forall b :: b in over && b.startDT <= t ==> b.startDT <= u
    ensures SumAt(over, t) <= SumAt(over, u)
  {
    if over != [] {
      assert over[|over| - 1] in over;
      assert forall c :: c in over[..|over| - 1] ==> c in over;
      SumDominates(over[..|over| - 1], u, t);
    }
  }

  lemma {:induction false} PeakCovers(over: seq<Booking>, at: seq<int>, u: int)
    requires u in at
    ensures SumAt(over, u) <= PeakOf(over, at)
  {
    if u != at[|at| - 1] { PeakCovers(over, at[..|at| - 1], u); }
  }

  lemma {:induction false} PeakReached(over: seq<Booking>, at: seq<int>) returns (u: int)
    requires at != []
    ensures u in at && SumAt(over, u) == PeakOf(over, at)
  {
    u := at[|at| - 1];
    if |at| > 1 && SumAt(over, u) < PeakOf(over, at) {
      u := PeakReached(over, at[..|at| - 1]);
    }
  }

  lemma {:induction false} InstantsInside(q: Ask, over: seq<Booking>)
    requires q.start < q.end && forall b :: b in over ==> Overlaps(q, b)
    ensures Instants(q, over) != [] && forall u :: u in Instants(q, over) ==> q.start <= u < q.end
  {
    if over != [] {
      assert over[|over| - 1] in over;
      assert forall c :: c in over[..|over| - 1] ==> c in over;
      InstantsInside(q, over[..|over| - 1]);
    }
  }

  /** The occupancy computed from booking starts is the maximum over all instants of the period. */
  lemma PeakIsTheMaximum(q: Ask, name: string)
    requires q.start < q.end
    ensures forall t :: q.start <= t < q.end ==> LiveAt(q, name, |q.schedule|, t) <= Peak(q, name)
    ensures exists t :: q.start <= t < q.end && LiveAt(q, name, |q.schedule|, t) == Peak(q, name)
  {
    var n := |q.schedule|;
    var over := Over(q, name, n);
    var at := Instants(q, over);
    OverlapsAll(q, name, n);
    InstantsInside(q, over);
    forall t | q.start <= t < q.end ensures LiveAt(q, name, n, t) <= Peak(q, name) {
      var u := LatestStart(q, over, t);
      SumDominates(over, u, t);
      PeakCovers(over, at, u);
      SumIsLive(q, name, n, t);
    }
    var u := PeakReached(over, at);
    SumIsLive(q, name, n, u);
  }

  // ---------------------------------------------------------------- a plan never gives out more than there is

  function Stock(q: Ask, name: string): nat {
    Free(q, map[], name)
  }

  ghost predicate Stable(m: Meta, name: string) {
    Canonical(m, name) == name
  }

  /** The upgrade goes by its own name, stands for the very model it replaces, or is not there to give. */
  ghost predicate SafeUpgrade(q: Ask) {
    || Stable(q.meta, UPPER)
    || (Canonical(q.meta, UPPER) == LOWER && Stable(q.meta, LOWER))
    || Stock(q, UPPER) == 0
  }

  /** Resolving the resolved name again changes nothing, or there is nothing to give under it. */
  ghost predicate SafeName(q: Ask, name: string) {
    (Stable(q.meta, name) || Stock(q, name) == 0) && (name == LOWER ==> SafeUpgrade(q))
  }

  ghost predicate SafeNames(q: Ask, items: seq<Item>) {
    forall item :: item in items && Screen(q, item).Listed? ==> SafeName(q, Resolved(q.meta, item))
  }

  /** What the allocations hand out of one physical model. */
  function Given(m: Meta, allocations: seq<Allocation>, name: string): nat {
    if allocations == [] then 0
    else
      var a := allocations[|allocations| - 1];
      Given(m, allocations[..|allocations| - 1], name) + if Canonical(m, a.name) == name then a.qty else 0
  }

  lemma FreeIsStockLeft(q: Ask, reserved: map<string, nat>, name: string)
    requires Stable(q.meta, name)
    ensures Free(q, reserved, name) == Max(0, Stock(q, name) - Reserved(reserved, name))
  {
  }

  ghost predicate Booked(q: Ask, reserved: map<string, nat>, allocations: seq<Allocation>) {
    forall m :: && Given(q.meta, allocations, m) == Reserved(reserved, m)
                && (Reserved(reserved, m) > 0 ==> Stable(q.meta, m))
                && (Stable(q.meta, m) ==> Reserved(reserved, m) <= Stock(q, m))
  }

  lemma GivenLast(m: Meta, allocations: seq<Allocation>, a: Allocation, name: string)
    ensures Given(m, allocations + [a], name)
            == Given(m, allocations, name) + if Canonical(m, a.name) == name then a.qty else 0
  {
    assert (allocations + [a])[..|allocations + [a]| - 1] == allocations;
  }

  lemma TakeKeepsBooked(q: Ask, g: Grab, requestedName: string, name: string, provided: string)
    requires Booked(q, g.reserved, g.allocations) && Stable(q.meta, provided)
    requires provided == name ==> Canonical(q.meta, requestedName) == name
    ensures var r := Take(q, g, requestedName, name, provided); Booked(q, r.reserved, r.allocations)
  {
    hide Canonical, Free, Given, Stock, Reserved;
    FreeIsStockLeft(q, g.reserved, provided);
    TakeIs(q, g, requestedName, name, provided);
    var r := Take(q, g, requestedName, name, provided);
    var quantity := Smaller(g.remaining, Free(q, g.reserved, provided));
    if quantity != 0 {
      var a := Allocation(requestedName, if provided == name then requestedName else provided, quantity);
      assert r.allocations == g.allocations + [a];
      forall m
        ensures Given(q.meta, r.allocations, m) == Reserved(r.reserved, m)
        ensures Reserved(r.reserved, m) > 0 ==> Stable(q.meta, m)
        ensures Stable(q.meta, m) ==> Reserved(r.reserved, m) <= Stock(q, m)
      {
        assert Given(q.meta, g.allocations, m) == Reserved(g.reserved, m);
        GivenLast(q.meta, g.allocations, a, m);
      }
    }
  }

  /** An upgrade without a stable name gives nothing once the model it replaces is used up. */
  lemma UpgradeIdle(q: Ask, g: Grab, requestedName: string)
    requires SafeUpgrade(q) && !Stable(q.meta, UPPER) && Stable(q.meta, LOWER)
    requires g.remaining > 0 && Canonical(q.meta, UPPER) == LOWER ==> Free(q, g.reserved, LOWER) == 0
    ensures Take(q, g, requestedName, LOWER, UPPER) == g
  {
    hide Peak;
    assert Canonical(q.meta, UPPER) == LOWER ==> Free(q, g.reserved, UPPER) == Free(q, g.reserved, LOWER);
    assert Free(q, g.reserved, UPPER) <= Stock(q, UPPER);
  }

  lemma NothingToTake(q: Ask, g: Grab, requestedName: string, name: string, provided: string)
    requires Stock(q, provided) == 0
    ensures Take(q, g, requestedName, name, provided) == g
  {
    hide Peak;
  }

  lemma GrabKeepsBooked(q: Ask, p: Plan, item: Item)
    requires Booked(q, p.reserved, p.allocations) && SafeName(q, Resolved(q.meta, item))
    ensures var g := Grabbed(q, p, item); Booked(q, g.reserved, g.allocations)
  {
    hide Canonical, Take, Booked, Free;
    var name, requestedName := Resolved(q.meta, item), Trim(item.name);
    var g0 := Grab(p.reserved, p.allocations, Qty(item));
    assert TakeAll(q, g0, requestedName, name, 0) == g0;
    if Stable(q.meta, name) {
      TakeKeepsBooked(q, g0, requestedName, name, name);
    } else {
      NothingToTake(q, g0, requestedName, name, name);
    }
    var g1 := TakeAll(q, g0, requestedName, name, 1);
    if name == LOWER {
      if Stable(q.meta, UPPER) {
        TakeKeepsBooked(q, g1, requestedName, name, UPPER);
      } else if Stable(q.meta, LOWER) {
        OwnUsedUp(q, g0, requestedName);
        UpgradeIdle(q, g1, requestedName);
      } else {
        NothingToTake(q, g1, requestedName, name, UPPER);
      }
    }
  }

  lemma OwnUsedUp(q: Ask, g: Grab, requestedName: string)
    requires Stable(q.meta, LOWER)
    ensures var r := Take(q, g, requestedName, LOWER, LOWER); r.remaining > 0 ==> Free(q, r.reserved, LOWER) == 0
  {
    hide Take, Canonical, Free, Stock, Reserved;
    TakeIs(q, g, requestedName, LOWER, LOWER);
    FreeIsStockLeft(q, g.reserved, LOWER);
    FreeIsStockLeft(q, Take(q, g, requestedName, LOWER, LOWER).reserved, LOWER);
  }

  lemma NothingBooked(q: Ask)
    ensures Booked(q, map[], [])
  {
  }

  lemma {:induction false} ServeAllBooked(q: Ask, order: seq<Item>, n: nat)
    requires n <= |order| && SafeNames(q, order)
    ensures var p := ServeAll(q, order, n); Booked(q, p.reserved, p.allocations)
  {
    hide Booked, Screen, Grabbed, Resolved, Canonical, Free, SafeName, Stable;
    if n == 0 {
      NothingBooked(q);
    } else {
      ServeAllBooked(q, order, n - 1);
      var item := order[n - 1];
      assert item in order;
      if Screen(q, item).Listed? { GrabKeepsBooked(q, ServeAll(q, order, n - 1), item); }
    }
  }

  lemma {:induction false} FilteredFrom(items: seq<Item>, flexible: bool)
    ensures forall item :: item in Filtered(items, flexible) ==> item in items
  {
    if items != [] { FilteredFrom(items[..|items| - 1], flexible); }
  }

  /** For every model that is handed out, live bookings plus all allocations stay within the stock
      that is not in maintenance, at every instant of the period. */
  lemma PlanNeverOverbooks(q: Ask, items: seq<Item>, m: string, t: int)
    requires SafeNames(q, items) && q.start <= t < q.end
    requires Given(q.meta, PlanOf(q, items).allocations, m) > 0
    ensures m in q.meta.equipment
    ensures LiveAt(q, m, |q.schedule|, t) + Given(q.meta, PlanOf(q, items).allocations, m)
            <= q.meta.equipment[m].total - q.meta.equipment[m].maintenance
  {
    FilteredFrom(items, false);
    FilteredFrom(items, true);
    ServeAllBooked(q, Ordered(items), |Ordered(items)|);
    PeakIsTheMaximum(q, m);
  }

  /** Some model is handed out beyond what is there at some instant. */
  ghost predicate Overbooks(q: Ask, items: seq<Item>, m: string) {
    var given := Given(q.meta, PlanOf(q, items).allocations, m);
    && given > 0
    && exists t :: q.start <= t < q.end
                   && (m in q.meta.equipment ==>
                         LiveAt(q, m, |q.schedule|, t) + given
                         > q.meta.equipment[m].total - q.meta.equipment[m].maintenance)
  }

  lemma SafeNeverOverbooks(q: Ask, items: seq<Item>, m: string)
    requires SafeNames(q, items)
    ensures !Overbooks(q, items, m)
  {
    if Overbooks(q, items, m) {
      var t :| q.start <= t < q.end
               && (m in q.meta.equipment ==>
                     LiveAt(q, m, |q.schedule|, t) + Given(q.meta, PlanOf(q, items).allocations, m)
                     > q.meta.equipment[m].total - q.meta.equipment[m].maintenance);
      PlanNeverOverbooks(q, items, m, t);
      assert false;
    }
  }

  // ---------------------------------------------------------------- no conflict iff the requests fit at all

  /** Resolving a resolved name again changes nothing, nor does it change the upgrade's name. */
  ghost predicate StableNames(m: Meta, items: seq<Item>) {
    forall item :: item in items ==>
      Stable(m, Resolved(m, item)) && (Resolved(m, item) == LOWER ==> Stable(m, UPPER))
  }

  ghost predicate AllListed(q: Ask, items: seq<Item>) {
    StableNames(q.meta, items) && forall item :: item in items ==> Screen(q, item).Listed?
  }

  function Demand(m: Meta, items: seq<Item>, name: string): nat {
    if items == [] then 0
    else
      var item := items[|items| - 1];
      Demand(m, items[..|items| - 1], name) + if Resolved(m, item) == name then Qty(item) else 0
  }

  /** What upgradable requests need beyond their own model. */
  function Overflow(q: Ask, items: seq<Item>): nat {
    Max(0, Demand(q.meta, items, LOWER) - Stock(q, LOWER))
  }

  ghost predicate Fits(q: Ask, items: seq<Item>) {
    && (forall m :: m != LOWER && m != UPPER ==> Demand(q.meta, items, m) <= Stock(q, m))
    && Demand(q.meta, items, UPPER) + Overflow(q, items) <= Stock(q, UPPER)
  }

  function Used(q: Ask, items: seq<Item>, m: string): nat {
    if m == LOWER then Smaller(Demand(q.meta, items, LOWER), Stock(q, LOWER))
    else if m == UPPER then Demand(q.meta, items, UPPER) + Overflow(q, items)
    else Demand(q.meta, items, m)
  }

  ghost predicate Uses(q: Ask, items: seq<Item>, reserved: map<string, nat>) {
    forall m :: Reserved(reserved, m) == Used(q, items, m)
  }

  function Left(q: Ask, reserved: map<string, nat>, name: string): nat {
    Max(0, Stock(q, name) - Reserved(reserved, name))
  }

  lemma TakeIs(q: Ask, g: Grab, requestedName: string, name: string, provided: string)
    requires Stable(q.meta, provided)
    ensures var r := Take(q, g, requestedName, name, provided);
            && r.remaining == g.remaining - Smaller(g.remaining, Left(q, g.reserved, provided))
            && Reserved(r.reserved, provided)
               == Reserved(g.reserved, provided) + Smaller(g.remaining, Left(q, g.reserved, provided))
            && forall m :: m != provided ==> Reserved(r.reserved, m) == Reserved(g.reserved, m)
  {
    FreeIsStockLeft(q, g.reserved, provided);
  }

  lemma GrabPlain(q: Ask, p: Plan, item: Item, name: string)
    requires Resolved(q.meta, item) == name && name != LOWER
    ensures Grabbed(q, p, item) == Take(q, Grab(p.reserved, p.allocations, Qty(item)), Trim(item.name), name, name)
  {
    hide Take, Canonical;
    var g0 := Grab(p.reserved, p.allocations, Qty(item));
    assert TakeAll(q, g0, Trim(item.name), name, 0) == g0;
  }

  lemma GrabFlexible(q: Ask, p: Plan, item: Item)
    requires Resolved(q.meta, item) == LOWER
    ensures Grabbed(q, p, item)
            == Take(q, Take(q, Grab(p.reserved, p.allocations, Qty(item)), Trim(item.name), LOWER, LOWER),
                    Trim(item.name), LOWER, UPPER)
  {
    hide Take, Canonical;
    var g0 := Grab(p.reserved, p.allocations, Qty(item));
    assert TakeAll(q, g0, Trim(item.name), LOWER, 0) == g0;
    assert TakeAll(q, g0, Trim(item.name), LOWER, 1) == Take(q, g0, Trim(item.name), LOWER, LOWER);
  }

  lemma ServeListed(q: Ask, p: Plan, item: Item)
    requires Screen(q, item).Listed?
    ensures var r := Serve(q, p, item);
            && r.reserved == Grabbed(q, p, item).reserved && p.conflicts <= r.conflicts
            && (r.conflicts == p.conflicts <==> Grabbed(q, p, item).remaining == 0)
            && (Grabbed(q, p, item).remaining > 0 ==>
                  var name, got := Resolved(q.meta, item), Qty(item) - Grabbed(q, p, item).remaining;
                  r.conflicts == p.conflicts + [Short(name, q.meta.equipment[name].total, got, Qty(item))])
  {
    hide Screen, Grabbed, Free, Resolved;
  }

  /** How one listed request changes the reservations, and when it is refused. */
  ghost predicate ServedAs(q: Ask, p: Plan, r: Plan, item: Item, name: string) {
    var own := Smaller(Qty(item), Left(q, p.reserved, name));
    var up := if name == LOWER then Smaller(Qty(item) - own, Left(q, p.reserved, UPPER)) else 0;
    && p.conflicts <= r.conflicts
    && (r.conflicts == p.conflicts <==> own + up == Qty(item))
    && (own + up < Qty(item) ==> |r.conflicts| == |p.conflicts| + 1
                                 && r.conflicts[|p.conflicts|].Short? && r.conflicts[|p.conflicts|].equipment == name)
    && forall m :: Reserved(r.reserved, m) == Reserved(p.reserved, m)
                   + if m == name then own else if name == LOWER && m == UPPER then up else 0
  }

  lemma ServeIsPlain(q: Ask, p: Plan, item: Item, name: string)
    requires Screen(q, item) == Listed(name) && Stable(q.meta, name) && name != LOWER
    ensures ServedAs(q, p, Serve(q, p, item), item, name)
  {
    hide Screen, Serve, Grabbed, Take, Canonical, Left, Resolved;
    ServeListed(q, p, item);
    TakeIs(q, Grab(p.reserved, p.allocations, Qty(item)), Trim(item.name), name, name);
    GrabPlain(q, p, item, name);
  }

  lemma TakeTwice(q: Ask, g: Grab, requestedName: string, name: string, upgrade: string)
    requires Stable(q.meta, name) && Stable(q.meta, upgrade) && name != upgrade
    ensures var r := Take(q, Take(q, g, requestedName, name, name), requestedName, name, upgrade);
            var own := Smaller(g.remaining, Left(q, g.reserved, name));
            var up := Smaller(g.remaining - own, Left(q, g.reserved, upgrade));
            && r.remaining == g.remaining - own - up
            && forall m :: Reserved(r.reserved, m)
                           == Reserved(g.reserved, m) + if m == name then own else if m == upgrade then up else 0
  {
    hide Take, Stock, Canonical, Reserved;
    var g1 := Take(q, g, requestedName, name, name);
    TakeIs(q, g, requestedName, name, name);
    TakeIs(q, g1, requestedName, name, upgrade);
  }

  lemma GrabFlexibleIs(q: Ask, p: Plan, item: Item)
    requires Resolved(q.meta, item) == LOWER && Stable(q.meta, LOWER) && Stable(q.meta, UPPER)
    ensures var g := Grabbed(q, p, item);
            var own := Smaller(Qty(item), Left(q, p.reserved, LOWER));
            var up := Smaller(Qty(item) - own, Left(q, p.reserved, UPPER));
            && g.remaining == Qty(item) - own - up
            && forall m :: Reserved(g.reserved, m)
                           == Reserved(p.reserved, m) + if m == LOWER then own else if m == UPPER then up else 0
  {
    hide Grabbed, Take, Canonical, Stock, Resolved, Left, Reserved;
    LowerIsNotUpper();
    GrabFlexible(q, p, item);
    TakeTwice(q, Grab(p.reserved, p.allocations, Qty(item)), Trim(item.name), LOWER, UPPER);
  }

  lemma ServeIsFlexible(q: Ask, p: Plan, item: Item)
    requires Screen(q, item) == Listed(LOWER) && Stable(q.meta, LOWER) && Stable(q.meta, UPPER)
    ensures ServedAs(q, p, Serve(q, p, item), item, LOWER)
  {
    hide Screen, Serve, Grabbed, Canonical, Resolved, Left, Reserved, Stable;
    ServeListed(q, p, item);
    GrabFlexibleIs(q, p, item);
  }

  lemma LowerIsNotUpper()
    ensures LOWER != UPPER
  {
    assert |LOWER| < |UPPER|;
  }

  lemma ServeIs(q: Ask, p: Plan, item: Item, name: string)
    requires Screen(q, item) == Listed(name) && Stable(q.meta, name) && (name == LOWER ==> Stable(q.meta, UPPER))
    ensures ServedAs(q, p, Serve(q, p, item), item, name)
  {
    if name == LOWER { ServeIsFlexible(q, p, item); } else { ServeIsPlain(q, p, item, name); }
  }

  lemma DemandLast(m: Meta, order: seq<Item>, n: nat, name: string)
    requires 0 < n <= |order|
    ensures Demand(m, order[..n], name)
            == Demand(m, order[..n - 1], name) + if Resolved(m, order[n - 1]) == name then Qty(order[n - 1]) else 0
  {
    assert order[..n][..n - 1] == order[..n - 1];
  }

  /** One more request keeps "no conflict so far iff the requests so far fit". */
  lemma StepFits(q: Ask, before: seq<Item>, after: seq<Item>, p: Plan, r: Plan, item: Item, name: string)
    requires ServedAs(q, p, r, item, name)
    requires forall m :: Demand(q.meta, after, m) == Demand(q.meta, before, m) + if name == m then Qty(item) else 0
    requires p.conflicts == [] <==> Fits(q, before)
    requires Fits(q, before) ==> Uses(q, before, p.reserved)
    ensures r.conflicts == [] <==> Fits(q, after)
    ensures Fits(q, after) ==> Uses(q, after, r.reserved)
  {
    hide Demand, Stock, Qty;
    if p.conflicts == [] {
      assert Reserved(p.reserved, name) == Used(q, before, name);
      assert Reserved(p.reserved, UPPER) == Used(q, before, UPPER);
      if r.conflicts == [] {
        forall m ensures Reserved(r.reserved, m) == Used(q, after, m) {
          assert Reserved(p.reserved, m) == Used(q, before, m);
        }
      }
    } else {
      FitsShrinks(q, before, after, name, Qty(item));
    }
  }

  lemma FitsShrinks(q: Ask, before: seq<Item>, after: seq<Item>, name: string, qty: nat)
    requires forall m :: Demand(q.meta, after, m) == Demand(q.meta, before, m) + if name == m then qty else 0
    ensures Fits(q, after) ==> Fits(q, before)
  {
    hide Demand, Stock;
    if Fits(q, after) {
      forall m | m != LOWER && m != UPPER ensures Demand(q.meta, before, m) <= Stock(q, m) {
        assert Demand(q.meta, after, m) <= Stock(q, m);
      }
    }
  }

  lemma {:induction false} ServeAllFits(q: Ask, order: seq<Item>, n: nat)
    requires n <= |order| && AllListed(q, order)
    ensures ServeAll(q, order, n).conflicts == [] <==> Fits(q, order[..n])
    ensures Fits(q, order[..n]) ==> Uses(q, order[..n], ServeAll(q, order, n).reserved)
  {
    hide Screen, Serve, Canonical, Free, Stock, Resolved, ServedAs;
    if n > 0 {
      hide Fits, Uses;
      ServeAllFits(q, order, n - 1);
      var item := order[n - 1];
      assert item in order;
      var p := ServeAll(q, order, n - 1);
      ServeIs(q, p, item, Screen(q, item).name);
      forall m { DemandLast(q.meta, order, n, m); }
      StepFits(q, order[..n - 1], order[..n], p, ServeAll(q, order, n), item, Screen(q, item).name);
    }
  }

  lemma {:induction false} DemandConcat(m: Meta, a: seq<Item>, b: seq<Item>, name: string)
    ensures Demand(m, a + b, name) == Demand(m, a, name) + Demand(m, b, name)
  {
    hide Resolved, Qty;
    if b == [] {
      assert a + b == a;
    } else {
      assert (a + b)[..|a + b| - 1] == a + b[..|b| - 1];
      DemandConcat(m, a, b[..|b| - 1], name);
    }
  }

  lemma {:induction false} DemandFiltered(m: Meta, items: seq<Item>, name: string)
    ensures Demand(m, Filtered(items, false), name) + Demand(m, Filtered(items, true), name) == Demand(m, items, name)
  {
    hide Resolved, Qty, Flexible;
    if items != [] {
      var rest, item := items[..|items| - 1], items[|items| - 1];
      DemandFiltered(m, rest, name);
      DemandConcat(m, Filtered(rest, Flexible(item)), [item], name);
      assert [item][..0] == [];
      assert Filtered(items, !Flexible(item)) == Filtered(rest, !Flexible(item));
    }
  }

  lemma OrderedDemand(q: Ask, items: seq<Item>)
    ensures forall m :: Demand(q.meta, Ordered(items), m) == Demand(q.meta, items, m)
    ensures forall item :: item in Ordered(items) ==> item in items
  {
    forall m ensures Demand(q.meta, Ordered(items), m) == Demand(q.meta, items, m) {
      DemandFiltered(q.meta, items, m);
      DemandConcat(q.meta, Filtered(items, false), Filtered(items, true), m);
    }
    FilteredFrom(items, false);
    FilteredFrom(items, true);
  }

  /** A split serves ups[i] of request i from the upgrade and the rest from the requested model. */
  ghost predicate IsSplit(m: Meta, items: seq<Item>, ups: seq<nat>) {
    && |ups| == |items|
    && forall i :: 0 <= i < |items| ==> ups[i] <= Qty(items[i]) && (ups[i] > 0 ==> Resolved(m, items[i]) == LOWER)
  }

  function Load(m: Meta, items: seq<Item>, ups: seq<nat>, name: string): int
    requires |ups| == |items|
  {
    if items == [] then 0
    else
      var item, up := items[|items| - 1], ups[|ups| - 1];
      Load(m, items[..|items| - 1], ups[..|ups| - 1], name)
      + (if Resolved(m, item) == name then Qty(item) - up else 0) + (if name == UPPER then up else 0)
  }

  ghost predicate SplitFits(q: Ask, items: seq<Item>, ups: seq<nat>) {
    IsSplit(q.meta, items, ups) && forall m :: Load(q.meta, items, ups, m) <= Stock(q, m)
  }

  /** Some split of the requests over own models and the approved upgrade fits the free stock. */
  ghost predicate Feasible(q: Ask, items: seq<Item>) {
    exists ups :: SplitFits(q, items, ups)
  }

  lemma {:induction false} LoadOf(m: Meta, items: seq<Item>, ups: seq<nat>, name: string)
    requires IsSplit(m, items, ups)
    ensures name != LOWER && name != UPPER ==> Load(m, items, ups, name) == Demand(m, items, name)
    ensures Load(m, items, ups, LOWER) + Load(m, items, ups, UPPER) == Demand(m, items, LOWER) + Demand(m, items, UPPER)
    ensures Load(m, items, ups, UPPER) >= Demand(m, items, UPPER)
  {
    LowerIsNotUpper();
    if items != [] {
      LoadOf(m, items[..|items| - 1], ups[..|ups| - 1], name);
    }
  }

  /** The split the greedy rule amounts to: own stock first, in request order. */
  function GreedySplit(q: Ask, items: seq<Item>): (ups: seq<nat>)
    ensures |ups| == |items|
  {
    if items == [] then []
    else
      var rest := items[..|items| - 1];
      GreedySplit(q, rest) + [Max(0, Overflow(q, items) - Overflow(q, rest))]
  }

  lemma OverflowStep(q: Ask, items: seq<Item>)
    requires items != []
    ensures var rest, item := items[..|items| - 1], items[|items| - 1];
            var up := Overflow(q, items) - Overflow(q, rest);
            0 <= up <= Qty(item) && (up > 0 ==> Resolved(q.meta, item) == LOWER)
  {
    hide Stock, Resolved, Qty;
  }

  lemma {:induction false} GreedySplitIsSplit(q: Ask, items: seq<Item>)
    ensures IsSplit(q.meta, items, GreedySplit(q, items))
  {
    hide Overflow, Resolved, Qty;
    if items != [] {
      var rest := items[..|items| - 1];
      GreedySplitIsSplit(q, rest);
      OverflowStep(q, items);
      forall i | 0 <= i < |items|
        ensures var up := GreedySplit(q, items)[i];
                up <= Qty(items[i]) && (up > 0 ==> Resolved(q.meta, items[i]) == LOWER)
      {
        if i < |rest| { assert rest[i] == items[i] && GreedySplit(q, rest)[i] == GreedySplit(q, items)[i]; }
      }
    }
  }

  lemma {:induction false} GreedySplitLoads(q: Ask, items: seq<Item>, m: string)
    ensures Load(q.meta, items, GreedySplit(q, items), m) == Used(q, items, m)
  {
    hide Stock, Resolved, Qty;
    LowerIsNotUpper();
    if items != [] {
      var rest := items[..|items| - 1];
      GreedySplitLoads(q, rest, m);
      OverflowStep(q, items);
      var ups := GreedySplit(q, items);
      assert ups[..|ups| - 1] == GreedySplit(q, rest);
      assert ups[|ups| - 1] == Overflow(q, items) - Overflow(q, rest);
    }
  }

  lemma FitsIffFeasible(q: Ask, items: seq<Item>)
    ensures Fits(q, items) <==> Feasible(q, items)
  {
    hide Stock, Resolved, Load, Demand, GreedySplit;
    if Fits(q, items) {
      forall m ensures Load(q.meta, items, GreedySplit(q, items), m) <= Stock(q, m) {
        GreedySplitLoads(q, items, m);
      }
      GreedySplitIsSplit(q, items);
      assert SplitFits(q, items, GreedySplit(q, items));
    }
    if Feasible(q, items) {
      var ups :| SplitFits(q, items, ups);
      forall m | m != LOWER && m != UPPER ensures Demand(q.meta, items, m) <= Stock(q, m) {
        LoadOf(q.meta, items, ups, m);
      }
      LoadOf(q.meta, items, ups, UPPER);
      assert Load(q.meta, items, ups, LOWER) <= Stock(q, LOWER);
      assert Load(q.meta, items, ups, UPPER) <= Stock(q, UPPER);
    }
  }

  lemma ListedFitIffFeasible(q: Ask, items: seq<Item>)
    requires AllListed(q, items)
    ensures PlanOf(q, items).conflicts == [] <==> Feasible(q, items)
  {
    hide Screen, Resolved, Stock, ServeAll, Feasible, Demand;
    var order := Ordered(items);
    OrderedDemand(q, items);
    assert order[..|order|] == order;
    ServeAllFits(q, order, |order|);
    FitsIffFeasible(q, items);
  }

  // ---------------------------------------------------------------- requests that are not served from stock

  /** The requests that reach the stock: the others are refused, excluded or unregistered. */
  function ListedOf(q: Ask, items: seq<Item>): seq<Item> {
    if items == [] then []
    else
      var item := items[|items| - 1];
      ListedOf(q, items[..|items| - 1]) + if Screen(q, item).Listed? then [item] else []
  }

  lemma {:induction false} ListedOfIs(q: Ask, items: seq<Item>)
    ensures forall item :: item in ListedOf(q, items) <==> item in items && Screen(q, item).Listed?
  {
    hide Screen, Resolved, Trim, Canonical;
    if items != [] { ListedOfIs(q, items[..|items| - 1]); }
  }

  lemma ListedOfTwo(q: Ask, a: Item, b: Item)
    requires Screen(q, a).Listed? && Screen(q, b).Listed?
    ensures ListedOf(q, [a, b]) == [a, b]
  {
    hide Screen, Resolved, Trim, Canonical;
    assert [a, b][..1] == [a] && [a][..0] == [];
    assert ListedOf(q, [a]) == [a];
  }

  lemma {:induction false} ListedConcat(q: Ask, a: seq<Item>, b: seq<Item>)
    ensures ListedOf(q, a + b) == ListedOf(q, a) + ListedOf(q, b)
  {
    hide Screen, Resolved, Trim, Canonical;
    if b == [] {
      assert a + b == a && ListedOf(q, a) + [] == ListedOf(q, a);
    } else {
      assert (a + b)[..|a + b| - 1] == a + b[..|b| - 1];
      ListedConcat(q, a, b[..|b| - 1]);
    }
  }

  lemma FilteredLast(items: seq<Item>, item: Item, flexible: bool)
    ensures Filtered(items + [item], flexible)
            == Filtered(items, flexible) + if Flexible(item) == flexible then [item] else []
  {
    assert (items + [item])[..|items|] == items;
  }

  lemma {:induction false} ListedFiltered(q: Ask, items: seq<Item>, flexible: bool)
    ensures ListedOf(q, Filtered(items, flexible)) == Filtered(ListedOf(q, items), flexible)
  {
    hide Screen, Flexible, Resolved, Trim, Canonical;
    if items != [] {
      var rest, item := items[..|items| - 1], items[|items| - 1];
      ListedFiltered(q, rest, flexible);
      var kept, listed := Filtered(rest, flexible), ListedOf(q, rest);
      assert kept + [] == kept && listed + [] == listed && ListedOf(q, kept) + [] == ListedOf(q, kept);
      ListedConcat(q, kept, [item]);
      FilteredLast(listed, item, flexible);
      assert [item][..0] == [];
    }
  }

  lemma ListedOrdered(q: Ask, items: seq<Item>)
    ensures ListedOf(q, Ordered(items)) == Ordered(ListedOf(q, items))
  {
    ListedFiltered(q, items, false);
    ListedFiltered(q, items, true);
    ListedConcat(q, Filtered(items, false), Filtered(items, true));
  }

  ghost predicate ShortOf(conflicts: seq<Conflict>, name: string) {
    exists c :: c in conflicts && c.Short? && c.equipment == name
  }

  ghost predicate NoneRefused(q: Ask, items: seq<Item>) {
    forall item :: item in items ==> !Screen(q, item).Refused?
  }

  /** The plan with the unlisted requests, and the one without. */
  ghost predicate SamePlan(q: Ask, all: seq<Item>, p: Plan, r: Plan) {
    && p.reserved == r.reserved && p.allocations == r.allocations
    && (p.conflicts == [] <==> NoneRefused(q, all) && r.conflicts == [])
    && forall name :: ShortOf(p.conflicts, name) <==> ShortOf(r.conflicts, name)
  }

  lemma ShortOfLast(conflicts: seq<Conflict>, c: Conflict, name: string)
    ensures ShortOf(conflicts + [c], name) <==> ShortOf(conflicts, name) || (c.Short? && c.equipment == name)
  {
    if ShortOf(conflicts, name) {
      var d :| d in conflicts && d.Short? && d.equipment == name;
      assert d in conflicts + [c];
    }
    if c.Short? && c.equipment == name { assert c in conflicts + [c]; }
  }

  lemma RefusedIsNotShort(q: Ask, item: Item)
    ensures Screen(q, item).Refused? ==> !Screen(q, item).conflict.Short?
  {
    hide Trim, Canonical, IsAmbiguous, HasInvalidSupply;
  }

  /** What one request adds does not depend on the conflicts before it. */
  lemma ServeAdds(q: Ask, p: Plan, r: Plan, item: Item)
    requires p.reserved == r.reserved && p.allocations == r.allocations && Screen(q, item).Listed?
    ensures var a, b := Serve(q, p, item), Serve(q, r, item);
      && a.reserved == b.reserved && a.allocations == b.allocations
      && ((a.conflicts == p.conflicts && b.conflicts == r.conflicts)
          || exists c :: a.conflicts == p.conflicts + [c] && b.conflicts == r.conflicts + [c])
  {
    hide Screen, Free, Grabbed, Resolved, Qty;
    GrabbedAlike(q, p, r, item);
    var g, a, b := Grabbed(q, p, item), Serve(q, p, item), Serve(q, r, item);
    if g.remaining > 0 {
      var name := Screen(q, item).name;
      var c := Short(name, q.meta.equipment[name].total, Qty(item) - g.remaining, Qty(item));
      assert a.conflicts == p.conflicts + [c] && b.conflicts == r.conflicts + [c];
    }
  }

  lemma GrabbedAlike(q: Ask, p: Plan, r: Plan, item: Item)
    requires p.reserved == r.reserved && p.allocations == r.allocations
    ensures Grabbed(q, p, item) == Grabbed(q, r, item)
  {
    hide TakeAll, Resolved;
  }

  lemma SamePlanStep(q: Ask, all: seq<Item>, p: Plan, r: Plan, item: Item)
    requires SamePlan(q, all, p, r)
    ensures SamePlan(q, all + [item], Serve(q, p, item), if Screen(q, item).Listed? then Serve(q, r, item) else r)
  {
    hide Screen, ShortOf, Grabbed, Free, Qty, Resolved, Trim, Canonical;
    assert NoneRefused(q, all + [item]) <==> NoneRefused(q, all) && !Screen(q, item).Refused? by {
      assert item in all + [item];
    }
    if Screen(q, item).Listed? {
      ServeAdds(q, p, r, item);
      var a, b := Serve(q, p, item), Serve(q, r, item);
      if a.conflicts != p.conflicts {
        var c :| a.conflicts == p.conflicts + [c] && b.conflicts == r.conflicts + [c];
        forall name
          ensures ShortOf(a.conflicts, name) <==> ShortOf(b.conflicts, name)
        {
          ShortOfLast(p.conflicts, c, name);
          ShortOfLast(r.conflicts, c, name);
        }
      }
    } else if Screen(q, item).Refused? {
      RefusedIsNotShort(q, item);
      forall name
        ensures ShortOf(Serve(q, p, item).conflicts, name) <==> ShortOf(r.conflicts, name)
      {
        ShortOfLast(p.conflicts, Screen(q, item).conflict, name);
      }
    }
  }

  lemma {:induction false} ServeAllListed(q: Ask, order: seq<Item>, n: nat)
    requires n <= |order|
    ensures var listed := ListedOf(q, order[..n]);
      SamePlan(q, order[..n], ServeAll(q, order, n), ServeAll(q, listed, |listed|))
  {
    hide Screen, Serve, SamePlan, Resolved, Trim, Canonical;
    if n == 0 {
      assert SamePlan(q, [], NOTHING_YET, NOTHING_YET) by { SamePlanNothing(q); }
    } else {
      ServeAllListed(q, order, n - 1);
      var item := order[n - 1];
      var before := ListedOf(q, order[..n - 1]);
      assert order[..n] == order[..n - 1] + [item] && order[..n][..n - 1] == order[..n - 1];
      SamePlanStep(q, order[..n - 1], ServeAll(q, order, n - 1), ServeAll(q, before, |before|), item);
      ServeAllPrefix(q, before, before + [item], |before|);
      assert before + [] == before;
    }
  }

  lemma SamePlanNothing(q: Ask)
    ensures SamePlan(q, [], NOTHING_YET, NOTHING_YET)
  {
  }

  lemma {:induction false} ServeAllPrefix(q: Ask, a: seq<Item>, b: seq<Item>, n: nat)
    requires n <= |a| && a <= b
    ensures ServeAll(q, a, n) == ServeAll(q, b, n)
  {
    hide Serve;
    if n > 0 { ServeAllPrefix(q, a, b, n - 1); }
  }

  /** Requests that are not served from stock change neither what the others get nor which of them is short. */
  lemma OnlyListedMatter(q: Ask, items: seq<Item>)
    ensures SamePlan(q, items, PlanOf(q, items), PlanOf(q, ListedOf(q, items)))
  {
    hide Screen, ServeAll, ShortOf, Resolved, Trim, Canonical;
    var order := Ordered(items);
    assert order[..|order|] == order;
    ServeAllListed(q, order, |order|);
    ListedOrdered(q, items);
    FilteredFrom(items, false);
    FilteredFrom(items, true);
    FilteredBoth(items);
  }

  lemma {:induction false} FilteredBoth(items: seq<Item>)
    ensures forall item :: item in items ==> item in Ordered(items)
  {
    hide Flexible;
    if items != [] {
      var rest, item := items[..|items| - 1], items[|items| - 1];
      FilteredBoth(rest);
      assert items == rest + [item];
      FilteredLast(rest, item, false);
      FilteredLast(rest, item, true);
      hide Filtered;
      forall other | other in items
        ensures other in Filtered(items, false) || other in Filtered(items, true)
      {
        assert other == item || other in rest;
      }
    }
  }

  /** Greedy is complete: the plan reports no conflict exactly when no request is refused by the screening and those
      to be served from stock can be served at all. */
  lemma NoConflictIffFeasible(q: Ask, items: seq<Item>)
    requires StableNames(q.meta, ListedOf(q, items))
    ensures PlanOf(q, items).conflicts == [] <==> NoneRefused(q, items) && Feasible(q, ListedOf(q, items))
  {
    hide Screen, PlanOf, Feasible, NoneRefused, ShortOf, Resolved, Stable, Trim;
    OnlyListedMatter(q, items);
    ListedOfIs(q, items);
    ListedFitIffFeasible(q, ListedOf(q, items));
  }

  // ---------------------------------------------------------------- what the order of service is for

  /** In this order some exact request for the upgrade, with those before it and what upgradable requests before it need
      beyond their own model, exceeds the upgrade's stock. */
  ghost predicate Squeezed(q: Ask, order: seq<Item>, n: nat)
    requires n <= |order|
  {
    exists k :: 0 <= k < n && SqueezedAt(q, order, k)
  }

  ghost predicate SqueezedAt(q: Ask, order: seq<Item>, k: nat)
    requires k < |order|
  {
    && Resolved(q.meta, order[k]) == UPPER
    && Demand(q.meta, order[..k + 1], UPPER) + Overflow(q, order[..k]) > Stock(q, UPPER)
  }

  /** The two reservations after the requests served so far. */
  ghost predicate Drawn(q: Ask, served: seq<Item>, p: Plan) {
    && Reserved(p.reserved, LOWER) == Smaller(Demand(q.meta, served, LOWER), Stock(q, LOWER))
    && Reserved(p.reserved, UPPER) == Smaller(Demand(q.meta, served, UPPER) + Overflow(q, served), Stock(q, UPPER))
  }

  /** Arithmetic of one step: what is taken of what is left. */
  lemma DrawMore(demand: nat, stock: nat, more: nat)
    ensures Smaller(demand, stock) + Smaller(more, Max(0, stock - Smaller(demand, stock)))
            == Smaller(demand + more, stock)
    ensures more > 0 ==> (Smaller(more, Max(0, stock - Smaller(demand, stock))) < more <==> demand + more > stock)
    ensures more - Smaller(more, Max(0, stock - Smaller(demand, stock)))
            == Max(0, demand + more - stock) - Max(0, demand - stock)
  {
  }

  lemma DrawnStep(q: Ask, before: seq<Item>, after: seq<Item>, p: Plan, r: Plan, item: Item, name: string)
    requires ServedAs(q, p, r, item, name) && Drawn(q, before, p)
    requires forall m :: Demand(q.meta, after, m) == Demand(q.meta, before, m) + if name == m then Qty(item) else 0
    ensures Drawn(q, after, r)
    ensures ShortOf(r.conflicts, UPPER) <==>
              || ShortOf(p.conflicts, UPPER)
              || (name == UPPER && Demand(q.meta, after, UPPER) + Overflow(q, before) > Stock(q, UPPER))
  {
    hide Stock, Reserved, Demand, ShortOf;
    LowerIsNotUpper();
    var used := Demand(q.meta, before, UPPER) + Overflow(q, before);
    if name == LOWER {
      DrawMore(Demand(q.meta, before, LOWER), Stock(q, LOWER), Qty(item));
      DrawMore(used, Stock(q, UPPER), Overflow(q, after) - Overflow(q, before));
    } else if name == UPPER {
      DrawMore(used, Stock(q, UPPER), Qty(item));
    }
    if r.conflicts != p.conflicts {
      var n := |p.conflicts|;
      assert r.conflicts == p.conflicts + [r.conflicts[n]];
      ShortOfLast(p.conflicts, r.conflicts[n], UPPER);
    }
  }

  lemma NothingDrawn(q: Ask)
    ensures Drawn(q, [], NOTHING_YET) && !ShortOf(NOTHING_YET.conflicts, UPPER)
  {
    hide Stock;
  }

  lemma {:induction false} UpperServed(q: Ask, order: seq<Item>, n: nat)
    requires n <= |order| && AllListed(q, order)
    ensures Drawn(q, order[..n], ServeAll(q, order, n))
    ensures ShortOf(ServeAll(q, order, n).conflicts, UPPER) <==> Squeezed(q, order, n)
  {
    hide Screen, Serve, Resolved, Stock, ServedAs, ShortOf, Reserved, Drawn, SqueezedAt;
    if n == 0 {
      NothingDrawn(q);
      assert order[..0] == [];
    } else {
      UpperServed(q, order, n - 1);
      var item, p := order[n - 1], ServeAll(q, order, n - 1);
      var name := Screen(q, item).name;
      assert item in order;
      ServeIs(q, p, item, name);
      forall m
        ensures Demand(q.meta, order[..n], m) == Demand(q.meta, order[..n - 1], m) + if name == m then Qty(item) else 0
      {
        DemandLast(q.meta, order, n, m);
      }
      DrawnStep(q, order[..n - 1], order[..n], p, ServeAll(q, order, n), item, name);
      SqueezedLast(q, order, n);
    }
  }

  lemma SqueezedLast(q: Ask, order: seq<Item>, n: nat)
    requires 0 < n <= |order|
    ensures Squeezed(q, order, n) <==> Squeezed(q, order, n - 1) || SqueezedAt(q, order, n - 1)
    ensures SqueezedAt(q, order, n - 1) <==>
              && Resolved(q.meta, order[n - 1]) == UPPER
              && Demand(q.meta, order[..n], UPPER) + Overflow(q, order[..n - 1]) > Stock(q, UPPER)
  {
    hide Resolved, Demand, Overflow, Stock;
  }

  /** Exactly when an exact request for the upgrade is refused. */
  lemma UpperRefusedIff(q: Ask, items: seq<Item>)
    requires StableNames(q.meta, ListedOf(q, items))
    ensures var order := Ordered(ListedOf(q, items));
      ShortOf(PlanOf(q, items).conflicts, UPPER) <==> Squeezed(q, order, |order|)
  {
    hide Screen, ServeAll, ShortOf, Resolved, Stable, Squeezed;
    var listed := ListedOf(q, items);
    OnlyListedMatter(q, items);
    ListedOfIs(q, items);
    OrderedDemand(q, listed);
    UpperServed(q, Ordered(listed), |Ordered(listed)|);
  }

  lemma {:induction false} FilteredKind(items: seq<Item>, flexible: bool)
    ensures forall i :: 0 <= i < |Filtered(items, flexible)| ==> Flexible(Filtered(items, flexible)[i]) == flexible
  {
    hide Flexible;
    if items != [] { FilteredKind(items[..|items| - 1], flexible); }
  }

  lemma {:induction false} NoDemand(m: Meta, items: seq<Item>, name: string)
    requires forall item :: item in items ==> Resolved(m, item) != name
    ensures Demand(m, items, name) == 0
  {
    hide Resolved;
    if items != [] {
      assert items[|items| - 1] in items;
      NoDemand(m, items[..|items| - 1], name);
    }
  }

  lemma {:induction false} DemandGrows(m: Meta, order: seq<Item>, k: nat, n: nat, name: string)
    requires k <= n <= |order|
    ensures Demand(m, order[..k], name) <= Demand(m, order[..n], name)
  {
    hide Resolved, Demand;
    if k < n {
      DemandGrows(m, order, k, n - 1, name);
      DemandLast(m, order, n, name);
    }
  }

  /** The last exact request sees the whole exact demand. */
  lemma {:induction false} DemandPeaks(m: Meta, order: seq<Item>, n: nat, name: string)
    requires n <= |order| && Demand(m, order[..n], name) > 0
    ensures exists k :: 0 <= k < n && Resolved(m, order[k]) == name
                        && Demand(m, order[..k + 1], name) == Demand(m, order[..n], name)
  {
    hide Resolved;
    if n > 0 {
      DemandLast(m, order, n, name);
      if Resolved(m, order[n - 1]) != name { DemandPeaks(m, order, n - 1, name); }
    }
  }

  /** Every request for the model to be replaced names it by its own name. */
  ghost predicate LowerByName(q: Ask, items: seq<Item>) {
    forall item :: item in items && Resolved(q.meta, item) == LOWER ==> Flexible(item)
  }

  /** Then no such request comes before an exact one. */
  lemma NoLowerBefore(q: Ask, items: seq<Item>, k: nat)
    requires LowerByName(q, items) && k < |Ordered(items)| && Resolved(q.meta, Ordered(items)[k]) == UPPER
    ensures Demand(q.meta, Ordered(items)[..k], LOWER) == 0
  {
    var order := Ordered(items);
    LowerIsNotUpper();
    FilteredKind(items, false);
    FilteredKind(items, true);
    FilteredFrom(items, false);
    FilteredFrom(items, true);
    hide Trim, Canonical;
    forall item | item in order[..k]
      ensures Resolved(q.meta, item) != LOWER
    {
      var j :| 0 <= j < k && order[j] == item;
      assert order[j] in items;
    }
    NoDemand(q.meta, order[..k], LOWER);
  }

  /** Where the replaced model goes by its own name, exact requests for the upgrade are refused only when they alone
      exceed its stock: a flexible request never takes a unit one of them needs. */
  lemma UpperNeverLosesToFlexible(q: Ask, items: seq<Item>)
    requires StableNames(q.meta, ListedOf(q, items)) && LowerByName(q, ListedOf(q, items))
    ensures ShortOf(PlanOf(q, items).conflicts, UPPER) <==> Demand(q.meta, ListedOf(q, items), UPPER) > Stock(q, UPPER)
  {
    hide Screen, Resolved, Stock, PlanOf, Flexible, Demand, ShortOf, Stable, ListedOf;
    var listed := ListedOf(q, items);
    var order := Ordered(listed);
    UpperRefusedIff(q, items);
    OrderedDemand(q, listed);
    assert order[..|order|] == order;
    forall k | 0 <= k < |order| && Resolved(q.meta, order[k]) == UPPER
      ensures Overflow(q, order[..k]) == 0 && Demand(q.meta, order[..k + 1], UPPER) <= Demand(q.meta, order, UPPER)
    {
      NoLowerBefore(q, listed, k);
      DemandGrows(q.meta, order, k + 1, |order|, UPPER);
    }
    if Demand(q.meta, order, UPPER) > Stock(q, UPPER) {
      DemandPeaks(q.meta, order, |order|, UPPER);
      var k :| 0 <= k < |order| && Resolved(q.meta, order[k]) == UPPER
               && Demand(q.meta, order[..k + 1], UPPER) == Demand(q.meta, order, UPPER);
      assert SqueezedAt(q, order, k);
    }
  }

  function PlainInfo(total: nat, canonicalName: string): Info {
    Info(total, 0, canonicalName, "")
  }

  function SmallAsk(equipment: map<string, Info>): Ask {
    Ask(Meta(s => s, (n, c) => false, equipment, map[], map[], false, {}), [], 0, 1)
  }

  const ALIAS := "70200"
  const ALIASED_LOWER :=
    SmallAsk(map[LOWER := PlainInfo(0, ""), UPPER := PlainInfo(1, ""), ALIAS := PlainInfo(0, LOWER)])

  lemma TrimmedName(name: string)
    requires |name| >= 2 && !IsSpace(name[0]) && !IsSpace(name[|name| - 1])
    ensures Trim(name) == name
  {
    TrimIdle(name);
  }

  lemma DistinctNames()
    ensures ALIAS != LOWER && ALIAS != UPPER && LOWER != UPPER
    ensures Trim(ALIAS) == ALIAS && Trim(LOWER) == LOWER && Trim(UPPER) == UPPER
  {
    hide Trim;
    LowerIsNotUpper();
    assert |ALIAS| == 5 && |LOWER| == 14 && |UPPER| == 17;
    assert ALIAS[0] == '7' && ALIAS[4] == '0';
    assert LOWER[0] == '소' && LOWER[13] == 'm' && UPPER[0] == '소' && UPPER[16] == 'I';
    TrimmedName(ALIAS);
    TrimmedName(LOWER);
    TrimmedName(UPPER);
  }

  lemma EmptyScheduleStock(q: Ask, name: string)
    requires q.schedule == [] && name in q.meta.equipment && q.meta.equipment[name].canonicalName == ""
             && q.meta.identityNames == map[]
    ensures Stable(q.meta, name)
    ensures Stock(q, name) == Max(0, q.meta.equipment[name].total - q.meta.equipment[name].maintenance)
  {
    var at := [q.start];
    assert at[..0] == [];
    assert PeakOf([], at) == Max(PeakOf([], at[..0]), SumAt([], q.start)) == 0;
    assert Peak(q, name) == 0;
  }

  lemma AliasedFacts()
    ensures var q := ALIASED_LOWER;
            && Stable(q.meta, LOWER) && Stable(q.meta, UPPER) && Stock(q, LOWER) == 0 && Stock(q, UPPER) == 1
            && Screen(q, Item(ALIAS, 1)) == Listed(LOWER) && Screen(q, Item(UPPER, 1)) == Listed(UPPER)
            && Resolved(q.meta, Item(ALIAS, 1)) == LOWER && Resolved(q.meta, Item(UPPER, 1)) == UPPER
  {
    hide Trim, Stock, Peak;
    DistinctNames();
    EmptyScheduleStock(ALIASED_LOWER, LOWER);
    EmptyScheduleStock(ALIASED_LOWER, UPPER);
  }

  lemma TwoOrdered(a: Item, b: Item)
    requires Flexible(a) == Flexible(b)
    ensures Ordered([a, b]) == [a, b]
  {
    assert [a, b][..1] == [a] && [a][..0] == [];
    assert Filtered([a], Flexible(a)) == [a] && Filtered([a], !Flexible(a)) == [];
    assert Filtered([a, b], Flexible(a)) == [a, b] && Filtered([a, b], !Flexible(a)) == [];
  }

  lemma TwoServed(q: Ask, a: Item, b: Item)
    requires Flexible(a) == Flexible(b)
    ensures PlanOf(q, [a, b]) == Serve(q, Serve(q, NOTHING_YET, a), b)
  {
    hide Serve, Flexible;
    TwoOrdered(a, b);
    assert ServeAll(q, [a, b], 0) == NOTHING_YET;
    assert ServeAll(q, [a, b], 1) == Serve(q, NOTHING_YET, a);
  }

  /** The sort compares raw names: under an alias a flexible request is served first and can take
      the unit an exact request needs. */
  lemma UpperLosesToAlias()
    ensures var items := [Item(ALIAS, 1), Item(UPPER, 1)];
            && AllListed(ALIASED_LOWER, items)
            && Demand(ALIASED_LOWER.meta, items, UPPER) <= Stock(ALIASED_LOWER, UPPER)
            && ShortOf(PlanOf(ALIASED_LOWER, items).conflicts, UPPER)
  {
    hide Screen, Resolved, Stock, Canonical, Trim, PlanOf, ShortOf;
    var q, a, b := ALIASED_LOWER, Item(ALIAS, 1), Item(UPPER, 1);
    var items := [a, b];
    DistinctNames();
    AliasedFacts();
    ListedOfTwo(q, a, b);
    TwoOrdered(a, b);
    assert items[..1] == [a] && [a][..0] == [] && items[..2] == items;
    assert Demand(q.meta, [a], UPPER) == 0 && Demand(q.meta, [a], LOWER) == 1;
    assert Demand(q.meta, items, UPPER) == 1;
    assert SqueezedAt(q, items, 1);
    UpperRefusedIff(q, items);
  }

  const RENAMED_UPPER :=
    SmallAsk(map[LOWER := PlainInfo(0, ""), UPPER := PlainInfo(0, ALIAS), ALIAS := PlainInfo(1, "")])

  /** Reservations are kept under the upgrade's own name but looked up under its canonical one: if
      these differ, one unit is given out twice. */
  lemma RenamedUpgradeOverbooks()
    ensures var q := RENAMED_UPPER;
            var items := [Item(LOWER, 1), Item(LOWER, 1)];
            Given(q.meta, PlanOf(q, items).allocations, ALIAS) == 2 > q.meta.equipment[ALIAS].total
  {
    hide Serve, Trim, Flexible, PlanOf;
    var q, item := RENAMED_UPPER, Item(LOWER, 1);
    var once := Allocation(LOWER, UPPER, 1);
    DistinctNames();
    TwoServed(q, item, item);
    RenamedGrab(NOTHING_YET);
    RenamedGrab(Serve(q, NOTHING_YET, item));
    assert PlanOf(q, [item, item]).allocations == [once, once];
    assert [once, once][..1] == [once] && [once][..0] == [];
    assert Canonical(q.meta, UPPER) == ALIAS;
    assert Given(q.meta, [once], ALIAS) == 1;
    assert q.meta.equipment[ALIAS].total == 1;
  }

  lemma RenamedGrab(p: Plan)
    requires LOWER !in p.reserved && ALIAS !in p.reserved
    ensures var r := Serve(RENAMED_UPPER, p, Item(LOWER, 1));
            && r.allocations == p.allocations + [Allocation(LOWER, UPPER, 1)]
            && LOWER !in r.reserved && ALIAS !in r.reserved
  {
    hide Trim, Peak;
    var q, item := RENAMED_UPPER, Item(LOWER, 1);
    DistinctNames();
    EmptyScheduleStock(q, LOWER);
    EmptyScheduleStock(q, ALIAS);
    assert Screen(q, item) == Listed(LOWER);
    GrabFlexible(q, p, item);
    assert Free(q, p.reserved, LOWER) == 0;
    assert Free(q, p.reserved, UPPER) == 1;
  }

  /** One flexible request when the upgrade's canonical name is another one: its reservation is never looked up. */
  lemma RenamedGrabGives(q: Ask, p: Plan, item: Item)
    requires Resolved(q.meta, item) == LOWER && Stable(q.meta, LOWER) && Canonical(q.meta, UPPER) !in [LOWER, UPPER]
    requires Reserved(p.reserved, Canonical(q.meta, UPPER)) == 0
    ensures var c, g := Canonical(q.meta, UPPER), Grabbed(q, p, item);
      var own := Smaller(Qty(item), Left(q, p.reserved, LOWER));
      && Reserved(g.reserved, c) == 0 && Reserved(g.reserved, LOWER) == Reserved(p.reserved, LOWER) + own
      && Given(q.meta, g.allocations, c) == Given(q.meta, p.allocations, c) + Smaller(Qty(item) - own, Stock(q, UPPER))
  {
    hide Trim, Peak, Grabbed, Given, Canonical;
    var c := Canonical(q.meta, UPPER);
    GrabFlexible(q, p, item);
    LowerIsNotUpper();
    var g0 := Grab(p.reserved, p.allocations, Qty(item));
    var g1 := Take(q, g0, Trim(item.name), LOWER, LOWER);
    TakeIs(q, g0, Trim(item.name), LOWER, LOWER);
    TakeGives(q, g0, Trim(item.name), LOWER, LOWER, c);
    TakeGives(q, g1, Trim(item.name), LOWER, UPPER, c);
    FreeIsStockLeft(q, p.reserved, LOWER);
    assert Free(q, g1.reserved, UPPER) == Stock(q, UPPER);
  }

  lemma TakeGives(q: Ask, g: Grab, requestedName: string, name: string, provided: string, m: string)
    ensures var r := Take(q, g, requestedName, name, provided);
      var quantity := Smaller(g.remaining, Free(q, g.reserved, provided));
      && r.remaining == g.remaining - quantity
      && Given(q.meta, r.allocations, m) == Given(q.meta, g.allocations, m)
         + (if Canonical(q.meta, if provided == name then requestedName else provided) == m then quantity else 0)
      && (forall n :: n != provided ==> Reserved(r.reserved, n) == Reserved(g.reserved, n))
  {
    hide Canonical, Free, Given;
    GivenLast(q.meta, g.allocations,
              Allocation(requestedName, if provided == name then requestedName else provided,
                         Smaller(g.remaining, Free(q, g.reserved, provided))), m);
  }

  lemma ScreenByName(q: Ask, a: Item, b: Item)
    requires a.name == b.name
    ensures Screen(q, a) == Screen(q, b) && Resolved(q.meta, a) == Resolved(q.meta, b) && Flexible(a) == Flexible(b)
  {
  }

  /** The same where nothing of the replaced model is there to give. */
  lemma RenamedOnlyGives(q: Ask, p: Plan, item: Item)
    requires Resolved(q.meta, item) == LOWER && Stock(q, LOWER) == 0 && !Stable(q.meta, UPPER)
    requires Reserved(p.reserved, Canonical(q.meta, UPPER)) == 0
    ensures var c, g := Canonical(q.meta, UPPER), Grabbed(q, p, item);
      && Reserved(g.reserved, c) == 0
      && Given(q.meta, g.allocations, c) == Given(q.meta, p.allocations, c) + Smaller(Qty(item), Stock(q, UPPER))
  {
    hide Trim, Peak, Grabbed, Given, Canonical, Take;
    var c := Canonical(q.meta, UPPER);
    GrabFlexible(q, p, item);
    LowerIsNotUpper();
    var g0 := Grab(p.reserved, p.allocations, Qty(item));
    NothingToTake(q, g0, Trim(item.name), LOWER, LOWER);
    TakeGives(q, g0, Trim(item.name), LOWER, UPPER, c);
    assert Free(q, p.reserved, UPPER) == Stock(q, UPPER);
  }

  /** Not only there: whenever the upgrade has stock under another name and the replaced model can be asked for, two
      requests overbook it. */
  lemma RenamedAlwaysOverbooks(q: Ask, name: string)
    requires q.start < q.end && Screen(q, Item(name, 1)) == Listed(LOWER) && !SafeUpgrade(q)
    requires Stable(q.meta, LOWER) || Stock(q, LOWER) == 0
    ensures var items := [Item(name, Stock(q, LOWER) + Stock(q, UPPER)), Item(name, 1)];
      Overbooks(q, items, Canonical(q.meta, UPPER))
  {
    hide Screen, Trim, Resolved, Serve, Grabbed, Given, Canonical, Flexible, Stock, PlanOf;
    var a, b := Item(name, Stock(q, LOWER) + Stock(q, UPPER)), Item(name, 1);
    var c := Canonical(q.meta, UPPER);
    ScreenByName(q, a, b);
    TwoServed(q, a, b);
    NothingGiven(q, c);
    var p := Serve(q, NOTHING_YET, a);
    RenamedServe(q, NOTHING_YET, a);
    RenamedServe(q, p, b);
    if Stock(q, LOWER) == 0 {
      RenamedOnlyGives(q, NOTHING_YET, a);
      RenamedOnlyGives(q, p, b);
    } else {
      RenamedGrabGives(q, NOTHING_YET, a);
      RenamedGrabGives(q, p, b);
    }
    assert Given(q.meta, PlanOf(q, [a, b]).allocations, c) == Stock(q, UPPER) + 1;
    StockIsBelowPeak(q, UPPER);
    PeakIsTheMaximum(q, c);
  }

  /** `RENAMED_UPPER` is such a case. */
  lemma RenamedUpperIsUnsafe()
    ensures var q := RENAMED_UPPER;
      q.start < q.end && Screen(q, Item(LOWER, 1)) == Listed(LOWER) && Stable(q.meta, LOWER) && !SafeUpgrade(q)
  {
    hide Trim, Peak;
    var q := RENAMED_UPPER;
    DistinctNames();
    EmptyScheduleStock(q, LOWER);
    EmptyScheduleStock(q, ALIAS);
    assert Canonical(q.meta, UPPER) == ALIAS;
    assert Stock(q, UPPER) == Stock(q, ALIAS) == 1;
  }

  // ---------------------------------------------------------------- own names that resolve further

  function Copies(item: Item, n: nat): seq<Item> {
    if n == 0 then [] else Copies(item, n - 1) + [item]
  }

  lemma {:induction false} CopiesAre(item: Item, n: nat)
    ensures |Copies(item, n)| == n && forall i :: 0 <= i < n ==> Copies(item, n)[i] == item
  {
    if n > 0 { CopiesAre(item, n - 1); }
  }

  lemma FilteredSnoc(items: seq<Item>, item: Item, flexible: bool)
    ensures Filtered(items + [item], flexible)
            == Filtered(items, flexible) + if Flexible(item) == flexible then [item] else []
  {
    hide Flexible;
    assert (items + [item])[..|items|] == items;
  }

  lemma {:induction false} CopiesOrdered(item: Item, n: nat)
    ensures Filtered(Copies(item, n), Flexible(item)) == Copies(item, n)
    ensures Filtered(Copies(item, n), !Flexible(item)) == [] && Ordered(Copies(item, n)) == Copies(item, n)
  {
    if n > 0 {
      CopiesOrdered(item, n - 1);
      hide Flexible, Filtered;
      FilteredSnoc(Copies(item, n - 1), item, Flexible(item));
      FilteredSnoc(Copies(item, n - 1), item, !Flexible(item));
    }
  }

  /** One unit under a name that resolves further: what it reserves is never looked up. */
  lemma UnstableGrab(q: Ask, p: Plan, item: Item)
    requires Screen(q, item).Listed? && item.qty == 1
    requires var name := Resolved(q.meta, item);
      !Stable(q.meta, name) && Stock(q, name) > 0 && Reserved(p.reserved, Canonical(q.meta, name)) == 0
    ensures var name, r := Resolved(q.meta, item), Serve(q, p, item);
      && Reserved(r.reserved, Canonical(q.meta, name)) == 0
      && Given(q.meta, r.allocations, name) == Given(q.meta, p.allocations, name) + 1
  {
    hide Screen, Trim, Peak, Serve, Grabbed, Given, Canonical, Take;
    var name := Resolved(q.meta, item);
    RenamedServe(q, p, item);
    var g0 := Grab(p.reserved, p.allocations, 1);
    TakeGives(q, g0, Trim(item.name), name, name, name);
    assert Free(q, p.reserved, name) == Stock(q, name);
    var g1 := Take(q, g0, Trim(item.name), name, name);
    if name == LOWER {
      GrabFlexible(q, p, item);
      NothingWanted(q, g1, Trim(item.name), name, UPPER);
    } else {
      GrabPlain(q, p, item, name);
    }
  }

  lemma NothingWanted(q: Ask, g: Grab, requestedName: string, name: string, provided: string)
    requires g.remaining == 0
    ensures Take(q, g, requestedName, name, provided) == g
  {
    hide Peak;
  }

  lemma {:induction false} UnstableServed(q: Ask, item: Item, order: seq<Item>, n: nat)
    requires Screen(q, item).Listed? && item.qty == 1
    requires n <= |order| && forall i :: 0 <= i < |order| ==> order[i] == item
    requires var name := Resolved(q.meta, item); !Stable(q.meta, name) && Stock(q, name) > 0
    ensures var name, p := Resolved(q.meta, item), ServeAll(q, order, n);
      Reserved(p.reserved, Canonical(q.meta, name)) == 0 && Given(q.meta, p.allocations, name) == n
  {
    hide Screen, Resolved, Serve, Given, Canonical, Stock, Stable;
    if n == 0 {
      NothingGiven(q, Resolved(q.meta, item));
    } else {
      UnstableServed(q, item, order, n - 1);
      UnstableGrab(q, ServeAll(q, order, n - 1), item);
    }
  }

  lemma MoreThanTotal(q: Ask, items: seq<Item>, m: string)
    requires q.start < q.end && m in q.meta.equipment
    requires Given(q.meta, PlanOf(q, items).allocations, m) > q.meta.equipment[m].total
    ensures Overbooks(q, items, m)
  {
    hide Given, PlanOf;
    assert LiveAt(q, m, |q.schedule|, q.start) >= 0;
  }

  lemma CopiesGiven(q: Ask, item: Item, n: nat)
    requires Screen(q, item).Listed? && item.qty == 1
    requires var own := Resolved(q.meta, item); !Stable(q.meta, own) && Stock(q, own) > 0
    ensures Given(q.meta, PlanOf(q, Copies(item, n)).allocations, Resolved(q.meta, item)) == n
  {
    hide Screen, Resolved, Given, Canonical, Stock, Stable, ServeAll, Filtered, Flexible, Copies;
    CopiesAre(item, n);
    CopiesOrdered(item, n);
    UnstableServed(q, item, Copies(item, n), n);
  }

  /** Whenever a listed name resolves further and there is stock, enough requests of one unit overbook it. */
  lemma UnstableAlwaysOverbooks(q: Ask, name: string)
    requires q.start < q.end && Screen(q, Item(name, 1)).Listed?
    requires var own := Resolved(q.meta, Item(name, 1)); !Stable(q.meta, own) && Stock(q, own) > 0
    ensures var own := Resolved(q.meta, Item(name, 1));
      && own in q.meta.equipment
      && Overbooks(q, Copies(Item(name, 1), q.meta.equipment[own].total + 1), own)
  {
    hide Screen, Resolved, Given, Canonical, Stock, Stable, PlanOf, Copies, Overbooks;
    var own := Resolved(q.meta, Item(name, 1));
    CopiesGiven(q, Item(name, 1), q.meta.equipment[own].total + 1);
    MoreThanTotal(q, Copies(Item(name, 1), q.meta.equipment[own].total + 1), own);
  }

  lemma NothingGiven(q: Ask, m: string)
    ensures Given(q.meta, [], m) == 0 && Reserved(map[], m) == 0
  {
  }

  lemma RenamedServe(q: Ask, p: Plan, item: Item)
    requires Screen(q, item).Listed?
    ensures Serve(q, p, item).reserved == Grabbed(q, p, item).reserved
    ensures Serve(q, p, item).allocations == Grabbed(q, p, item).allocations
  {
    hide Screen, Grabbed, Free;
  }

  lemma StockIsBelowPeak(q: Ask, raw: string)
    requires Stock(q, raw) > 0
    ensures var name := Canonical(q.meta, raw);
      name in q.meta.equipment
      && Stock(q, raw) == q.meta.equipment[name].total - q.meta.equipment[name].maintenance - Peak(q, name)
  {
    hide Peak, Canonical;
  }

  /** A chain of canonical names. */
  const CHAINED_NAMES :=
    SmallAsk(map[LOWER := PlainInfo(0, ALIAS), ALIAS := PlainInfo(0, UPPER), UPPER := PlainInfo(1, "")])

  lemma ChainedNameIsUnsafe()
    ensures var q := CHAINED_NAMES; var own := Resolved(q.meta, Item(LOWER, 1));
      && q.start < q.end && Screen(q, Item(LOWER, 1)).Listed?
      && own == ALIAS && !Stable(q.meta, own) && Stock(q, own) == 1
  {
    hide Trim, Peak;
    var q := CHAINED_NAMES;
    DistinctNames();
    EmptyScheduleStock(q, UPPER);
    assert Resolved(q.meta, Item(LOWER, 1)) == ALIAS && Canonical(q.meta, ALIAS) == UPPER;
    assert Stock(q, ALIAS) == Stock(q, UPPER) == 1;
  }

  /** Whatever can be asked for under this name is safe to give. */
  ghost predicate SafeAsked(q: Ask, name: string) {
    Screen(q, Item(name, 1)).Listed? ==> SafeName(q, Resolved(q.meta, Item(name, 1)))
  }

  /** No list of requests overbooks any model exactly when every name that can be asked for is safe. */
  lemma NeverOverbooksIff(q: Ask)
    requires q.start < q.end
    ensures (forall items, m :: !Overbooks(q, items, m)) <==> (forall name :: SafeAsked(q, name))
  {
    hide Screen, Stable, Stock, Overbooks, Canonical, SafeUpgrade, Resolved;
    if forall name :: SafeAsked(q, name) {
      forall items, m
        ensures !Overbooks(q, items, m)
      {
        forall item | item in items && Screen(q, item).Listed?
          ensures SafeName(q, Resolved(q.meta, item))
        {
          ScreenByName(q, item, Item(item.name, 1));
          assert SafeAsked(q, item.name);
        }
        SafeNeverOverbooks(q, items, m);
      }
    } else {
      var name :| !SafeAsked(q, name);
      UnsafeOverbooks(q, name);
    }
  }

  lemma UnsafeOverbooks(q: Ask, name: string)
    requires q.start < q.end && !SafeAsked(q, name)
    ensures exists items, m :: Overbooks(q, items, m)
  {
    hide Screen, Resolved, Stable, Stock, Overbooks, Canonical, SafeUpgrade;
    var own := Resolved(q.meta, Item(name, 1));
    if Stable(q.meta, own) || Stock(q, own) == 0 {
      RenamedAlwaysOverbooks(q, name);
    } else {
      UnstableAlwaysOverbooks(q, name);
    }
  }
}
