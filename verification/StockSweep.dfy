/** The event sweep over booking intervals that raises stock alerts (inventoryRisk.js).
    The sweep is an imperative loop over sorted event times; `Live` is the simple reading it
    has to agree with: the quantity out at one instant. */
module StockSweep {

  datatype Kind = Shortage | Turnaround | CapacityTight

  datatype Row = Row(key: string, quantity: nat, startMs: int, endMs: int)

  /** The clamp [from, until) and the return buffer one sweep is called with. */
  datatype Scope = Scope(from: int, until: int, bufferMs: nat)

  datatype Window = Window(windowStart: int, windowEnd: int, booked: nat, shortage: nat,
                           start: int, end: int, bookings: set<string>)

  datatype Event = Event(opens: bool, row: Row)

  // ---------------------------------------------------------------- the simple reading

  function Begin(sc: Scope, r: Row): int {
    if sc.from > r.startMs then sc.from else r.startMs
  }

  function Finish(sc: Scope, r: Row): int {
    if sc.until < r.endMs + sc.bufferMs then sc.until else r.endMs + sc.bufferMs
  }

  predicate Spans(sc: Scope, r: Row) {
    Begin(sc, r) < Finish(sc, r)
  }

  predicate Out(sc: Scope, r: Row, x: int) {
    Begin(sc, r) <= x < Finish(sc, r)
  }

  /** What is out at instant x, return buffer included. */
  function Live(sc: Scope, rows: seq<Row>, x: int): nat {
    if rows == [] then 0
    else (if Out(sc, rows[0], x) then rows[0].quantity else 0) + Live(sc, rows[1..], x)
  }

  /** The part of it whose booking itself has not ended yet. */
  function Actual(sc: Scope, rows: seq<Row>, x: int): nat {
    if rows == [] then 0
    else (if Out(sc, rows[0], x) && rows[0].endMs > x then rows[0].quantity else 0) + Actual(sc, rows[1..], x)
  }

  /** The latest begin or finish at or before x (`from` when there is none). */
  function LastEvent(sc: Scope, rows: seq<Row>, x: int): int {
    if rows == [] then sc.from
    else
      var t := LastEvent(sc, rows[1..], x);
      var t1 := if Spans(sc, rows[0]) && t < Begin(sc, rows[0]) <= x then Begin(sc, rows[0]) else t;
      if Spans(sc, rows[0]) && t1 < Finish(sc, rows[0]) <= x then Finish(sc, rows[0]) else t1
  }

  predicate Breach(kind: Kind, stock: nat, live: nat, actual: nat) {
    match kind
    case CapacityTight => stock > 0 && 10 * live >= 9 * stock && live <= stock
    case Shortage => live > stock
    case Turnaround => live > stock && actual <= stock
  }

  /** The verdict the sweep gives instant x. */
  predicate Judged(kind: Kind, stock: nat, sc: Scope, rows: seq<Row>, x: int) {
    Breach(kind, stock, Live(sc, rows, x), Actual(sc, rows, LastEvent(sc, rows, x)))
  }

  ghost predicate DistinctKeys(rows: seq<Row>) {
    forall i, j :: 0 <= i < j < |rows| ==> rows[i].key != rows[j].key
  }

  function OutKeys(sc: Scope, rows: seq<Row>, x: int): set<string> {
    set r | r in rows && Out(sc, r, x) :: r.key
  }

  ghost predicate Covered(found: seq<Window>, x: int) {
    exists i :: 0 <= i < |found| && found[i].windowStart <= x < found[i].windowEnd
  }

  /** `booked` is the true maximum of the window, first reached on [start, end). */
  ghost predicate Peaked(w: Window, stock: nat, sc: Scope, rows: seq<Row>) {
    && sc.from <= w.windowStart <= w.start < w.end <= w.windowEnd <= sc.until
    && (forall x :: w.windowStart <= x < w.windowEnd ==> Live(sc, rows, x) <= w.booked)
    && (forall x :: w.windowStart <= x < w.start ==> Live(sc, rows, x) < w.booked)
    && (forall x :: w.start <= x < w.end ==> Live(sc, rows, x) == w.booked && OutKeys(sc, rows, x) == w.bookings)
    && w.shortage == (if w.booked > stock then w.booked - stock else 0)
  }

  /** In time order with a gap after each window, so no two of them could be one. */
  ghost predicate Separated(found: seq<Window>) {
    forall i, j :: 0 <= i < j < |found| ==> found[i].windowEnd < found[j].windowStart
  }

  // ---------------------------------------------------------------- between two events nothing changes

  ghost predicate IsEvent(sc: Scope, rows: seq<Row>, t: int) {
    exists r :: r in rows && Spans(sc, r) && (Begin(sc, r) == t || Finish(sc, r) == t)
  }

  ghost predicate Quiet(sc: Scope, rows: seq<Row>, a: int, x: int) {
    forall r :: r in rows && Spans(sc, r) ==> !(a < Begin(sc, r) <= x) && !(a < Finish(sc, r) <= x)
  }

  lemma {:induction false} LiveSteady(sc: Scope, rows: seq<Row>, a: int, x: int)
    requires a <= x && Quiet(sc, rows, a, x)
    ensures Live(sc, rows, x) == Live(sc, rows, a)
    ensures OutKeys(sc, rows, x) == OutKeys(sc, rows, a)
    ensures Actual(sc, rows, x) <= Actual(sc, rows, a)
  {
    if rows != [] {
      assert rows[0] in rows;
      assert forall r :: r in rows[1..] ==> r in rows;
      LiveSteady(sc, rows[1..], a, x);
      forall r | r in rows ensures Out(sc, r, x) == Out(sc, r, a) {}
    }
  }

  lemma {:induction false} LastEventIs(sc: Scope, rows: seq<Row>, x: int)
    requires sc.from <= x
    ensures var t := LastEvent(sc, rows, x); sc.from <= t <= x && Quiet(sc, rows, t, x)
    ensures var t := LastEvent(sc, rows, x); t == sc.from || IsEvent(sc, rows, t)
  {
    if rows != [] {
      LastEventIs(sc, rows[1..], x);
      var u := LastEvent(sc, rows[1..], x);
      assert rows[0] in rows;
      if u != sc.from {
        var r :| r in rows[1..] && Spans(sc, r) && (Begin(sc, r) == u || Finish(sc, r) == u);
        assert r in rows;
      }
    }
  }

  lemma {:induction false} NothingOut(sc: Scope, rows: seq<Row>, x: int)
    requires forall r :: r in rows ==> !Out(sc, r, x)
    ensures Live(sc, rows, x) == 0
  {
    if rows != [] {
      assert rows[0] in rows;
      NothingOut(sc, rows[1..], x);
    }
  }

  // ---------------------------------------------------------------- summing the active table

  ghost function SumIn(rows: seq<Row>, keys: set<string>): nat {
    if rows == [] then 0
    else (if rows[0].key in keys then rows[0].quantity else 0) + SumIn(rows[1..], keys)
  }

  lemma {:induction false} SumInAdd(rows: seq<Row>, keys: set<string>, r: Row)
    requires DistinctKeys(rows) && r in rows && r.key !in keys
    ensures SumIn(rows, keys + {r.key}) == SumIn(rows, keys) + r.quantity
  {
    if rows[0] == r {
      SumInSame(rows[1..], keys, keys + {r.key});
    } else {
      assert r in rows[1..];
      var i :| 0 <= i < |rows| && rows[i] == r;
      assert rows[0].key != r.key;
      SumInAdd(rows[1..], keys, r);
    }
  }

  lemma {:induction false} SumInSame(rows: seq<Row>, k1: set<string>, k2: set<string>)
    requires forall r :: r in rows ==> (r.key in k1 <==> r.key in k2)
    ensures SumIn(rows, k1) == SumIn(rows, k2)
  {
    if rows != [] {
      assert rows[0] in rows;
      SumInSame(rows[1..], k1, k2);
    }
  }

  lemma {:induction false} SumInIsLive(sc: Scope, rows: seq<Row>, keys: set<string>, x: int)
    requires forall r :: r in rows ==> (r.key in keys <==> Out(sc, r, x))
    ensures SumIn(rows, keys) == Live(sc, rows, x)
  {
    if rows != [] {
      assert rows[0] in rows;
      SumInIsLive(sc, rows[1..], keys, x);
    }
  }

  lemma {:induction false} SumInIsActual(sc: Scope, rows: seq<Row>, keys: set<string>, x: int)
    requires forall r :: r in rows ==> (r.key in keys <==> Out(sc, r, x) && r.endMs > x)
    ensures SumIn(rows, keys) == Actual(sc, rows, x)
  {
    if rows != [] {
      assert rows[0] in rows;
      SumInIsActual(sc, rows[1..], keys, x);
    }
  }

  ghost predicate TableOf(active: map<string, Row>, rows: seq<Row>) {
    forall k :: k in active ==> active[k] in rows && active[k].key == k
  }

  /** `at.reduce(...)` over the part of the active table named by `keys`. */
  method Total(active: map<string, Row>, keys: set<string>, ghost rows: seq<Row>) returns (sum: nat)
    requires DistinctKeys(rows) && TableOf(active, rows) && keys <= active.Keys
    ensures sum == SumIn(rows, keys)
  {
    sum := 0;
    var todo := keys;
    SumInSame(rows, {}, keys - todo);
    SumInEmpty(rows);
    while todo != {}
      invariant todo <= keys && sum == SumIn(rows, keys - todo)
      decreases todo
    {
      var k :| k in todo;
      SumInAdd(rows, keys - todo, active[k]);
      assert keys - todo + {k} == keys - (todo - {k});
      sum := sum + active[k].quantity;
      todo := todo - {k};
    }
    assert keys - todo == keys;
  }

  lemma SumInEmpty(rows: seq<Row>)
    ensures SumIn(rows, {}) == 0
  {
  }

  // ---------------------------------------------------------------- the event table

  ghost predicate EventTable(events: map<int, seq<Event>>, sc: Scope, rows: seq<Row>) {
    && (forall t, e :: t in events && e in events[t] ==>
          e.row in rows && Spans(sc, e.row) && t == (if e.opens then Begin(sc, e.row) else Finish(sc, e.row)))
    && (forall r :: r in rows && Spans(sc, r) ==>
          && Begin(sc, r) in events && Event(true, r) in events[Begin(sc, r)]
          && Finish(sc, r) in events && Event(false, r) in events[Finish(sc, r)])
    && (forall t :: t in events ==> events[t] != [])
  }

  function AddEvent(events: map<int, seq<Event>>, t: int, e: Event): map<int, seq<Event>> {
    events[t := (if t in events then events[t] else []) + [e]]
  }

  ghost predicate Once(keys: seq<int>, events: map<int, seq<Event>>) {
    && (forall i, j :: 0 <= i < j < |keys| ==> keys[i] != keys[j])
    && (forall t :: t in keys <==> t in events)
  }

  lemma EventTableGrows(events: map<int, seq<Event>>, sc: Scope, rows: seq<Row>, r: Row)
    requires EventTable(events, sc, rows)
    ensures !Spans(sc, r) ==> EventTable(events, sc, rows + [r])
    ensures Spans(sc, r) ==>
              EventTable(AddEvent(AddEvent(events, Begin(sc, r), Event(true, r)), Finish(sc, r), Event(false, r)),
                         sc, rows + [r])
  {
  }

  /** The events of one time, row by row. */
  function EventsAt(sc: Scope, rows: seq<Row>, t: int): seq<Event> {
    if rows == [] then []
    else
      var r, before := rows[|rows| - 1], EventsAt(sc, rows[..|rows| - 1], t);
      if Spans(sc, r) && Begin(sc, r) == t then before + [Event(true, r)]
      else if Spans(sc, r) && Finish(sc, r) == t then before + [Event(false, r)]
      else before
  }

  ghost predicate InRowOrder(events: map<int, seq<Event>>, sc: Scope, rows: seq<Row>) {
    forall t :: (if t in events then events[t] else []) == EventsAt(sc, rows, t)
  }

  lemma RowOrderGrows(events: map<int, seq<Event>>, sc: Scope, rows: seq<Row>, r: Row)
    requires InRowOrder(events, sc, rows)
    ensures !Spans(sc, r) ==> InRowOrder(events, sc, rows + [r])
    ensures Spans(sc, r) ==>
              InRowOrder(AddEvent(AddEvent(events, Begin(sc, r), Event(true, r)), Finish(sc, r), Event(false, r)),
                         sc, rows + [r])
  {
    assert (rows + [r])[..|rows|] == rows;
    forall t
      ensures EventsAt(sc, rows, t) == if t in events then events[t] else []
    {
    }
  }

  method BuildEvents(sc: Scope, rows: seq<Row>) returns (events: map<int, seq<Event>>, keys: seq<int>)
    ensures EventTable(events, sc, rows) && InRowOrder(events, sc, rows)
    ensures Once(keys, events)
  {
    assert InRowOrder(map[], sc, []);
    hide EventTable, InRowOrder;
    events, keys := map[], [];
    EventTableEmpty(sc);
    for i := 0 to |rows|
      invariant EventTable(events, sc, rows[..i]) && InRowOrder(events, sc, rows[..i])
      invariant Once(keys, events)
    {
      EventTableGrows(events, sc, rows[..i], rows[i]);
      RowOrderGrows(events, sc, rows[..i], rows[i]);
      assert rows[..i + 1] == rows[..i] + [rows[i]];
      if Spans(sc, rows[i]) {
        events, keys := Put(events, keys, Begin(sc, rows[i]), Event(true, rows[i]));
        events, keys := Put(events, keys, Finish(sc, rows[i]), Event(false, rows[i]));
      }
    }
    assert rows[..|rows|] == rows;
  }

  lemma EventTableEmpty(sc: Scope)
    ensures EventTable(map[], sc, [])
  {
  }

  method Put(events: map<int, seq<Event>>, keys: seq<int>, t: int, e: Event)
    returns (events': map<int, seq<Event>>, keys': seq<int>)
    requires Once(keys, events)
    ensures events' == AddEvent(events, t, e) && Once(keys', events')
  {
    keys' := if t in events then keys else keys + [t];
    events' := events[t := (if t in events then events[t] else []) + [e]];
  }

  ghost predicate Increasing(times: seq<int>) {
    forall i, j :: 0 <= i < j < |times| ==> times[i] < times[j]
  }

  lemma Inserted(times: seq<int>, p: nat, t: int)
    requires Increasing(times) && p <= |times|
    requires forall q :: 0 <= q < p ==> times[q] < t
    requires forall q :: p <= q < |times| ==> t < times[q]
    ensures Increasing(times[..p] + [t] + times[p..])
    ensures forall u :: u in times[..p] + [t] + times[p..] <==> u in times || u == t
  {
    assert times == times[..p] + times[p..];
  }

  lemma Fresh(keys: seq<int>, n: nat)
    requires n < |keys| && forall i, j :: 0 <= i < j < |keys| ==> keys[i] != keys[j]
    ensures keys[n] !in keys[..n]
  {
  }

  /** The event times, sorted; `keys` lists each of them once. */
  method SortedTimes(keys: seq<int>) returns (times: seq<int>)
    requires forall i, j :: 0 <= i < j < |keys| ==> keys[i] != keys[j]
    ensures Increasing(times)
    ensures forall t :: t in times <==> t in keys
  {
    times := [];
    for n := 0 to |keys|
      invariant Increasing(times)
      invariant forall t :: t in times <==> t in keys[..n]
    {
      assert keys[..n + 1] == keys[..n] + [keys[n]];
      Fresh(keys, n);
      var p := 0;
      while p < |times| && times[p] < keys[n]
        invariant 0 <= p <= |times|
        invariant forall q :: 0 <= q < p ==> times[q] < keys[n]
      {
        p := p + 1;
      }
      forall q | p <= q < |times| ensures keys[n] < times[q] {
        assert times[q] in times;
        if q > p { assert times[p] < times[q]; }
      }
      Inserted(times, p, keys[n]);
      hide Increasing;
      times := times[..p] + [keys[n]] + times[p..];
    }
    assert keys[..|keys|] == keys;
  }

  /** Closing events leave the table first, then opening ones enter it. */
  method Advance(active: map<string, Row>, evs: seq<Event>, ghost rows: seq<Row>) returns (next: map<string, Row>)
    requires DistinctKeys(rows) && TableOf(active, rows)
    requires forall e :: e in evs ==> e.row in rows
    ensures TableOf(next, rows)
    ensures forall r :: r in rows ==>
              (r.key in next <==> Event(true, r) in evs || (r.key in active && Event(false, r) !in evs))
  {
    next := active;
    for i := 0 to |evs|
      invariant TableOf(next, rows)
      invariant forall r :: r in rows ==> (r.key in next <==> r.key in active && Event(false, r) !in evs[..i])
    {
      assert evs[..i + 1] == evs[..i] + [evs[i]];
      KeyNames(rows, evs[i].row);
      if !evs[i].opens { next := next - {evs[i].row.key}; }
    }
    assert evs[..|evs|] == evs;
    ghost var kept := next;
    for i := 0 to |evs|
      invariant TableOf(next, rows)
      invariant forall r :: r in rows ==> (r.key in next <==> r.key in kept || Event(true, r) in evs[..i])
    {
      assert evs[..i + 1] == evs[..i] + [evs[i]];
      KeyNames(rows, evs[i].row);
      if evs[i].opens { next := next[evs[i].row.key := evs[i].row]; }
    }
    assert evs[..|evs|] == evs;
  }

  lemma KeyNames(rows: seq<Row>, r: Row)
    requires DistinctKeys(rows) && r in rows
    ensures forall s :: s in rows && s.key == r.key ==> s == r
  {
  }

  // ---------------------------------------------------------------- the sweep

  ghost predicate OutTable(active: map<string, Row>, sc: Scope, rows: seq<Row>, x: int) {
    TableOf(active, rows) && forall r :: r in rows ==> (r.key in active <==> Out(sc, r, x))
  }

  /** Before event time t the table holds the rows begun before t and not finished before t. */
  ghost predicate EntryTable(active: map<string, Row>, sc: Scope, rows: seq<Row>, t: int) {
    TableOf(active, rows) && forall r :: r in rows ==>
      (r.key in active <==> Spans(sc, r) && Begin(sc, r) < t <= Finish(sc, r))
  }

  ghost predicate TimesOf(times: seq<int>, sc: Scope, rows: seq<Row>) {
    && Increasing(times)
    && (forall r :: r in rows && Spans(sc, r) ==> Begin(sc, r) in times && Finish(sc, r) in times)
    && (forall t :: t in times ==> IsEvent(sc, rows, t))
  }

  lemma EventTimes(events: map<int, seq<Event>>, times: seq<int>, sc: Scope, rows: seq<Row>)
    requires EventTable(events, sc, rows)
    requires Increasing(times)
    requires forall t :: t in times <==> t in events
    ensures TimesOf(times, sc, rows)
  {
    forall t | t in times ensures IsEvent(sc, rows, t) {
      var e := events[t][0];
      assert e in events[t];
      assert e.row in rows && Spans(sc, e.row) && t == (if e.opens then Begin(sc, e.row) else Finish(sc, e.row));
    }
  }

  lemma EmptyTable(times: seq<int>, kind: Kind, stock: nat, sc: Scope, rows: seq<Row>)
    requires TimesOf(times, sc, rows)
    ensures TableOf(map[], rows)
    ensures |times| > 0 ==> EntryTable(map[], sc, rows, times[0])
    ensures |times| > 0 ==> Shaped([], false, times[0], times[0]) && Settled([], times, 0, kind, stock, sc, rows)
  {
    forall r | r in rows && Spans(sc, r) && |times| > 0 ensures Begin(sc, r) >= times[0] {
      var i :| 0 <= i < |times| && times[i] == Begin(sc, r);
    }
  }

  lemma EventInScope(times: seq<int>, sc: Scope, rows: seq<Row>, i: nat)
    requires TimesOf(times, sc, rows) && i + 1 < |times|
    ensures sc.from <= times[i] < times[i + 1] <= sc.until
  {
    assert times[i] in times && times[i + 1] in times;
  }

  lemma StepQuiet(times: seq<int>, sc: Scope, rows: seq<Row>, i: nat, x: int)
    requires TimesOf(times, sc, rows) && i + 1 < |times| && times[i] <= x < times[i + 1]
    ensures Quiet(sc, rows, times[i], x)
  {
    forall u | u in times ensures !(times[i] < u <= x) {
      var k :| 0 <= k < |times| && times[k] == u;
    }
  }

  /** Over one step [times[i], times[i+1]) every amount, and so every verdict, is the one at its start. */
  lemma StepSteady(times: seq<int>, sc: Scope, rows: seq<Row>, i: nat)
    requires TimesOf(times, sc, rows) && i + 1 < |times|
    ensures forall x :: times[i] <= x < times[i + 1] ==>
              && Live(sc, rows, x) == Live(sc, rows, times[i])
              && OutKeys(sc, rows, x) == OutKeys(sc, rows, times[i])
              && LastEvent(sc, rows, x) == times[i]
  {
    forall x | times[i] <= x < times[i + 1]
      ensures Live(sc, rows, x) == Live(sc, rows, times[i])
      ensures OutKeys(sc, rows, x) == OutKeys(sc, rows, times[i])
      ensures LastEvent(sc, rows, x) == times[i]
    {
      StepQuiet(times, sc, rows, i, x);
      LiveSteady(sc, rows, times[i], x);
      assert IsEvent(sc, rows, times[i]);
      LastEventIs(sc, rows, x);
    }
  }

  lemma EventRows(events: map<int, seq<Event>>, sc: Scope, rows: seq<Row>)
    requires EventTable(events, sc, rows)
    ensures forall t, e :: t in events && e in events[t] ==> e.row in rows
  {
  }

  lemma StepAmounts(times: seq<int>, sc: Scope, rows: seq<Row>, i: nat)
    requires TimesOf(times, sc, rows) && i + 1 < |times|
    ensures times[0] <= times[i] && LastEvent(sc, rows, times[i]) == times[i]
    ensures forall x :: times[i] <= x < times[i + 1] ==>
              Live(sc, rows, x) == Live(sc, rows, times[i]) && OutKeys(sc, rows, x) == OutKeys(sc, rows, times[i])
  {
    StepSteady(times, sc, rows, i);
  }

  lemma TableAt(before: map<string, Row>, active: map<string, Row>, events: map<int, seq<Event>>,
                sc: Scope, rows: seq<Row>, t: int)
    requires EventTable(events, sc, rows) && t in events
    requires EntryTable(before, sc, rows, t) && TableOf(active, rows)
    requires forall r :: r in rows ==>
               (r.key in active <==> Event(true, r) in events[t] || (r.key in before && Event(false, r) !in events[t]))
    ensures OutTable(active, sc, rows, t)
  {
  }

  lemma AmountsAt(active: map<string, Row>, late: set<string>, sc: Scope, rows: seq<Row>, t: int)
    requires DistinctKeys(rows) && OutTable(active, sc, rows, t)
    requires forall k :: k in late <==> k in active && active[k].endMs > t
    ensures SumIn(rows, active.Keys) == Live(sc, rows, t)
    ensures SumIn(rows, late) == Actual(sc, rows, t)
    ensures active.Keys == OutKeys(sc, rows, t)
  {
    forall r | r in rows ensures r.key in late <==> Out(sc, r, t) && r.endMs > t {
      if r.key in active { KeyNames(rows, r); }
    }
    SumInIsLive(sc, rows, active.Keys, t);
    SumInIsActual(sc, rows, late, t);
    forall k ensures k in active <==> k in OutKeys(sc, rows, t) {
      if k in active { assert active[k].key == k; }
    }
  }

  lemma NotBetween(times: seq<int>, i: nat, u: int)
    requires Increasing(times)
    requires i + 1 < |times| && u in times
    ensures u <= times[i] || times[i + 1] <= u
  {
    var k :| 0 <= k < |times| && times[k] == u;
  }

  lemma TableBefore(active: map<string, Row>, times: seq<int>, sc: Scope, rows: seq<Row>, i: nat)
    requires TimesOf(times, sc, rows) && i + 1 < |times| && OutTable(active, sc, rows, times[i])
    ensures EntryTable(active, sc, rows, times[i + 1])
  {
    forall r | r in rows
      ensures r.key in active <==> Spans(sc, r) && Begin(sc, r) < times[i + 1] <= Finish(sc, r)
    {
      if Spans(sc, r) {
        NotBetween(times, i, Begin(sc, r));
        NotBetween(times, i, Finish(sc, r));
      }
    }
  }

  lemma FirstAndLast(times: seq<int>, u: int)
    requires Increasing(times)
    requires u in times
    ensures times[0] <= u <= times[|times| - 1]
  {
    var k :| 0 <= k < |times| && times[k] == u;
  }

  /** Before the first event and from the last one on, nothing is out and nothing is reported. */
  lemma OutsideSteps(times: seq<int>, sc: Scope, rows: seq<Row>, kind: Kind, stock: nat, x: int)
    requires TimesOf(times, sc, rows)
    requires |times| == 0 || x < times[0] || times[|times| - 1] <= x
    ensures !Judged(kind, stock, sc, rows, x)
  {
    forall r | r in rows ensures !Out(sc, r, x) {
      if Out(sc, r, x) {
        FirstAndLast(times, Begin(sc, r));
        FirstAndLast(times, Finish(sc, r));
        assert false;
      }
    }
    NothingOut(sc, rows, x);
  }

  /** Shape of the report after the steps up to `now`; the running segment, if any, is its last window. */
  ghost predicate Shaped(found: seq<Window>, open: bool, first: int, now: int) {
    && Separated(found)
    && (forall k :: 0 <= k < |found| ==> first <= found[k].windowStart < found[k].windowEnd <= now)
    && (open ==> found != [] && found[|found| - 1].windowEnd == now)
    && (!open && found != [] ==> found[|found| - 1].windowEnd < now)
  }

  ghost predicate AllPeaked(found: seq<Window>, stock: nat, sc: Scope, rows: seq<Row>) {
    forall k :: 0 <= k < |found| ==> Peaked(found[k], stock, sc, rows)
  }

  function Grown(w: Window, t: int, next: int, quantity: nat, stock: nat, keys: set<string>): Window {
    if quantity > w.booked
    then Window(w.windowStart, next, quantity, if quantity > stock then quantity - stock else 0, t, next, keys)
    else w.(windowEnd := next)
  }

  /** One unsafe step [t, next): a new segment is pushed when none is running, and it grows. */
  function Extend(found: seq<Window>, open: bool, t: int, next: int, quantity: nat, stock: nat, keys: set<string>)
    : seq<Window>
    requires open ==> found != []
  {
    var pushed := if open then found else found + [Window(t, next, 0, 0, t, next, {})];
    pushed[|pushed| - 1 := Grown(pushed[|pushed| - 1], t, next, quantity, stock, keys)]
  }

  lemma PeakGrows(w: Window, stock: nat, sc: Scope, rows: seq<Row>, next: int, quantity: nat, keys: set<string>)
    requires Peaked(w, stock, sc, rows) && w.windowEnd < next <= sc.until
    requires forall x :: w.windowEnd <= x < next ==> Live(sc, rows, x) == quantity && OutKeys(sc, rows, x) == keys
    ensures Peaked(Grown(w, w.windowEnd, next, quantity, stock, keys), stock, sc, rows)
  {
  }

  lemma PeakStarts(stock: nat, sc: Scope, rows: seq<Row>, t: int, next: int, quantity: nat, keys: set<string>)
    requires quantity > 0 && sc.from <= t < next <= sc.until
    requires forall x :: t <= x < next ==> Live(sc, rows, x) == quantity && OutKeys(sc, rows, x) == keys
    ensures Peaked(Grown(Window(t, next, 0, 0, t, next, {}), t, next, quantity, stock, keys), stock, sc, rows)
  {
  }

  lemma ExtendShaped(found: seq<Window>, open: bool, stock: nat, first: int,
                     t: int, next: int, quantity: nat, keys: set<string>)
    requires Shaped(found, open, first, t) && first <= t < next
    ensures Shaped(Extend(found, open, t, next, quantity, stock, keys), true, first, next)
  {
  }

  lemma CloseShaped(found: seq<Window>, open: bool, first: int, t: int, next: int)
    requires Shaped(found, open, first, t) && t < next
    ensures Shaped(found, false, first, next)
  {
  }

  lemma ExtendPeaked(found: seq<Window>, open: bool, stock: nat, sc: Scope, rows: seq<Row>,
                     t: int, next: int, quantity: nat, keys: set<string>)
    requires AllPeaked(found, stock, sc, rows) && exists first :: Shaped(found, open, first, t)
    requires quantity > 0 && sc.from <= t < next <= sc.until
    requires forall x :: t <= x < next ==> Live(sc, rows, x) == quantity && OutKeys(sc, rows, x) == keys
    ensures AllPeaked(Extend(found, open, t, next, quantity, stock, keys), stock, sc, rows)
  {
    hide Peaked, Separated;
    var after := Extend(found, open, t, next, quantity, stock, keys);
    if open {
      PeakGrows(found[|found| - 1], stock, sc, rows, next, quantity, keys);
    } else {
      PeakStarts(stock, sc, rows, t, next, quantity, keys);
    }
    forall k | 0 <= k < |after| ensures Peaked(after[k], stock, sc, rows) {
      if k < |after| - 1 { assert found[k] == after[k]; }
    }
  }

  method Grow(found: seq<Window>, open: bool, t: int, next: int, quantity: nat, stock: nat, keys: set<string>)
    returns (grown: seq<Window>)
    requires open ==> found != []
    ensures grown == Extend(found, open, t, next, quantity, stock, keys) && grown != []
  {
    grown := found;
    if !open {
      grown := grown + [Window(t, next, 0, 0, t, next, {})];
    }
    var segment := grown[|grown| - 1].(windowEnd := next);
    if quantity > segment.booked {
      segment := segment.(booked := quantity, shortage := if quantity > stock then quantity - stock else 0,
                          start := t, end := next, bookings := keys);
    }
    grown := grown[|grown| - 1 := segment];
  }

  lemma ExtendCovers(found: seq<Window>, open: bool, t: int, next: int, quantity: nat, stock: nat, keys: set<string>)
    requires t < next && exists first :: Shaped(found, open, first, t)
    ensures var after := Extend(found, open, t, next, quantity, stock, keys);
            forall x :: Covered(after, x) <==> Covered(found, x) || t <= x < next
  {
    var after := Extend(found, open, t, next, quantity, stock, keys);
    var n := |after| - 1;
    forall x ensures Covered(after, x) <==> Covered(found, x) || t <= x < next {
      if t <= x < next { assert after[n].windowStart <= x < after[n].windowEnd; }
      if Covered(found, x) {
        var k :| 0 <= k < |found| && found[k].windowStart <= x < found[k].windowEnd;
        assert after[k].windowStart <= x < after[k].windowEnd;
      }
      if Covered(after, x) && !(t <= x < next) {
        var k :| 0 <= k < |after| && after[k].windowStart <= x < after[k].windowEnd;
        assert found[k].windowStart <= x < found[k].windowEnd;
      }
    }
  }

  /** The verdict on each instant of steps 0 .. i-1 has been reported. */
  ghost predicate Settled(found: seq<Window>, times: seq<int>, i: nat, kind: Kind, stock: nat,
                          sc: Scope, rows: seq<Row>)
    requires i < |times|
  {
    forall x :: times[0] <= x < times[i] ==> (Covered(found, x) <==> Judged(kind, stock, sc, rows, x))
  }

  lemma StepSettles(was: seq<Window>, found: seq<Window>, times: seq<int>, i: nat,
                    kind: Kind, stock: nat, sc: Scope, rows: seq<Row>)
    requires TimesOf(times, sc, rows) && i + 1 < |times| && Settled(was, times, i, kind, stock, sc, rows)
    requires exists open :: Shaped(was, open, times[0], times[i])
    requires if Judged(kind, stock, sc, rows, times[i])
             then forall x :: Covered(found, x) <==> Covered(was, x) || times[i] <= x < times[i + 1]
             else found == was
    ensures Settled(found, times, i + 1, kind, stock, sc, rows)
  {
    StepSteady(times, sc, rows, i);
    CoveredEnds(was, times[i]);
    forall x | times[0] <= x < times[i + 1]
      ensures Covered(found, x) <==> Judged(kind, stock, sc, rows, x)
    {
      if x >= times[i] {
        assert LastEvent(sc, rows, x) == times[i] == LastEvent(sc, rows, times[i]);
        assert Live(sc, rows, x) == Live(sc, rows, times[i]);
      }
    }
  }

  lemma AllSettled(found: seq<Window>, open: bool, times: seq<int>, kind: Kind, stock: nat, sc: Scope, rows: seq<Row>)
    requires TimesOf(times, sc, rows)
    requires if |times| == 0 then found == []
             else Shaped(found, open, times[0], times[|times| - 1])
                  && Settled(found, times, |times| - 1, kind, stock, sc, rows)
    ensures forall x :: Covered(found, x) <==> sc.from <= x < sc.until && Judged(kind, stock, sc, rows, x)
  {
    forall x
      ensures Covered(found, x) <==> sc.from <= x < sc.until && Judged(kind, stock, sc, rows, x)
    {
      if |times| > 0 && times[0] <= x < times[|times| - 1] {
        EventInScope(times, sc, rows, 0);
        EventInScope(times, sc, rows, |times| - 2);
      } else {
        OutsideSteps(times, sc, rows, kind, stock, x);
      }
    }
  }

  lemma CoveredEnds(found: seq<Window>, t: int)
    requires forall w :: w in found ==> w.windowEnd <= t
    ensures forall x :: t <= x ==> !Covered(found, x)
  {
  }

  lemma ShapedIsSeparated(found: seq<Window>, open: bool, times: seq<int>)
    requires |times| == 0 ==> found == []
    requires |times| > 0 ==> Shaped(found, open, times[0], times[|times| - 1])
    ensures Separated(found)
  {
  }

  lemma BreachIsPositive(kind: Kind, stock: nat, live: nat, actual: nat)
    requires Breach(kind, stock, live, actual)
    ensures live > 0
  {
  }

  /** The sweep is exact: for each kind an instant lies in a reported window iff its verdict is a
      breach; windows are ordered, maximal and carry their true peak. */
  method Sweep(rows: seq<Row>, stock: nat, sc: Scope, kind: Kind) returns (found: seq<Window>)
    requires DistinctKeys(rows)
    ensures forall x :: Covered(found, x) <==> sc.from <= x < sc.until && Judged(kind, stock, sc, rows, x)
    ensures Separated(found)
    ensures forall w :: w in found ==> Peaked(w, stock, sc, rows)
  {
    hide InRowOrder, Peaked, EntryTable, OutTable, Live, Actual, LastEvent, OutKeys, IsEvent, EventTable, Quiet,
      Covered, Settled, DistinctKeys, TableOf, TimesOf, Extend, Breach, SumIn, Shaped, Increasing;
    var events, keys := BuildEvents(sc, rows);
    var times := SortedTimes(keys);
    EventTimes(events, times, sc, rows);
    EventRows(events, sc, rows);
    var active: map<string, Row> := map[];
    found := [];
    var open := false;
    EmptyTable(times, kind, stock, sc, rows);
    var i := 0;
    while i + 1 < |times|
      invariant i == 0 || i < |times|
      invariant |times| == 0 ==> found == []
      invariant TableOf(active, rows)
      invariant |times| > 0 ==> EntryTable(active, sc, rows, times[i])
      invariant open ==> found != []
      invariant |times| > 0 ==> Shaped(found, open, times[0], times[i])
      invariant AllPeaked(found, stock, sc, rows)
      invariant |times| > 0 ==> Settled(found, times, i, kind, stock, sc, rows)
    {
      var t, next := times[i], times[i + 1];
      ghost var before, was := active, found;
      active := Advance(active, events[t], rows);
      TableAt(before, active, events, sc, rows, t);
      var quantity := Total(active, active.Keys, rows);
      var late := set k | k in active && active[k].endMs > t;
      var actual := Total(active, late, rows);
      AmountsAt(active, late, sc, rows, t);
      TableBefore(active, times, sc, rows, i);
      StepAmounts(times, sc, rows, i);
      EventInScope(times, sc, rows, i);
      if Breach(kind, stock, quantity, actual) {
        BreachIsPositive(kind, stock, quantity, actual);
        ExtendShaped(found, open, stock, times[0], t, next, quantity, active.Keys);
        ExtendPeaked(found, open, stock, sc, rows, t, next, quantity, active.Keys);
        ExtendCovers(found, open, t, next, quantity, stock, active.Keys);
        found := Grow(found, open, t, next, quantity, stock, active.Keys);
        open := true;
      } else {
        CloseShaped(found, open, times[0], t, next);
        open := false;
      }
      StepSettles(was, found, times, i, kind, stock, sc, rows);
      i := i + 1;
    }
    AllSettled(found, open, times, kind, stock, sc, rows);
    ShapedIsSeparated(found, open, times);
  }

  // ---------------------------------------------------------------- what the three kinds mean, instant by instant

  lemma {:induction false} LiveInScope(sc: Scope, rows: seq<Row>, x: int)
    requires sc.from <= x < sc.until
    ensures Live(sc, rows, x) == QuantityAt(rows, sc.bufferMs, x)
  {
    if rows != [] { LiveInScope(sc, rows[1..], x); }
  }

  /** The raw bookings: everything with startMs <= x < endMs + buffer, no clamp involved. */
  function QuantityAt(rows: seq<Row>, bufferMs: nat, x: int): nat {
    if rows == [] then 0
    else (if rows[0].startMs <= x < rows[0].endMs + bufferMs then rows[0].quantity else 0)
         + QuantityAt(rows[1..], bufferMs, x)
  }

  /** Each alert `turnaround` raises is true at each of its instants ... */
  lemma TurnaroundSound(stock: nat, sc: Scope, rows: seq<Row>, x: int)
    requires sc.from <= x && Judged(Turnaround, stock, sc, rows, x)
    ensures Live(sc, rows, x) > stock >= Actual(sc, rows, x)
  {
    LastEventIs(sc, rows, x);
    LiveSteady(sc, rows, LastEvent(sc, rows, x), x);
  }

  /** What is out at x although its booking has ended since instant t. */
  function Lapsed(sc: Scope, rows: seq<Row>, t: int, x: int): nat {
    if rows == [] then 0
    else (if Out(sc, rows[0], x) && t < rows[0].endMs <= x then rows[0].quantity else 0) + Lapsed(sc, rows[1..], t, x)
  }

  lemma {:induction false} ActualThen(sc: Scope, rows: seq<Row>, x: int, t: int)
    requires t <= x && Quiet(sc, rows, t, x)
    ensures Actual(sc, rows, t) == Actual(sc, rows, x) + Lapsed(sc, rows, t, x)
  {
    if rows != [] {
      assert rows[0] in rows;
      assert forall r :: r in rows[1..] ==> r in rows;
      ActualThen(sc, rows[1..], x, t);
    }
  }

  /** ... and it says so exactly where what is still really out, together with what has ended since the last event,
      would fit; ... */
  lemma TurnaroundExact(stock: nat, sc: Scope, rows: seq<Row>, x: int)
    requires sc.from <= x
    ensures Judged(Turnaround, stock, sc, rows, x) <==>
              && Live(sc, rows, x) > stock
              && Actual(sc, rows, x) + Lapsed(sc, rows, LastEvent(sc, rows, x), x) <= stock
  {
    LastEventIs(sc, rows, x);
    ActualThen(sc, rows, x, LastEvent(sc, rows, x));
  }

  lemma {:induction false} NothingLapsed(sc: Scope, rows: seq<Row>, t: int, x: int)
    requires forall r :: r in rows ==> !(t < r.endMs <= x)
    ensures Lapsed(sc, rows, t, x) == 0
  {
    if rows != [] {
      assert rows[0] in rows;
      assert forall r :: r in rows[1..] ==> r in rows;
      NothingLapsed(sc, rows[1..], t, x);
    }
  }

  /** ... so it is complete where no booking has ended since then, ... */
  lemma TurnaroundComplete(stock: nat, sc: Scope, rows: seq<Row>, x: int)
    requires sc.from <= x && Live(sc, rows, x) > stock >= Actual(sc, rows, x)
    requires forall r :: r in rows ==> !(LastEvent(sc, rows, x) < r.endMs <= x)
    ensures Judged(Turnaround, stock, sc, rows, x)
  {
    TurnaroundExact(stock, sc, rows, x);
    NothingLapsed(sc, rows, LastEvent(sc, rows, x), x);
  }

  /** ... but not beyond: the end of a booking is no event, so a buffer-only overlap that begins
      when one of two double-booked rentals ends goes unreported. */
  lemma TurnaroundMissed()
    ensures var sc := Scope(0, 100, 5);
            var rows := [Row("a", 1, 0, 10), Row("b", 1, 0, 20)];
            && DistinctKeys(rows)
            && Live(sc, rows, 12) > 1 >= Actual(sc, rows, 12)
            && !Judged(Turnaround, 1, sc, rows, 12)
  {
  }

  // ---------------------------------------------------------------- the three sweeps of one stock pool

  datatype PoolReport = PoolReport(shortages: seq<Window>, turnarounds: seq<Window>, tight: seq<Window>)

  /** A pool at 90% of its stock or more (a pool without stock: anything out at all). */
  predicate Strained(stock: nat, live: nat) {
    if stock > 0 then 10 * live >= 9 * stock else live > 0
  }

  /** The three calls for one pool: shortage and capacity_tight windows exclude each other and together are exactly the
      instants at which the pool is strained; turnaround windows are exactly the instants of TurnaroundExact. */
  method SweepPool(rows: seq<Row>, stock: nat, maintenance: nat, from: int, until: int, bufferMs: nat)
    returns (report: PoolReport)
    requires DistinctKeys(rows) && maintenance <= stock
    ensures var available := stock - maintenance;
            && (forall x :: Covered(report.shortages, x) <==>
                  from <= x < until && QuantityAt(rows, 0, x) > available)
            && (forall x :: Covered(report.shortages, x) || Covered(report.tight, x) <==>
                  from <= x < until && Strained(available, QuantityAt(rows, 0, x)))
    ensures forall x :: Covered(report.tight, x) <==>
              var available, out := stock - maintenance, QuantityAt(rows, 0, x);
              from <= x < until && 0 < available && out <= available && 9 * available <= 10 * out
    ensures forall x :: !(Covered(report.shortages, x) && Covered(report.tight, x))
    ensures Separated(report.shortages) && Separated(report.tight) && Separated(report.turnarounds)
    ensures forall w :: w in report.shortages + report.tight ==>
              Peaked(w, stock - maintenance, Scope(from, until, 0), rows)
    ensures var available, sc := stock - maintenance, Scope(from, until + bufferMs, bufferMs);
            forall x :: Covered(report.turnarounds, x) <==>
              && bufferMs != 0 && from <= x < until + bufferMs && QuantityAt(rows, bufferMs, x) > available
              && Actual(sc, rows, x) + Lapsed(sc, rows, LastEvent(sc, rows, x), x) <= available
  {
    var available := stock - maintenance;
    var shortages := Sweep(rows, available, Scope(from, until, 0), Shortage);
    var turnarounds := [];
    if bufferMs != 0 {
      turnarounds := Sweep(rows, available, Scope(from, until + bufferMs, bufferMs), Turnaround);
    }
    var tight := Sweep(rows, available, Scope(from, until, 0), CapacityTight);
    forall x | from <= x < until
      ensures Live(Scope(from, until, 0), rows, x) == QuantityAt(rows, 0, x)
    {
      LiveInScope(Scope(from, until, 0), rows, x);
    }
    forall x | from <= x < until + bufferMs
      ensures Live(Scope(from, until + bufferMs, bufferMs), rows, x) == QuantityAt(rows, bufferMs, x)
    {
      LiveInScope(Scope(from, until + bufferMs, bufferMs), rows, x);
    }
    forall x | from <= x < until + bufferMs
      ensures Judged(Turnaround, available, Scope(from, until + bufferMs, bufferMs), rows, x) <==>
                && QuantityAt(rows, bufferMs, x) > available
                && var sc := Scope(from, until + bufferMs, bufferMs);
                   Actual(sc, rows, x) + Lapsed(sc, rows, LastEvent(sc, rows, x), x) <= available
    {
      TurnaroundExact(available, Scope(from, until + bufferMs, bufferMs), rows, x);
    }
    report := PoolReport(shortages, turnarounds, tight);
  }
}
