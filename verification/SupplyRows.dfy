/** Handing a plan's allocations out to the rows of a reservation (inventorySupply.js:139-150): each row draws what it
    needs from the allocations made for its name, in order, until they are used up. */
module SupplyRows {

  import opened Basics
  import SupplyNote

  /** One allocation of the plan, for the name that was asked for. */
  datatype Planned = Planned(requestedName: string, gives: SupplyNote.Allocation)

  /** A reservation row; set headers with components are not `counted` and draw nothing. */
  datatype SheetRow = SheetRow(equipment: string, qty: nat, counted: bool)

  /** What a row drew from one allocation of the plan. */
  datatype Part = Part(from: nat, qty: nat)

  datatype Draw = Draw(left: seq<nat>, need: nat, parts: seq<Part>)

  // ---------------------------------------------------------------- what is handed out

  function Start(plan: seq<Planned>): (left: seq<nat>)
    ensures |left| == |plan| && forall j :: 0 <= j < |plan| ==> left[j] == plan[j].gives.qty
  {
    seq(|plan|, j requires 0 <= j < |plan| => plan[j].gives.qty)
  }

  /** One row after it has looked at the first n allocations. */
  function DrawFrom(plan: seq<Planned>, left: seq<nat>, row: SheetRow, n: nat): (d: Draw)
    requires |left| == |plan| && n <= |plan|
    ensures |d.left| == |plan| && forall j :: n <= j < |plan| ==> d.left[j] == left[j]
  {
    if n == 0 then Draw(left, if row.counted then row.qty else 0, [])
    else
      var d := DrawFrom(plan, left, row, n - 1);
      var m := Min(d.need, d.left[n - 1]);
      if plan[n - 1].requestedName != row.equipment || m == 0 then d
      else Draw(d.left[n - 1 := d.left[n - 1] - m], d.need - m, d.parts + [Part(n - 1, m)])
  }

  function LeftAfter(plan: seq<Planned>, rows: seq<SheetRow>, n: nat): (left: seq<nat>)
    requires n <= |rows|
    ensures |left| == |plan|
  {
    if n == 0 then Start(plan) else DrawFrom(plan, LeftAfter(plan, rows, n - 1), rows[n - 1], |plan|).left
  }

  function PartsOf(plan: seq<Planned>, rows: seq<SheetRow>, i: nat): seq<Part>
    requires i < |rows|
  {
    DrawFrom(plan, LeftAfter(plan, rows, i), rows[i], |plan|).parts
  }

  method DrawRow(plan: seq<Planned>, row: SheetRow, remaining: array<nat>) returns (parts: seq<Part>)
    requires remaining.Length == |plan|
    modifies remaining
    ensures var d := DrawFrom(plan, old(remaining[..]), row, |plan|); remaining[..] == d.left && parts == d.parts
  {
    ghost var left := remaining[..];
    var qty: nat := if row.counted then row.qty else 0;
    parts := [];
    var j := 0;
    while j < |plan|
      invariant 0 <= j <= |plan| == remaining.Length
      invariant Draw(remaining[..], qty, parts) == DrawFrom(plan, left, row, j)
    {
      if plan[j].requestedName == row.equipment && remaining[j] != 0 && qty != 0 {
        var n := Min(qty, remaining[j]);
        parts := parts + [Part(j, n)];
        remaining[j] := remaining[j] - n;
        qty := qty - n;
      }
      j := j + 1;
    }
  }

  /** `inventorySupplyApplyRows_` up to the notes: what each row gets, the remaining quantities updated in place. */
  method HandOut(plan: seq<Planned>, rows: seq<SheetRow>, remaining: array<nat>) returns (parts: seq<seq<Part>>)
    requires remaining[..] == Start(plan)
    modifies remaining
    ensures |parts| == |rows| && forall i :: 0 <= i < |rows| ==> parts[i] == PartsOf(plan, rows, i)
    ensures remaining[..] == LeftAfter(plan, rows, |rows|)
  {
    hide DrawFrom, Start;
    parts := [];
    var i := 0;
    assert remaining.Length == |remaining[..]|;
    while i < |rows|
      invariant 0 <= i <= |rows| && |parts| == i && remaining.Length == |plan|
      invariant forall k :: 0 <= k < i ==> parts[k] == PartsOf(plan, rows, k)
      invariant remaining[..] == LeftAfter(plan, rows, i)
    {
      var mine := DrawRow(plan, rows[i], remaining);
      parts := parts + [mine];
      i := i + 1;
    }
  }

  // ---------------------------------------------------------------- nothing is lost and nothing invented

  function Taken(parts: seq<Part>, j: nat): nat {
    if parts == [] then 0 else Taken(parts[..|parts| - 1], j) + Amount(parts[|parts| - 1], j)
  }

  function Amount(p: Part, j: nat): nat {
    if p.from == j then p.qty else 0
  }

  function Total(parts: seq<Part>): nat {
    if parts == [] then 0 else Total(parts[..|parts| - 1]) + parts[|parts| - 1].qty
  }

  function TakenByAll(plan: seq<Planned>, rows: seq<SheetRow>, n: nat, j: nat): nat
    requires n <= |rows|
  {
    if n == 0 then 0 else TakenByAll(plan, rows, n - 1, j) + Taken(PartsOf(plan, rows, n - 1), j)
  }

  /** What is still there of the allocations for one name, among the first n. */
  function OfName(plan: seq<Planned>, left: seq<nat>, name: string, n: nat): nat
    requires |left| == |plan| && n <= |plan|
  {
    if n == 0 then 0
    else OfName(plan, left, name, n - 1) + if plan[n - 1].requestedName == name then left[n - 1] else 0
  }

  lemma {:induction false} OfNameOnly(plan: seq<Planned>, a: seq<nat>, b: seq<nat>, name: string, n: nat)
    requires |a| == |b| == |plan| && n <= |plan| && forall j :: 0 <= j < n ==> a[j] == b[j]
    ensures OfName(plan, a, name, n) == OfName(plan, b, name, n)
  {
    if n > 0 { OfNameOnly(plan, a, b, name, n - 1); }
  }

  /** One draw: an allocation loses what the row takes of it, and only allocations for its name are touched. */
  lemma {:induction false} DrawTakes(plan: seq<Planned>, left: seq<nat>, row: SheetRow, n: nat, j: nat)
    requires |left| == |plan| && n <= |plan| && j < |plan|
    ensures var d := DrawFrom(plan, left, row, n);
      && d.left[j] + Taken(d.parts, j) == left[j]
      && (plan[j].requestedName != row.equipment ==> Taken(d.parts, j) == 0)
      && (j >= n ==> Taken(d.parts, j) == 0)
  {
    if n == 0 {
    } else {
      var e, d := DrawFrom(plan, left, row, n - 1), DrawFrom(plan, left, row, n);
      DrawTakes(plan, left, row, n - 1, j);
      if d != e { assert d.parts[..|d.parts| - 1] == e.parts; }
    }
  }

  /** The row gets what it asked for minus what it still needs, in parts of allocations for its name. */
  lemma {:induction false} DrawTotals(plan: seq<Planned>, left: seq<nat>, row: SheetRow, n: nat)
    requires |left| == |plan| && n <= |plan|
    ensures var d := DrawFrom(plan, left, row, n);
      && Total(d.parts) + d.need == (if row.counted then row.qty else 0)
      && forall k :: 0 <= k < |d.parts| ==>
           d.parts[k].from < n && d.parts[k].qty > 0 && plan[d.parts[k].from].requestedName == row.equipment
  {
    if n == 0 {
    } else {
      var e, d := DrawFrom(plan, left, row, n - 1), DrawFrom(plan, left, row, n);
      DrawTotals(plan, left, row, n - 1);
      if d != e { assert d.parts[..|d.parts| - 1] == e.parts; }
    }
  }

  /** A row goes short only when the allocations for its name are used up. */
  lemma {:induction false} DrawExhausts(plan: seq<Planned>, left: seq<nat>, row: SheetRow, n: nat)
    requires |left| == |plan| && n <= |plan|
    ensures var d := DrawFrom(plan, left, row, n);
      && (d.need > 0 ==> OfName(plan, d.left, row.equipment, n) == 0)
      && OfName(plan, d.left, row.equipment, n) + Total(d.parts) == OfName(plan, left, row.equipment, n)
  {
    if n == 0 {
    } else {
      var e, d := DrawFrom(plan, left, row, n - 1), DrawFrom(plan, left, row, n);
      DrawExhausts(plan, left, row, n - 1);
      OfNameOnly(plan, d.left, e.left, row.equipment, n - 1);
      if d != e { assert d.parts[..|d.parts| - 1] == e.parts; }
    }
  }

  lemma {:induction false} OtherNamesUntouched(plan: seq<Planned>, left: seq<nat>, row: SheetRow, name: string, n: nat)
    requires |left| == |plan| && n <= |plan| && name != row.equipment
    ensures OfName(plan, DrawFrom(plan, left, row, |plan|).left, name, n) == OfName(plan, left, name, n)
  {
    if n > 0 {
      OtherNamesUntouched(plan, left, row, name, n - 1);
      DrawTakes(plan, left, row, |plan|, n - 1);
    }
  }

  /** Conservation: what all rows took of an allocation and what is left of it make up its quantity. */
  lemma {:induction false} NothingLost(plan: seq<Planned>, rows: seq<SheetRow>, n: nat, j: nat)
    requires n <= |rows| && j < |plan|
    ensures LeftAfter(plan, rows, n)[j] + TakenByAll(plan, rows, n, j) == plan[j].gives.qty
  {
    if n > 0 {
      NothingLost(plan, rows, n - 1, j);
      DrawTakes(plan, LeftAfter(plan, rows, n - 1), rows[n - 1], |plan|, j);
    }
  }

  function Wanted(rows: seq<SheetRow>, name: string, n: nat): nat
    requires n <= |rows|
  {
    if n == 0 then 0
    else Wanted(rows, name, n - 1)
         + if rows[n - 1].equipment == name && rows[n - 1].counted then rows[n - 1].qty else 0
  }

  /** The allocations for a name are handed out as far as the rows of that name want them, and no further. */
  lemma {:induction false} HandedOutAsWanted(plan: seq<Planned>, rows: seq<SheetRow>, name: string, n: nat)
    requires n <= |rows|
    ensures var had := OfName(plan, Start(plan), name, |plan|); var wanted := Wanted(rows, name, n);
      OfName(plan, LeftAfter(plan, rows, n), name, |plan|) == if wanted < had then had - wanted else 0
  {
    if n > 0 {
      HandedOutAsWanted(plan, rows, name, n - 1);
      var left := LeftAfter(plan, rows, n - 1);
      if rows[n - 1].equipment == name {
        DrawTotals(plan, left, rows[n - 1], |plan|);
        DrawExhausts(plan, left, rows[n - 1], |plan|);
      } else {
        OtherNamesUntouched(plan, left, rows[n - 1], name, |plan|);
      }
    }
  }

  // ---------------------------------------------------------------- the notes that follow

  function Given(plan: seq<Planned>, parts: seq<Part>): seq<SupplyNote.Allocation>
    requires forall k :: 0 <= k < |parts| ==> parts[k].from < |plan|
  {
    if parts == [] then []
    else
      var last := parts[|parts| - 1];
      Given(plan, parts[..|parts| - 1]) + [plan[last.from].gives.(qty := last.qty)]
  }

  lemma {:induction false} GivenTotal(plan: seq<Planned>, row: SupplyNote.Row, parts: seq<Part>)
    requires forall k :: 0 <= k < |parts| ==> parts[k].from < |plan|
    ensures SupplyNote.SumQty(SupplyNote.Recorded(row, Given(plan, parts))) <= Total(parts)
  {
    if parts == [] {
    } else {
      var init := parts[..|parts| - 1];
      GivenTotal(plan, row, init);
      var given, last := Given(plan, parts), plan[parts[|parts| - 1].from].gives.(qty := parts[|parts| - 1].qty);
      assert given[..|given| - 1] == Given(plan, init);
      RecordedLast(row, Given(plan, init), last);
    }
  }

  lemma RecordedLast(row: SupplyNote.Row, init: seq<SupplyNote.Allocation>, last: SupplyNote.Allocation)
    ensures SupplyNote.SumQty(SupplyNote.Recorded(row, init + [last]))
            <= SupplyNote.SumQty(SupplyNote.Recorded(row, init)) + last.qty
  {
    var recorded := SupplyNote.Recorded(row, init);
    assert (init + [last])[..|init|] == init;
    assert (recorded + [last])[..|recorded|] == recorded && recorded + [] == recorded;
  }

  /** The note of a row is never refused for handing out too much: it is written exactly when every recorded part is
      acceptable, and reads back as those parts. */
  lemma NoteOfRowFits(plan: seq<Planned>, rows: seq<SheetRow>, i: nat, previous: string, row: SupplyNote.Row)
    requires i < |rows| && row.equipment == rows[i].equipment && row.qty == rows[i].qty
    requires SupplyNote.ProperPeriod(row) && !SupplyNote.IsTag(SupplyNote.Leftover(previous))
    ensures forall k :: 0 <= k < |PartsOf(plan, rows, i)| ==> PartsOf(plan, rows, i)[k].from < |plan|
    ensures var given := Given(plan, PartsOf(plan, rows, i));
      var note := SupplyNote.Note(previous, row, given);
      && (note.Ok? <==> SupplyNote.AllAcceptable(row, SupplyNote.Recorded(row, given)))
      && (note.Ok? ==>
            SupplyNote.Allocations(row.(note := note.value))
            == SupplyNote.Result.Ok(SupplyNote.Recorded(row, given)))
  {
    DrawTotals(plan, LeftAfter(plan, rows, i), rows[i], |plan|);
    var given := Given(plan, PartsOf(plan, rows, i));
    GivenTotal(plan, row, PartsOf(plan, rows, i));
    SupplyNote.NoteSucceeds(previous, row, given);
  }
}
