/** The note lines that record supply decisions, their parser and the physical rows they stand for
    (inventorySupply.js). */
module SupplyNote {
  import opened JsText
  import opened SupplyPolicy

  const EXTERNAL := "[외부조달]"
  const UPGRADED := "[상위대체]"
  const BAR := " | "
  const UNIT := "대 | "

  datatype Allocation = External(supplier: string, name: string, qty: nat) | Own(name: string, qty: nat)

  datatype Fault = BadRecord | ExternalItem | NotUpgrade | TooMuch | BadFormat | NoSupplier | NotApproved

  datatype Result<T> = Ok(value: T) | Err(fault: Fault)

  /** A schedule row; `period` is the text both times of the row are printed as. */
  datatype Row = Row(equipment: string, qty: nat, period: string, note: string)

  // ---------------------------------------------------------------- lines

  function NewlineAt(s: string): (i: nat)
    ensures i <= |s| && '\n' !in s[..i] && (i < |s| ==> s[i] == '\n')
  {
    if s == [] || s[0] == '\n' then 0 else 1 + NewlineAt(s[1..])
  }

  function DropCr(s: string): string {
    if s != [] && s[|s| - 1] == '\r' then s[..|s| - 1] else s
  }

  /** `split(/\r?\n/)` */
  function Lines(s: string): (ls: seq<string>)
    ensures ls != []
    decreases |s|
  {
    var i := NewlineAt(s);
    if i == |s| then [s] else [DropCr(s[..i])] + Lines(s[i + 1..])
  }

  /** `join('\n')` */
  function Join(ls: seq<string>): string {
    if ls == [] then "" else if |ls| == 1 then ls[0] else ls[0] + "\n" + Join(ls[1..])
  }

  predicate IsTag(line: string) {
    EXTERNAL <= line || UPGRADED <= line
  }

  function Untagged(ls: seq<string>): seq<string> {
    if ls == [] then [] else (if IsTag(ls[0]) then [] else [ls[0]]) + Untagged(ls[1..])
  }

  /** The part of the previous note that is carried over. */
  function Leftover(previous: string): string {
    Trim(Join(Untagged(Lines(previous))))
  }

  // ---------------------------------------------------------------- reading one line

  /** `.` in a regular expression */
  predicate IsDot(c: char) {
    c != '\n' && c != '\r' && c != '\U{2028}' && c != '\U{2029}'
  }

  predicate Dots(s: string) {
    forall i :: 0 <= i < |s| ==> IsDot(s[i])
  }

  datatype Tail = NoTail | Tail(qty: nat, period: string)
  datatype NameTail = NoName | NameTail(name: string, tail: Tail)
  datatype Record = NoRecord | Record(external: bool, party: string, name: string, qty: nat, period: string)

  function DigitRun(s: string): (n: nat)
    ensures n <= |s| && AllDigits(s[..n]) && (n < |s| ==> !IsDigit(s[n]))
  {
    if s == [] || !IsDigit(s[0]) then 0 else
      var n := DigitRun(s[1..]);
      assert s[..1 + n] == [s[0]] + s[1..][..n];
      1 + n
  }

  /** `([1-9]\d*)대 \| (.+)$` */
  function ReadTail(s: string): Tail {
    var n := DigitRun(s);
    if n >= 1 && s[0] != '0' && UNIT <= s[n..] && |s| > n + |UNIT| && Dots(s[n + |UNIT|..])
    then Tail(ValueOf(s[..n]), s[n + |UNIT|..])
    else NoTail
  }

  /** `(.+?) \| ` and the tail: the shortest name, of length j or more, after which the rest matches. */
  function ReadName(s: string, j: nat): (r: NameTail)
    ensures r.NameTail? ==> r.tail.Tail?
    decreases |s| - j
  {
    if j > |s| || !Dots(s[..j]) then NoName
    else if BAR <= s[j..] && ReadTail(s[j + |BAR|..]).Tail? then NameTail(s[..j], ReadTail(s[j + |BAR|..]))
    else if j == |s| then NoName
    else ReadName(s, j + 1)
  }

  /** `(.+?) \| ` once more, for the supplier or the requested model. */
  function ReadParty(external: bool, s: string, i: nat): Record
    decreases |s| - i
  {
    if i > |s| || !Dots(s[..i]) then NoRecord
    else
      var r := if BAR <= s[i..] then ReadName(s[i + |BAR|..], 1) else NoName;
      if r.NameTail? then Record(external, s[..i], r.name, r.tail.qty, r.tail.period)
      else if i == |s| then NoRecord
      else ReadParty(external, s, i + 1)
  }

  function ReadLine(line: string): Record {
    if EXTERNAL + " " <= line then ReadParty(true, line[|EXTERNAL| + 1..], 1)
    else if UPGRADED + " " <= line then ReadParty(false, line[|UPGRADED| + 1..], 1)
    else NoRecord
  }

  function ReadAllocation(row: Row, line: string): Result<Allocation> {
    var m := ReadLine(line);
    if m.NoRecord? || m.period != row.period then Err(BadRecord)
    else if m.external then
      if m.name != row.equipment then Err(ExternalItem) else Ok(External(m.party, m.name, m.qty))
    else
      if m.party != row.equipment || !Upgrade(m.party, m.name) then Err(NotUpgrade) else Ok(Own(m.name, m.qty))
  }

  function SumQty(parts: seq<Allocation>): nat {
    if parts == [] then 0 else SumQty(parts[..|parts| - 1]) + parts[|parts| - 1].qty
  }

  /** The allocations of the first n lines. */
  function ReadLines(row: Row, ls: seq<string>, n: nat): Result<seq<Allocation>>
    requires n <= |ls|
  {
    if n == 0 then Ok([])
    else
      var before := ReadLines(row, ls, n - 1);
      if before.Err? || !IsTag(ls[n - 1]) then before
      else
        var a := ReadAllocation(row, ls[n - 1]);
        if a.Ok? then Ok(before.value + [a.value]) else Err(a.fault)
  }

  function Allocations(row: Row): Result<seq<Allocation>> {
    var ls := Lines(row.note);
    var r := ReadLines(row, ls, |ls|);
    if r.Ok? && SumQty(r.value) > row.qty then Err(TooMuch) else r
  }

  /** The lines of a note that record a decision. */
  function Tagged(ls: seq<string>): seq<string> {
    if ls == [] then [] else Tagged(ls[..|ls| - 1]) + if IsTag(ls[|ls| - 1]) then [ls[|ls| - 1]] else []
  }

  /** Reading is sound: the tagged lines are exactly the lines of the answer for this very item and period. It is
      complete: tagged lines of acceptable allocations read back, or exceed the booked quantity. */
  method ReadNote(row: Row) returns (r: Result<seq<Allocation>>)
    ensures r == Allocations(row)
    ensures r.Ok? ==>
              && Tagged(Lines(row.note)) == LinesFor(row, r.value) && SumQty(r.value) <= row.qty
              && forall a :: a in r.value ==> Fits(row, a)
    ensures forall parts :: ProperPeriod(row) && AllAcceptable(row, parts)
                            && Tagged(Lines(row.note)) == LinesFor(row, parts) ==>
              r == if SumQty(parts) > row.qty then Err(TooMuch) else Ok(parts)
  {
    hide ReadAllocation, IsTag, Lines, Fits, ProperPeriod, LinesFor, AllAcceptable, Tagged;
    NoteMeans(row);
    var ls := Lines(row.note);
    var parts: seq<Allocation>, sum: nat := [], 0;
    for i := 0 to |ls|
      invariant ReadLines(row, ls, i) == Ok(parts) && sum == SumQty(parts)
    {
      if IsTag(ls[i]) {
        var a := ReadAllocation(row, ls[i]);
        if a.Err? {
          LaterFault(row, ls, i + 1, |ls|);
          return Err(a.fault);
        }
        assert (parts + [a.value])[..|parts|] == parts;
        sum := sum + a.value.qty;
        parts := parts + [a.value];
      }
    }
    return if sum > row.qty then Err(TooMuch) else Ok(parts);
  }

  lemma {:induction false} LaterFault(row: Row, ls: seq<string>, n: nat, m: nat)
    requires n <= m <= |ls| && ReadLines(row, ls, n).Err?
    ensures ReadLines(row, ls, m) == ReadLines(row, ls, n)
  {
    hide ReadAllocation, IsTag;
    if n < m { LaterFault(row, ls, n, m - 1); }
  }

  // ---------------------------------------------------------------- printing

  predicate Clean(s: string) {
    '|' !in s && '\r' !in s && '\n' !in s
  }

  predicate IsRecorded(row: Row, a: Allocation) {
    a.External? || a.name != row.equipment
  }

  function Recorded(row: Row, allocations: seq<Allocation>): seq<Allocation> {
    if allocations == [] then []
    else
      var a := allocations[|allocations| - 1];
      Recorded(row, allocations[..|allocations| - 1]) + if IsRecorded(row, a) then [a] else []
  }

  function LineOf(row: Row, a: Allocation): string {
    (if a.External? then EXTERNAL else UPGRADED) + " "
    + ((if a.External? then a.supplier else row.equipment)
       + (BAR + (a.name + (BAR + (Decimal(a.qty) + (UNIT + row.period))))))
  }

  function PrintLine(row: Row, a: Allocation): Result<string> {
    if a.qty < 1 || !Clean(a.name) || (a.External? && !Clean(a.supplier)) || !Clean(row.equipment) then Err(BadFormat)
    else if a.External? && Trim(a.supplier) == "" then Err(NoSupplier)
    else if a.Own? && !Upgrade(row.equipment, a.name) then Err(NotApproved)
    else Ok(LineOf(row, a))
  }

  /** A text that would not come back as one field of one line. */
  ghost predicate Splits(s: string) {
    '|' in s || '\r' in s || '\n' in s
  }

  /** Why a decision cannot be recorded, each cause with its own error. */
  lemma PrintRefusals(row: Row, a: Allocation)
    ensures var broken := a.qty < 1 || Splits(a.name) || Splits(row.equipment) || (a.External? && Splits(a.supplier));
      && (PrintLine(row, a) == Err(BadFormat) <==> broken)
      && (PrintLine(row, a) == Err(NoSupplier) <==> !broken && a.External? && Trim(a.supplier) == "")
      && (PrintLine(row, a) == Err(NotApproved) <==> !broken && a.Own? && !(row.equipment == LOWER && a.name == UPPER))
      && (PrintLine(row, a).Err? ==> PrintLine(row, a).fault in [BadFormat, NoSupplier, NotApproved])
  {
    hide Trim, LineOf;
  }

  function PrintLines(row: Row, allocations: seq<Allocation>, n: nat): Result<seq<string>>
    requires n <= |allocations|
  {
    if n == 0 then Ok([])
    else
      var before := PrintLines(row, allocations, n - 1);
      if before.Err? || !IsRecorded(row, allocations[n - 1]) then before
      else
        var line := PrintLine(row, allocations[n - 1]);
        if line.Ok? then Ok(before.value + [line.value]) else Err(line.fault)
  }

  function Assemble(text: string, lines: seq<string>): string {
    Join((if text == "" then [] else [text]) + lines)
  }

  /** The new note, read back before it is returned. */
  function Note(previous: string, row: Row, allocations: seq<Allocation>): Result<string> {
    var lines := PrintLines(row, allocations, |allocations|);
    if lines.Err? then Err(lines.fault)
    else
      var note := Assemble(Leftover(previous), lines.value);
      var check := Allocations(row.(note := note));
      if check.Err? then Err(check.fault) else Ok(note)
  }

  // ---------------------------------------------------------------- a printed line reads back

  lemma {:induction false} RunOfDecimal(n: nat, rest: string)
    requires rest != [] && !IsDigit(rest[0])
    ensures DigitRun(Decimal(n) + rest) == |Decimal(n)|
  {
    RunOfDigits(Decimal(n), rest);
  }

  lemma {:induction false} RunOfDigits(digits: string, rest: string)
    requires AllDigits(digits) && rest != [] && !IsDigit(rest[0])
    ensures DigitRun(digits + rest) == |digits|
  {
    if digits == [] {
      assert digits + rest == rest;
    } else {
      assert (digits + rest)[1..] == digits[1..] + rest;
      RunOfDigits(digits[1..], rest);
    }
  }

  lemma TailReads(qty: nat, period: string)
    requires qty >= 1 && period != [] && Dots(period)
    ensures ReadTail(Decimal(qty) + (UNIT + period)) == Tail(qty, period)
  {
    hide Decimal;
    var s := Decimal(qty) + (UNIT + period);
    assert UNIT[0] == '대';
    RunOfDecimal(qty, UNIT + period);
    DecimalValue(qty);
    var n := |Decimal(qty)|;
    assert s[..n] == Decimal(qty) && s[n..] == UNIT + period && s[n + |UNIT|..] == period;
  }

  /** No bar can start inside a field without '|'. */
  lemma NoEarlyBar(field: string, rest: string, j: nat)
    requires Clean(field) && j < |field|
    ensures !(BAR <= (field + (BAR + rest))[j..])
  {
    var s := field + (BAR + rest);
    assert j + 1 < |field| ==> s[j + 1] == field[j + 1] && field[j + 1] in field;
    assert j + 1 == |field| ==> s[j + 1] == BAR[0];
    assert BAR[0] != '|' && BAR[1] == '|' && s[j..][1] == s[j + 1];
  }

  lemma {:induction false} NameReads(name: string, tail: string, j: nat)
    requires Clean(name) && Dots(name) && j <= |name| && ReadTail(tail).Tail?
    ensures ReadName(name + (BAR + tail), j) == NameTail(name, ReadTail(tail))
    decreases |name| - j
  {
    hide ReadTail, Clean;
    var s := name + (BAR + tail);
    assert s[..j] == name[..j];
    if j < |name| {
      NoEarlyBar(name, tail, j);
      NameReads(name, tail, j + 1);
    } else {
      assert s[..j] == name && s[j..] == BAR + tail && s[j + |BAR|..] == tail;
    }
  }

  lemma {:induction false} PartyReads(external: bool, party: string, rest: string, i: nat)
    requires Clean(party) && Dots(party) && i <= |party| && ReadName(rest, 1).NameTail?
    ensures var r := ReadName(rest, 1);
            ReadParty(external, party + (BAR + rest), i) == Record(external, party, r.name, r.tail.qty, r.tail.period)
    decreases |party| - i
  {
    hide ReadName, Clean;
    var s := party + (BAR + rest);
    assert s[..i] == party[..i];
    if i < |party| {
      NoEarlyBar(party, rest, i);
      PartyReads(external, party, rest, i + 1);
    } else {
      assert s[..i] == party && s[i..] == BAR + rest && s[i + |BAR|..] == rest;
    }
  }

  lemma TagsDiffer(rest: string)
    ensures !(EXTERNAL <= UPGRADED + rest) && IsTag(UPGRADED + rest) && IsTag(EXTERNAL + rest)
  {
    assert EXTERNAL[1] == '외' && UPGRADED[1] == '상';
    assert (UPGRADED + rest)[1] == '상';
  }

  predicate GoodField(s: string) {
    s != [] && Clean(s) && Dots(s)
  }

  lemma LineReads(row: Row, a: Allocation, party: string)
    requires a.qty >= 1 && row.period != [] && Dots(row.period)
    requires party == (if a.External? then a.supplier else row.equipment) && GoodField(party) && GoodField(a.name)
    ensures ReadLine(LineOf(row, a)) == Record(a.External?, party, a.name, a.qty, row.period)
    ensures IsTag(LineOf(row, a))
  {
    hide ReadTail, ReadName, ReadParty, Decimal, Clean, Dots;
    var tail := Decimal(a.qty) + (UNIT + row.period);
    TailReads(a.qty, row.period);
    NameReads(a.name, tail, 1);
    var rest := a.name + (BAR + tail);
    PartyReads(a.External?, party, rest, 1);
    var tag := if a.External? then EXTERNAL else UPGRADED;
    var line := LineOf(row, a);
    var body := party + (BAR + rest);
    assert line == tag + " " + body;
    assert line == tag + (" " + body);
    TagsDiffer(" " + body);
    assert tag + " " <= line && line[|tag| + 1..] == body;
    assert !a.External? ==> !(EXTERNAL + " " <= line) by {
      if EXTERNAL + " " <= line { assert EXTERNAL <= line; }
    }
  }

  // ---------------------------------------------------------------- whatever is read prints back

  lemma TailSound(s: string)
    ensures ReadTail(s).Tail? ==> s == Decimal(ReadTail(s).qty) + (UNIT + ReadTail(s).period) && ReadTail(s).qty > 0
  {
    hide Decimal, Dots;
    var n := DigitRun(s);
    if ReadTail(s).Tail? {
      ValueDecimal(s[..n]);
      assert s == s[..n] + s[n..] && s[n..] == UNIT + s[n..][|UNIT|..];
      assert s[n..][|UNIT|..] == s[n + |UNIT|..];
    }
  }

  lemma {:induction false} NameSound(s: string, j: nat)
    ensures var r := ReadName(s, j);
            r.NameTail? ==> |r.name| >= j && Dots(r.name) && r.tail.qty > 0
                            && s == r.name + (BAR + (Decimal(r.tail.qty) + (UNIT + r.tail.period)))
    decreases |s| - j
  {
    hide Decimal, ReadTail, Dots;
    if j <= |s| && Dots(s[..j]) {
      if BAR <= s[j..] && ReadTail(s[j + |BAR|..]).Tail? {
        TailSound(s[j + |BAR|..]);
        assert s == s[..j] + s[j..] && s[j..] == BAR + s[j..][|BAR|..] && s[j..][|BAR|..] == s[j + |BAR|..];
      } else if j < |s| {
        NameSound(s, j + 1);
      }
    }
  }

  lemma {:induction false} PartySound(external: bool, s: string, i: nat)
    ensures var r := ReadParty(external, s, i);
            r.Record? ==> |r.party| >= i && Dots(r.party) && r.external == external && |r.name| >= 1 && Dots(r.name)
                          && r.qty > 0
                          && s == r.party + (BAR + (r.name + (BAR + (Decimal(r.qty) + (UNIT + r.period)))))
    decreases |s| - i
  {
    hide Decimal, ReadName, Dots;
    if i <= |s| && Dots(s[..i]) {
      var r := if BAR <= s[i..] then ReadName(s[i + |BAR|..], 1) else NoName;
      if r.NameTail? {
        NameSound(s[i + |BAR|..], 1);
        assert s == s[..i] + s[i..] && s[i..] == BAR + s[i..][|BAR|..] && s[i..][|BAR|..] == s[i + |BAR|..];
      } else if i < |s| {
        PartySound(external, s, i + 1);
      }
    }
  }

  function Bars(s: string): nat {
    if s == [] then 0 else (if s[0] == '|' then 1 else 0) + Bars(s[1..])
  }

  lemma {:induction false} BarsConcat(a: string, b: string)
    ensures Bars(a + b) == Bars(a) + Bars(b)
  {
    if a == [] {
      assert a + b == b;
    } else {
      assert (a + b)[1..] == a[1..] + b;
      BarsConcat(a[1..], b);
    }
  }

  lemma {:induction false} BarFree(s: string)
    ensures Bars(s) == 0 <==> '|' !in s
  {
    if s != [] {
      BarFree(s[1..]);
      assert s == [s[0]] + s[1..];
    }
  }

  lemma {:induction false} BarFreeDigits(s: string)
    requires AllDigits(s)
    ensures Bars(s) == 0
  {
    if s != [] { BarFreeDigits(s[1..]); }
  }

  lemma BarsOfBody(party: string, name: string, qty: nat, period: string)
    ensures Bars(party + (BAR + (name + (BAR + (Decimal(qty) + (UNIT + period))))))
            == Bars(party) + Bars(name) + Bars(period) + 3
  {
    hide Decimal, Bars;
    var t4 := UNIT + period;
    var t3 := Decimal(qty) + t4;
    var t2 := BAR + t3;
    var t1 := name + t2;
    BarsConcat(UNIT, period);
    BarsConcat(Decimal(qty), t4);
    BarsConcat(BAR, t3);
    BarsConcat(name, t2);
    BarsConcat(BAR, t1);
    BarsConcat(party, BAR + t1);
    BarFreeDigits(Decimal(qty));
    BarsOfMarks();
  }

  lemma BarsOfMarks()
    ensures Bars(BAR) == 1 && Bars(UNIT) == 1
  {
    assert BAR == [' ', '|', ' '] && UNIT == ['대', ' ', '|', ' '];
    assert BAR[1..] == ['|', ' '] && BAR[1..][1..] == [' '] && BAR[1..][1..][1..] == [];
    assert UNIT[1..] == [' ', '|', ' '] && UNIT[1..] == BAR;
  }

  lemma FieldNotShorter(f: string, g: string, x: string, y: string)
    requires '|' !in g && f + (BAR + x) == g + (BAR + y)
    ensures |f| >= |g|
  {
    var s := g + (BAR + y);
    assert BAR[0] != '|' && BAR[1] == '|';
    assert (f + (BAR + x))[|f| + 1] == '|';
    assert forall k :: 0 <= k < |g| ==> s[k] == g[k] && g[k] in g;
    assert s[|g|] == ' ';
  }

  /** Two bar-free fields before a bar are the same field. */
  lemma SameField(f: string, g: string, x: string, y: string)
    requires '|' !in f && '|' !in g && f + (BAR + x) == g + (BAR + y)
    ensures f == g && x == y
  {
    FieldNotShorter(f, g, x, y);
    FieldNotShorter(g, f, y, x);
    var s := f + (BAR + x);
    assert f == s[..|f|] == g;
    assert x == s[|f| + 3..] == y;
  }

  // ---------------------------------------------------------------- which allocations can be recorded

  ghost predicate ProperPeriod(row: Row) {
    row.period != [] && Dots(row.period) && '|' !in row.period
  }

  /** What one recorded allocation has to satisfy. */
  predicate Acceptable(row: Row, a: Allocation) {
    && a.qty >= 1
    && (match a
        case External(supplier, name, _) =>
          name == row.equipment && GoodField(name) && GoodField(supplier) && Trim(supplier) != ""
        case Own(name, _) => Upgrade(row.equipment, name))
  }

  lemma PolicyNamesAreFields()
    ensures GoodField(LOWER) && GoodField(UPPER)
  {
  }

  /** An allocation prints to a line that reads back iff it is acceptable, and then to itself. */
  lemma PrintedLine(row: Row, a: Allocation)
    requires ProperPeriod(row) && IsRecorded(row, a)
    ensures (PrintLine(row, a).Ok? && ReadAllocation(row, LineOf(row, a)).Ok?) <==> Acceptable(row, a)
    ensures Acceptable(row, a) ==> ReadAllocation(row, LineOf(row, a)) == Ok(a) && IsTag(LineOf(row, a))
  {
    hide ReadLine, LineOf;
    var party := if a.External? then a.supplier else row.equipment;
    PolicyNamesAreFields();
    if Acceptable(row, a) {
      LineReads(row, a, party);
    } else if PrintLine(row, a).Ok? && ReadAllocation(row, LineOf(row, a)).Ok? {
      ReadOnlyAcceptable(row, a);
    }
  }

  lemma ReadOnlyAcceptable(row: Row, a: Allocation)
    requires ProperPeriod(row) && a.External? && PrintLine(row, a).Ok? && ReadAllocation(row, LineOf(row, a)).Ok?
    ensures Acceptable(row, a)
  {
    hide ReadParty, Decimal, Dots, Trim;
    var body := a.supplier + (BAR + (a.name + (BAR + (Decimal(a.qty) + (UNIT + row.period)))));
    var line := LineOf(row, a);
    assert line == EXTERNAL + " " + body;
    assert line[|EXTERNAL| + 1..] == body;
    var m := ReadLine(line);
    assert m == ReadParty(true, body, 1);
    PartySound(true, body, 1);
    BarsOfBody(a.supplier, a.name, a.qty, row.period);
    BarsOfBody(m.party, m.name, m.qty, m.period);
    BarFree(a.supplier);
    BarFree(a.name);
    BarFree(row.period);
    BarFree(m.party);
    BarFree(m.name);
    SameField(a.supplier, m.party, a.name + (BAR + (Decimal(a.qty) + (UNIT + row.period))),
              m.name + (BAR + (Decimal(m.qty) + (UNIT + m.period))));
    SameField(a.name, m.name, Decimal(a.qty) + (UNIT + row.period), Decimal(m.qty) + (UNIT + m.period));
  }

  // ---------------------------------------------------------------- the lines of an assembled note

  lemma {:induction false} NewlineFirst(a: string, b: string)
    ensures NewlineAt(a + ("\n" + b)) == NewlineAt(a)
  {
    if a != [] && a[0] != '\n' {
      assert (a + ("\n" + b))[1..] == a[1..] + ("\n" + b);
      NewlineFirst(a[1..], b);
    }
  }

  ghost predicate NoTrailingCr(s: string) {
    s == [] || s[|s| - 1] != '\r'
  }

  /** The first line of a text and the rest of its lines. */
  lemma LinesCons(x: string, rest: string)
    requires '\n' !in x
    ensures Lines(x + ("\n" + rest)) == [DropCr(x)] + Lines(rest)
  {
    var s := x + ("\n" + rest);
    NewlineFirst(x, rest);
    assert forall k :: 0 <= k < |x| ==> x[k] in x;
    assert NewlineAt(x) == |x|;
    assert s[..|x|] == x && s[|x| + 1..] == rest;
  }

  lemma LinesAppendStep(x: string, rest: string, b: string)
    requires '\n' !in x && Lines(rest + ("\n" + b)) == Lines(rest) + Lines(b)
    ensures Lines((x + ("\n" + rest)) + ("\n" + b)) == Lines(x + ("\n" + rest)) + Lines(b)
  {
    hide Lines, DropCr;
    LinesCons(x, rest);
    LinesCons(x, rest + ("\n" + b));
    assert (x + ("\n" + rest)) + ("\n" + b) == x + ("\n" + (rest + ("\n" + b)));
  }

  lemma LinesAppendLast(a: string, b: string)
    requires NewlineAt(a) == |a| && NoTrailingCr(a)
    ensures Lines(a + ("\n" + b)) == Lines(a) + Lines(b)
  {
    assert Lines(a) == [a];
    assert a[..|a|] == a;
    hide Lines;
    LinesCons(a, b);
  }

  lemma {:induction false} LinesAppend(a: string, b: string)
    requires NoTrailingCr(a)
    ensures Lines(a + ("\n" + b)) == Lines(a) + Lines(b)
    decreases |a|
  {
    hide Lines;
    var i := NewlineAt(a);
    if i == |a| {
      LinesAppendLast(a, b);
    } else {
      var x, rest := a[..i], a[i + 1..];
      LinesAppend(rest, b);
      LinesAppendStep(x, rest, b);
      assert a == x + ("\n" + rest);
    }
  }

  ghost predicate SingleLine(l: string) {
    '\n' !in l && NoTrailingCr(l)
  }

  lemma LinesSingle(l: string)
    requires '\n' !in l
    ensures Lines(l) == [l]
  {
    assert forall k :: 0 <= k < |l| ==> l[k] in l;
  }

  lemma {:induction false} LinesJoin(ls: seq<string>)
    requires ls != [] && forall l :: l in ls ==> SingleLine(l)
    ensures Lines(Join(ls)) == ls
  {
    hide Lines;
    assert ls[0] in ls;
    LinesSingle(ls[0]);
    if |ls| > 1 {
      LinesJoin(ls[1..]);
      assert Join(ls) == ls[0] + ("\n" + Join(ls[1..]));
      LinesAppend(ls[0], Join(ls[1..]));
      assert ls == [ls[0]] + ls[1..];
    }
  }

  lemma AssembledLines(text: string, lines: seq<string>)
    requires NoTrailingCr(text) && forall l :: l in lines ==> SingleLine(l)
    ensures Lines(Assemble(text, lines)) == (if text == "" && lines != [] then [] else Lines(text)) + lines
  {
    hide Lines;
    if lines == [] {
      assert Lines(text) + lines == Lines(text);
      assert text == "" ==> Join([]) == "";
    } else {
      LinesJoin(lines);
      if text == "" {
        assert [] + lines == lines;
      } else {
        assert ([text] + lines)[1..] == lines;
        assert Join([text] + lines) == text + ("\n" + Join(lines));
        LinesAppend(text, Join(lines));
      }
    }
  }

  // ---------------------------------------------------------------- carried-over lines carry no tag, but for one

  /** No line but the first can start with a tag. */
  ghost predicate NoInnerTag(s: string) {
    forall i :: 0 <= i < |s| && s[i] == '\n' ==> !IsTag(s[i + 1..])
  }

  lemma TagText(s: string, line: string)
    requires line <= s && IsTag(line)
    ensures IsTag(s)
  {
  }

  /** A tag holds no line break, so it lies within the first line. */
  lemma TagInFirstLine(s: string)
    ensures IsTag(s) <==> IsTag(Lines(s)[0])
  {
    var i := NewlineAt(s);
    var first := if i == |s| then s else DropCr(s[..i]);
    assert first <= s;
    assert Lines(s)[0] == first;
    if IsTag(first) { TagText(s, first); }
    if IsTag(s) && i < |s| {
      var tag := if EXTERNAL <= s then EXTERNAL else UPGRADED;
      assert tag <= s && '\n' !in tag && '\r' !in tag;
      assert forall k :: 0 <= k < |tag| ==> s[k] == tag[k] && tag[k] in tag;
      assert i >= |tag|;
      assert first == s[..i] || (s[i - 1] == '\r' && first == s[..i - 1]);
      assert tag <= first;
    }
  }

  lemma {:induction false} TaggedLines(s: string)
    requires NoInnerTag(s)
    ensures forall k :: 1 <= k < |Lines(s)| ==> !IsTag(Lines(s)[k])
    decreases |s|
  {
    hide IsTag;
    var i := NewlineAt(s);
    if i < |s| {
      var rest := s[i + 1..];
      assert NoInnerTag(rest) by {
        forall j | 0 <= j < |rest| && rest[j] == '\n' ensures !IsTag(rest[j + 1..]) {
          assert s[i + 1 + j] == '\n' && s[i + 1 + j + 1..] == rest[j + 1..];
        }
      }
      TaggedLines(rest);
      TagInFirstLine(rest);
      assert s[i] == '\n' && !IsTag(rest);
    }
  }

  lemma {:induction false} UntaggedHasNoTag(ls: seq<string>)
    ensures forall l :: l in Untagged(ls) ==> l in ls && !IsTag(l)
  {
    hide IsTag;
    if ls != [] { UntaggedHasNoTag(ls[1..]); }
  }

  lemma {:induction false} LinesHaveNoNewline(s: string)
    ensures forall l :: l in Lines(s) ==> '\n' !in l
    decreases |s|
  {
    var i := NewlineAt(s);
    if i < |s| { LinesHaveNoNewline(s[i + 1..]); } else { assert s[..i] == s; }
  }

  /** A tag at the start of a joined text is a tag at the start of its first line. */
  lemma JoinTag(ls: seq<string>)
    requires ls != [] && '\n' !in ls[0]
    ensures IsTag(Join(ls)) <==> IsTag(ls[0])
  {
    var s := Join(ls);
    assert ls[0] <= s;
    if IsTag(s) && |ls| > 1 {
      var tag := if EXTERNAL <= s then EXTERNAL else UPGRADED;
      assert tag <= s && '\n' !in tag;
      assert s[|ls[0]|] == '\n';
      assert forall k :: 0 <= k < |tag| ==> s[k] == tag[k] && tag[k] in tag;
      assert |ls[0]| >= |tag|;
    }
  }

  lemma OneLineNoInnerTag(x: string)
    requires '\n' !in x
    ensures NoInnerTag(x)
  {
    hide IsTag;
    assert forall k :: 0 <= k < |x| ==> x[k] in x;
  }

  lemma TwoNoInnerTag(x: string, rest: string)
    requires '\n' !in x && NoInnerTag(rest) && !IsTag(rest)
    ensures NoInnerTag(x + "\n" + rest)
  {
    hide IsTag;
    var s, n := x + "\n" + rest, |x|;
    assert forall k :: 0 <= k < n ==> s[k] == x[k] && x[k] in x;
    forall i | 0 <= i < |s| && s[i] == '\n' ensures !IsTag(s[i + 1..]) {
      assert i >= n;
      if i == n {
        assert s[i + 1..] == rest;
      } else {
        assert rest[i - n - 1] == '\n' && s[i + 1..] == rest[i - n..];
      }
    }
  }

  lemma {:induction false} JoinNoInnerTag(ls: seq<string>)
    requires forall l :: l in ls ==> '\n' !in l && !IsTag(l)
    ensures NoInnerTag(Join(ls))
  {
    hide IsTag, NoInnerTag;
    if ls == [] {
      OneLineNoInnerTag("");
    } else {
      assert ls[0] in ls;
      if |ls| == 1 {
        OneLineNoInnerTag(ls[0]);
      } else {
        assert ls[1] in ls;
        JoinNoInnerTag(ls[1..]);
        JoinTag(ls[1..]);
        TwoNoInnerTag(ls[0], Join(ls[1..]));
      }
    }
  }

  lemma DropNoInnerTag(s: string, d: nat)
    requires NoInnerTag(s) && d <= |s|
    ensures NoInnerTag(s[d..])
  {
    hide IsTag;
    var l := s[d..];
    forall i | 0 <= i < |l| && l[i] == '\n' ensures !IsTag(l[i + 1..]) {
      assert s[d + i] == '\n' && s[d + i + 1..] == l[i + 1..];
    }
  }

  lemma TakeNoInnerTag(s: string, n: nat)
    requires NoInnerTag(s) && n <= |s|
    ensures NoInnerTag(s[..n])
  {
    hide IsTag;
    var r := s[..n];
    forall i | 0 <= i < |r| && r[i] == '\n' ensures !IsTag(r[i + 1..]) {
      assert s[i] == '\n' && r[i + 1..] <= s[i + 1..];
      if IsTag(r[i + 1..]) { TagText(s[i + 1..], r[i + 1..]); }
    }
  }

  lemma TrimNoInnerTag(s: string)
    requires NoInnerTag(s)
    ensures NoInnerTag(Trim(s))
  {
    hide IsTag, NoInnerTag, TrimLeft, TrimRight;
    var l := TrimLeft(s);
    DropNoInnerTag(s, |s| - |l|);
    var r := TrimRight(l);
    assert r == l[..|r|];
    TakeNoInnerTag(l, |r|);
  }

  lemma LeftoverShape(previous: string)
    ensures var text := Leftover(previous);
            && NoTrailingCr(text) && NoInnerTag(text)
            && (forall k :: 1 <= k < |Lines(text)| ==> !IsTag(Lines(text)[k]))
            && (IsTag(Lines(text)[0]) <==> IsTag(text))
  {
    hide IsTag, Lines, Untagged, Join, Trim;
    var kept := Untagged(Lines(previous));
    UntaggedHasNoTag(Lines(previous));
    LinesHaveNoNewline(previous);
    JoinNoInnerTag(kept);
    TrimNoInnerTag(Join(kept));
    TaggedLines(Leftover(previous));
    TagInFirstLine(Leftover(previous));
  }

  // ---------------------------------------------------------------- printing, then parsing

  function LinesFor(row: Row, recorded: seq<Allocation>): seq<string> {
    if recorded == [] then []
    else LinesFor(row, recorded[..|recorded| - 1]) + [LineOf(row, recorded[|recorded| - 1])]
  }

  ghost predicate AllPrint(row: Row, recorded: seq<Allocation>) {
    forall a :: a in recorded ==> PrintLine(row, a).Ok?
  }

  ghost predicate AllAcceptable(row: Row, recorded: seq<Allocation>) {
    forall a :: a in recorded ==> Acceptable(row, a)
  }

  lemma {:induction false} RecordedAre(row: Row, allocations: seq<Allocation>)
    ensures forall a :: a in Recorded(row, allocations) ==> a in allocations && IsRecorded(row, a)
  {
    if allocations != [] { RecordedAre(row, allocations[..|allocations| - 1]); }
  }

  lemma PrintLineValue(row: Row, a: Allocation)
    ensures PrintLine(row, a).Ok? ==> PrintLine(row, a).value == LineOf(row, a)
  {
  }

  lemma {:induction false} PrintLinesAre(row: Row, allocations: seq<Allocation>, n: nat)
    requires n <= |allocations|
    ensures PrintLines(row, allocations, n).Ok? <==> AllPrint(row, Recorded(row, allocations[..n]))
    ensures PrintLines(row, allocations, n).Ok? ==>
              PrintLines(row, allocations, n).value == LinesFor(row, Recorded(row, allocations[..n]))
  {
    hide LineOf, IsRecorded, PrintLine;
    if n > 0 {
      PrintLineValue(row, allocations[n - 1]);
      PrintLinesAre(row, allocations, n - 1);
      assert allocations[..n][..n - 1] == allocations[..n - 1];
      var before := Recorded(row, allocations[..n - 1]);
      var after := Recorded(row, allocations[..n]);
      if IsRecorded(row, allocations[n - 1]) {
        assert after == before + [allocations[n - 1]];
        assert after[..|after| - 1] == before;
        assert LinesFor(row, after) == LinesFor(row, before) + [LineOf(row, allocations[n - 1])];
        assert forall a :: a in after <==> a in before || a == allocations[n - 1];
      } else {
        assert after == before;
      }
    }
  }

  lemma {:induction false} PrintedSingleLines(row: Row, recorded: seq<Allocation>)
    requires ProperPeriod(row) && AllPrint(row, recorded)
    ensures forall l :: l in LinesFor(row, recorded) ==> SingleLine(l)
  {
    hide LineOf;
    if recorded != [] {
      var a := recorded[|recorded| - 1];
      assert a in recorded;
      assert forall b :: b in recorded[..|recorded| - 1] ==> b in recorded;
      PrintedSingleLines(row, recorded[..|recorded| - 1]);
      OneSingleLine(row, a);
    }
  }

  lemma DotsHaveNoBreak(s: string)
    requires Dots(s)
    ensures '\n' !in s && NoTrailingCr(s)
  {
    assert forall i :: 0 <= i < |s| ==> IsDot(s[i]) && s[i] != '\n';
    if s != [] { assert IsDot(s[|s| - 1]); }
  }

  lemma OneSingleLine(row: Row, a: Allocation)
    requires ProperPeriod(row) && PrintLine(row, a).Ok?
    ensures SingleLine(LineOf(row, a))
  {
    hide Decimal, Dots, SingleLine;
    var party := if a.External? then a.supplier else row.equipment;
    assert '\n' !in party && '\n' !in a.name;
    PeriodIsSingle(row);
    DecimalIsSingle(a.qty);
    MarksAreSingle();
    var digits := Decimal(a.qty);
    Lengthen(digits, UNIT, row.period);
    var t2 := digits + (UNIT + row.period);
    Lengthen(a.name, BAR, t2);
    var t1 := a.name + (BAR + t2);
    Lengthen(party, BAR, t1);
    TaggedSingle(row, a, party + (BAR + t1));
  }

  lemma PeriodIsSingle(row: Row)
    requires ProperPeriod(row)
    ensures SingleLine(row.period)
  {
    DotsHaveNoBreak(row.period);
  }

  lemma DecimalIsSingle(n: nat)
    ensures '\n' !in Decimal(n)
  {
    DigitsAreDots(Decimal(n));
    DotsHaveNoBreak(Decimal(n));
  }

  lemma MarksAreSingle()
    ensures '\n' !in BAR && '\n' !in UNIT
  {
  }

  lemma TaggedSingle(row: Row, a: Allocation, body: string)
    requires body != [] && SingleLine(body)
    requires body == (if a.External? then a.supplier else row.equipment)
                     + (BAR + (a.name + (BAR + (Decimal(a.qty) + (UNIT + row.period)))))
    ensures SingleLine(LineOf(row, a))
  {
    hide Decimal;
    var tag := if a.External? then EXTERNAL else UPGRADED;
    assert '\n' !in tag && '\n' !in " ";
    Lengthen(tag, " ", body);
    assert LineOf(row, a) == tag + (" " + body);
  }

  lemma DigitsAreDots(s: string)
    requires AllDigits(s)
    ensures Dots(s)
  {
  }

  lemma Lengthen(a: string, mark: string, b: string)
    requires '\n' !in a && '\n' !in mark && b != [] && SingleLine(b)
    ensures a + (mark + b) != [] && SingleLine(a + (mark + b))
  {
    var s := a + (mark + b);
    assert s[|s| - 1] == b[|b| - 1];
  }

  /** Reading concatenated lines is reading the parts one after the other. */
  lemma {:induction false} ReadConcat(row: Row, a: seq<string>, b: seq<string>, n: nat)
    requires n <= |b|
    ensures var ra, rb, r := ReadLines(row, a, |a|), ReadLines(row, b, n), ReadLines(row, a + b, |a| + n);
            && (r.Ok? <==> ra.Ok? && rb.Ok?)
            && (r.Ok? ==> r.value == ra.value + rb.value)
            && (ra.Err? ==> r == ra) && (ra.Ok? && rb.Err? ==> r == rb)
  {
    hide ReadAllocation, IsTag;
    if n == 0 {
      ReadPrefix(row, a, b, |a|);
      if ReadLines(row, a, |a|).Ok? { assert ReadLines(row, a, |a|).value + [] == ReadLines(row, a, |a|).value; }
    } else {
      ReadConcat(row, a, b, n - 1);
      assert (a + b)[|a| + n - 1] == b[n - 1];
    }
  }

  lemma {:induction false} ReadPrefix(row: Row, a: seq<string>, b: seq<string>, n: nat)
    requires n <= |a|
    ensures ReadLines(row, a + b, n) == ReadLines(row, a, n)
  {
    hide ReadAllocation, IsTag;
    if n > 0 { ReadPrefix(row, a, b, n - 1); }
  }

  lemma {:induction false} ReadUntagged(row: Row, ls: seq<string>, n: nat)
    requires n <= |ls| && forall k :: 0 <= k < n ==> !IsTag(ls[k])
    ensures ReadLines(row, ls, n) == Ok([])
  {
    hide ReadAllocation, IsTag;
    if n > 0 { ReadUntagged(row, ls, n - 1); }
  }

  lemma {:induction false} ReadPrinted(row: Row, recorded: seq<Allocation>)
    requires ProperPeriod(row) && AllPrint(row, recorded)
    requires forall a :: a in recorded ==> IsRecorded(row, a)
    ensures var ls := LinesFor(row, recorded);
            && (ReadLines(row, ls, |ls|).Ok? <==> AllAcceptable(row, recorded))
            && (AllAcceptable(row, recorded) ==> ReadLines(row, ls, |ls|) == Ok(recorded))
  {
    hide ReadAllocation, LineOf, IsTag, IsRecorded, Acceptable, PrintLine, ReadLines;
    if recorded == [] {
      ReadUntagged(row, [], 0);
    } else {
      var rest, a := recorded[..|recorded| - 1], recorded[|recorded| - 1];
      assert recorded == rest + [a];
      assert a in recorded && forall b :: b in recorded <==> b in rest || b == a;
      ReadPrinted(row, rest);
      PrintedLine(row, a);
      PrintedTag(row, a);
      ReadOne(row, LineOf(row, a));
      ReadConcat(row, LinesFor(row, rest), [LineOf(row, a)], 1);
    }
  }

  // ---------------------------------------------------------------- what an arbitrary note says

  /** What a line that is read stands for: external supply of the item itself, or its approved upgrade. */
  ghost predicate Fits(row: Row, a: Allocation) {
    && a.qty > 0
    && match a
       case External(supplier, name, _) => supplier != "" && name == row.equipment
       case Own(name, _) => Upgrade(row.equipment, name)
  }

  /** A line that is read is the printed line of the answer, item and period included. */
  lemma ReadSound(row: Row, line: string)
    requires ReadAllocation(row, line).Ok?
    ensures var a := ReadAllocation(row, line).value; line == LineOf(row, a) && Fits(row, a)
  {
    hide ReadParty, Decimal, Dots;
    var m := ReadLine(line);
    var tag := if m.external then EXTERNAL else UPGRADED;
    PartySound(true, line[if EXTERNAL + " " <= line then |EXTERNAL| + 1 else 0..], 1);
    PartySound(false, line[if UPGRADED + " " <= line then |UPGRADED| + 1 else 0..], 1);
    assert tag + " " <= line && line == tag + " " + line[|tag| + 1..];
  }

  lemma {:induction false} NoteSound(row: Row, ls: seq<string>, n: nat)
    requires n <= |ls|
    ensures var r := ReadLines(row, ls, n);
      r.Ok? ==> Tagged(ls[..n]) == LinesFor(row, r.value) && forall a :: a in r.value ==> Fits(row, a)
    ensures n == |ls| ==> ls[..n] == ls
  {
    hide ReadAllocation, LineOf, IsTag, Fits;
    if n > 0 {
      NoteSound(row, ls, n - 1);
      assert ls[..n][..n - 1] == ls[..n - 1];
      var before, r := ReadLines(row, ls, n - 1), ReadLines(row, ls, n);
      if r.Ok? && IsTag(ls[n - 1]) {
        ReadSound(row, ls[n - 1]);
        assert r.value[..|r.value| - 1] == before.value;
      }
    }
  }

  lemma {:induction false} NoteComplete(row: Row, ls: seq<string>, n: nat, parts: seq<Allocation>)
    requires n <= |ls| && ProperPeriod(row) && AllAcceptable(row, parts) && Tagged(ls[..n]) == LinesFor(row, parts)
    ensures ReadLines(row, ls, n) == Ok(parts)
  {
    hide ReadAllocation, LineOf, IsTag, Acceptable, ProperPeriod;
    if n > 0 {
      assert ls[..n][..n - 1] == ls[..n - 1];
      if IsTag(ls[n - 1]) {
        assert parts != [];
        var rest, a := parts[..|parts| - 1], parts[|parts| - 1];
        assert parts == rest + [a] && a in parts && forall b :: b in rest ==> b in parts;
        var front := Tagged(ls[..n - 1]);
        assert front + [ls[n - 1]] == LinesFor(row, rest) + [LineOf(row, a)];
        assert front == (front + [ls[n - 1]])[..|front|] == LinesFor(row, rest);
        NoteComplete(row, ls, n - 1, rest);
        AcceptableRecorded(row, a);
        PrintedLine(row, a);
      } else {
        NoteComplete(row, ls, n - 1, parts);
      }
    }
  }

  lemma AcceptableRecorded(row: Row, a: Allocation)
    requires Acceptable(row, a)
    ensures IsRecorded(row, a)
  {
    assert |LOWER| != |UPPER|;
  }

  lemma NoteMeans(row: Row)
    ensures var r := Allocations(row);
      && (r.Ok? ==>
            && Tagged(Lines(row.note)) == LinesFor(row, r.value) && SumQty(r.value) <= row.qty
            && forall a :: a in r.value ==> Fits(row, a))
      && forall parts :: ProperPeriod(row) && AllAcceptable(row, parts)
                         && Tagged(Lines(row.note)) == LinesFor(row, parts) ==>
           r == if SumQty(parts) > row.qty then Err(TooMuch) else Ok(parts)
  {
    hide ReadLines, IsTag, Lines, Fits, ProperPeriod, LinesFor, AllAcceptable, Tagged;
    var ls := Lines(row.note);
    NoteSound(row, ls, |ls|);
    assert ls[..|ls|] == ls;
    forall parts | ProperPeriod(row) && AllAcceptable(row, parts) && Tagged(ls) == LinesFor(row, parts)
      ensures ReadLines(row, ls, |ls|) == Ok(parts)
    {
      NoteComplete(row, ls, |ls|, parts);
    }
  }

  /** A well-formed line printed for another row: another period, another item and an unapproved model are refused, each
      by its own error. */
  lemma LineOfAnotherRow(row: Row, other: Row, a: Allocation)
    requires a.qty >= 1 && other.period != [] && Dots(other.period)
    requires GoodField(a.name) && GoodField(if a.External? then a.supplier else other.equipment)
    ensures ReadAllocation(row, LineOf(other, a)) ==
      if other.period != row.period then Err(BadRecord)
      else if a.External? then if a.name == row.equipment then Ok(a) else Err(ExternalItem)
      else if other.equipment == row.equipment && Upgrade(row.equipment, a.name) then Ok(a)
      else Err(NotUpgrade)
  {
    hide ReadLine, LineOf;
    LineReads(other, a, if a.External? then a.supplier else other.equipment);
  }

  lemma ReadOne(row: Row, line: string)
    requires IsTag(line)
    ensures var a := ReadAllocation(row, line);
            ReadLines(row, [line], 1) == if a.Ok? then Ok([a.value]) else Err(a.fault)
  {
    hide ReadAllocation, IsTag;
    assert ReadLines(row, [line], 0) == Ok([]);
    var a := ReadAllocation(row, line);
    if a.Ok? { assert [] + [a.value] == [a.value]; }
  }

  lemma PrintedTag(row: Row, a: Allocation)
    ensures IsTag(LineOf(row, a))
  {
    var body := (if a.External? then a.supplier else row.equipment)
                + (BAR + (a.name + (BAR + (Decimal(a.qty) + (UNIT + row.period)))));
    TagsDiffer(" " + body);
    assert LineOf(row, a) == (if a.External? then EXTERNAL else UPGRADED) + (" " + body);
  }

  lemma {:induction false} SameRead(row: Row, note: string, ls: seq<string>, n: nat)
    requires n <= |ls|
    ensures ReadLines(row.(note := note), ls, n) == ReadLines(row, ls, n)
  {
    hide ReadLine, IsTag;
    if n > 0 {
      SameRead(row, note, ls, n - 1);
      assert ReadAllocation(row.(note := note), ls[n - 1]) == ReadAllocation(row, ls[n - 1]);
    }
  }

  /** The lines of the assembled note: those carried over, then the printed ones. */
  lemma NoteLines(previous: string, row: Row, recorded: seq<Allocation>)
    requires ProperPeriod(row) && AllPrint(row, recorded)
    ensures var text, printed := Leftover(previous), LinesFor(row, recorded);
            Lines(Assemble(text, printed)) == Carried(text, printed) + printed
  {
    hide Leftover, Lines, LinesFor;
    LeftoverShape(previous);
    PrintedSingleLines(row, recorded);
    AssembledLines(Leftover(previous), LinesFor(row, recorded));
  }

  function Carried(text: string, printed: seq<string>): seq<string> {
    if text == "" && printed != [] then [] else Lines(text)
  }

  /** With no stray tag in what is carried over, printing succeeds exactly when every recorded
      allocation is acceptable and they do not exceed the booked quantity, ... */
  lemma NoteSucceeds(previous: string, row: Row, allocations: seq<Allocation>)
    requires ProperPeriod(row) && !IsTag(Leftover(previous))
    ensures Note(previous, row, allocations).Ok? <==>
              AllAcceptable(row, Recorded(row, allocations)) && SumQty(Recorded(row, allocations)) <= row.qty
    ensures Note(previous, row, allocations).Ok? ==>
              Allocations(row.(note := Note(previous, row, allocations).value)) == Ok(Recorded(row, allocations))
  {
    hide IsTag, Leftover, Lines, LinesFor, ReadLines, PrintLines, Recorded, Acceptable, PrintLine, Assemble;
    var recorded := Recorded(row, allocations);
    assert allocations[..|allocations|] == allocations;
    PrintLinesAre(row, allocations, |allocations|);
    RecordedAre(row, allocations);
    if AllPrint(row, recorded) {
      var text, printed := Leftover(previous), LinesFor(row, recorded);
      NoteLines(previous, row, recorded);
      LeftoverShape(previous);
      var carried := Carried(text, printed);
      var note := Assemble(text, printed);
      ReadUntagged(row, carried, |carried|);
      ReadConcat(row, carried, printed, |printed|);
      ReadPrinted(row, recorded);
      SameRead(row, note, Lines(note), |Lines(note)|);
      assert [] + recorded == recorded;
    } else {
      AcceptablePrints(row, recorded);
    }
  }

  lemma AcceptablePrints(row: Row, recorded: seq<Allocation>)
    ensures AllAcceptable(row, recorded) ==> AllPrint(row, recorded)
  {
    PolicyNamesAreFields();
  }

  /** ... and what is parsed back is exactly the recorded allocations, in order and quantity, iff the
      carried-over text does not itself begin with a tag. */
  lemma NoteRoundTrip(previous: string, row: Row, allocations: seq<Allocation>)
    requires ProperPeriod(row) && Note(previous, row, allocations).Ok?
    ensures var note := Note(previous, row, allocations).value;
            && Allocations(row.(note := note)).Ok?
            && (Allocations(row.(note := note)).value == Recorded(row, allocations) <==> !IsTag(Leftover(previous)))
  {
    hide IsTag, Leftover, Lines, LinesFor, ReadLines, PrintLines, Recorded, Acceptable, PrintLine, Assemble;
    var recorded := Recorded(row, allocations);
    if !IsTag(Leftover(previous)) {
      NoteSucceeds(previous, row, allocations);
    } else {
      assert allocations[..|allocations|] == allocations;
      PrintLinesAre(row, allocations, |allocations|);
      RecordedAre(row, allocations);
      var text, printed := Leftover(previous), LinesFor(row, recorded);
      NoteLines(previous, row, recorded);
      LeftoverShape(previous);
      EmptyIsNoTag();
      var note := Assemble(text, printed);
      ReadConcat(row, Lines(text), printed, |printed|);
      ReadPrinted(row, recorded);
      SameRead(row, note, Lines(note), |Lines(note)|);
      TaggedReadsSomething(row, Lines(text));
    }
  }

  lemma IndentTrimmed(line: string)
    requires line != [] && IsTag(line) && !IsSpace(line[|line| - 1])
    ensures Trim(" " + line) == line && !IsTag(" " + line)
  {
    assert EXTERNAL[0] == '[' && UPGRADED[0] == '[';
    assert line[0] == '[';
    assert (" " + line)[0] == ' ' && (" " + line)[1..] == line;
    hide IsTag;
    assert TrimLeft(line) == line;
  }

  lemma LineEnd(row: Row, a: Allocation)
    requires row.period != []
    ensures LineOf(row, a) != [] && LineOf(row, a)[|LineOf(row, a)| - 1] == row.period[|row.period| - 1]
  {
  }

  lemma LeftoverOfIndented(line: string)
    requires line != [] && IsTag(line) && !IsSpace(line[|line| - 1]) && SingleLine(line)
    ensures Leftover(" " + line) == line
  {
    IndentTrimmed(line);
    LinesSingle(" " + line);
    hide IsTag, Lines, Trim;
    assert Untagged([" " + line]) == [" " + line];
  }

  /** An indented tag line is no tag until the trim of the whole text strips its indent: the note
      printed for no allocation at all then carries one. */
  lemma IndentedTagComesAlive(row: Row, a: Allocation)
    requires ProperPeriod(row) && !IsSpace(row.period[|row.period| - 1])
    requires IsRecorded(row, a) && Acceptable(row, a) && a.qty <= row.qty
    ensures var previous := " " + LineOf(row, a);
            && Note(previous, row, []) == Ok(LineOf(row, a))
            && Allocations(row.(note := LineOf(row, a))) == Ok([a]) && Recorded(row, []) == []
  {
    hide ReadAllocation, IsRecorded, Acceptable, IsTag, LineOf, Trim, Lines, Leftover;
    var line := LineOf(row, a);
    PrintedLine(row, a);
    PrintedTag(row, a);
    OnePrints(row, a);
    OneSingleLine(row, a);
    LineEnd(row, a);
    LinesSingle(line);
    LeftoverOfIndented(line);
    ReadOne(row, line);
    hide ReadLines;
    SameRead(row, line, [line], 1);
    assert [a][..0] == [] && SumQty([a]) == a.qty;
    assert [line] + [] == [line] && line != "";
    assert Assemble(line, []) == line;
    assert PrintLines(row, [], 0) == Ok([]);
    assert Allocations(row.(note := line)) == Ok([a]);
  }

  lemma OnePrints(row: Row, a: Allocation)
    requires Acceptable(row, a)
    ensures PrintLine(row, a).Ok?
  {
    PolicyNamesAreFields();
  }

  lemma EmptyIsNoTag()
    ensures !IsTag("")
  {
  }

  lemma {:induction false} ReadGrows(row: Row, ls: seq<string>, m: nat, n: nat)
    requires m <= n <= |ls| && ReadLines(row, ls, n).Ok?
    ensures ReadLines(row, ls, m).Ok? && |ReadLines(row, ls, m).value| <= |ReadLines(row, ls, n).value|
  {
    hide ReadAllocation, IsTag;
    if m < n { ReadGrows(row, ls, m, n - 1); }
  }

  lemma TaggedReadsSomething(row: Row, ls: seq<string>)
    requires ls != [] && IsTag(ls[0]) && ReadLines(row, ls, |ls|).Ok?
    ensures |ReadLines(row, ls, |ls|).value| > 0
  {
    hide ReadAllocation, IsTag;
    ReadGrows(row, ls, 1, |ls|);
    assert ReadLines(row, ls, 0) == Ok([]);
  }

  // ---------------------------------------------------------------- printing again

  /** Each `\r\n` of the carried-over text shortened to `\n`. */
  function Shortened(text: string): string {
    Join(Lines(text))
  }

  ghost predicate NoCrLf(s: string) {
    forall i :: 0 <= i < |s| - 1 ==> !(s[i] == '\r' && s[i + 1] == '\n')
  }

  lemma CrLfAfter(s: string, i: nat)
    requires i < |s| && NoCrLf(s)
    ensures NoCrLf(s[i + 1..])
  {
    var rest := s[i + 1..];
    forall k | 0 <= k < |rest| - 1 ensures !(rest[k] == '\r' && rest[k + 1] == '\n') {
      assert rest[k] == s[i + 1 + k] && rest[k + 1] == s[i + 1 + k + 1];
    }
  }

  lemma CrLfJoined(s: string, i: nat)
    requires i < |s| && '\n' !in s[..i] && (i > 0 ==> s[i - 1] != '\r') && s[i] == '\n' && NoCrLf(s[i + 1..])
    ensures NoCrLf(s)
  {
    var rest := s[i + 1..];
    forall k | 0 <= k < |s| - 1 ensures !(s[k] == '\r' && s[k + 1] == '\n') {
      if k + 1 < i { assert s[k + 1] == s[..i][k + 1]; }
      if k > i { assert s[k] == rest[k - i - 1] && s[k + 1] == rest[k - i]; }
    }
  }

  lemma JoinCons(l: string, ls: seq<string>)
    requires ls != []
    ensures Join([l] + ls) == l + ("\n" + Join(ls))
  {
    assert ([l] + ls)[1..] == ls;
    assert Join([l] + ls) == l + "\n" + Join(ls);
  }

  lemma ShortenedStep(s: string)
    requires NewlineAt(s) < |s|
    ensures var i := NewlineAt(s);
            Shortened(s) == DropCr(s[..i]) + ("\n" + Shortened(s[i + 1..]))
  {
    hide DropCr, Join, NewlineAt;
    var i := NewlineAt(s);
    assert Lines(s) == [DropCr(s[..i])] + Lines(s[i + 1..]);
    hide Lines;
    JoinCons(DropCr(s[..i]), Lines(s[i + 1..]));
  }

  lemma {:induction false} ShortenedLength(s: string)
    ensures |Shortened(s)| <= |s|
    ensures Shortened(s) == s <==> NoCrLf(s)
    ensures Shortened(s) == s <==> |Shortened(s)| == |s|
    decreases |s|
  {
    var i := NewlineAt(s);
    if i == |s| {
      assert forall k :: 0 <= k < |s| ==> s[..i][k] == s[k] && s[..i][k] in s[..i];
    } else {
      ShortenedLength(s[i + 1..]);
      ShortenedStep(s);
      if NoCrLf(s) { CrLfAfter(s, i); }
      if NoCrLf(s[i + 1..]) && (i > 0 ==> s[i - 1] != '\r') { CrLfJoined(s, i); }
      if i > 0 { assert s[i - 1 + 1] == '\n'; }
      SameStep(s, i, Shortened(s), Shortened(s[i + 1..]));
    }
  }

  lemma SameStep(s: string, i: nat, r: string, tail: string)
    requires i < |s| && s[i] == '\n' && r == DropCr(s[..i]) + ("\n" + tail) && |tail| <= |s[i + 1..]|
    requires tail == s[i + 1..] <==> |tail| == |s[i + 1..]|
    ensures |r| <= |s|
    ensures r == s <==> tail == s[i + 1..] && (i > 0 ==> s[i - 1] != '\r')
    ensures r == s <==> |r| == |s|
  {
    assert s == s[..i] + ("\n" + s[i + 1..]);
    if tail == s[i + 1..] && (i > 0 ==> s[i - 1] != '\r') { assert r == s; }
  }

  lemma {:induction false} UntaggedConcat(a: seq<string>, b: seq<string>)
    ensures Untagged(a + b) == Untagged(a) + Untagged(b)
  {
    hide IsTag;
    if a == [] {
      assert a + b == b;
    } else {
      assert (a + b)[1..] == a[1..] + b;
      UntaggedConcat(a[1..], b);
    }
  }

  lemma {:induction false} UntaggedAll(ls: seq<string>, tagged: bool)
    requires forall l :: l in ls ==> (IsTag(l) <==> tagged)
    ensures Untagged(ls) == if tagged then [] else ls
  {
    hide IsTag;
    if ls != [] { UntaggedAll(ls[1..], tagged); }
  }

  lemma {:induction false} LinesForTagged(row: Row, recorded: seq<Allocation>)
    ensures forall l :: l in LinesFor(row, recorded) ==> IsTag(l)
  {
    hide IsTag, LineOf;
    if recorded != [] {
      LinesForTagged(row, recorded[..|recorded| - 1]);
      PrintedTag(row, recorded[|recorded| - 1]);
    }
  }

  lemma ShortenedEnds(s: string)
    requires s == "" || (!IsSpace(s[0]) && !IsSpace(s[|s| - 1]))
    ensures Trim(Shortened(s)) == Shortened(s) && (Shortened(s) == "" <==> s == "")
  {
    hide Trim;
    if s == "" {
      EmptyText();
    } else {
      ShortenedLast(s);
      ShortenedFirst(s);
      hide Shortened;
      TrimIdle(Shortened(s));
    }
  }

  lemma ShortenedFirst(s: string)
    requires s != "" && !IsSpace(s[0])
    ensures Shortened(s) != "" && Shortened(s)[0] == s[0]
  {
    var i := NewlineAt(s);
    if i < |s| {
      ShortenedStep(s);
      hide Shortened;
      assert s[..i][0] == s[0] != '\r';
    }
  }

  lemma {:induction false} ShortenedLast(s: string)
    ensures s != "" && s[|s| - 1] != '\n' ==> Shortened(s) != "" && Shortened(s)[|Shortened(s)| - 1] == s[|s| - 1]
    decreases |s|
  {
    hide DropCr;
    var i := NewlineAt(s);
    if i < |s| {
      hide Shortened;
      var rest := s[i + 1..];
      ShortenedLast(rest);
      ShortenedStep(s);
      if s[|s| - 1] != '\n' { assert rest != "" && rest[|rest| - 1] == s[|s| - 1]; }
    }
  }

  /** Reprinting keeps every other line of the note and, apart from carriage returns before a line
      break, its text. */
  lemma LeftoverOfNote(previous: string, row: Row, recorded: seq<Allocation>)
    requires ProperPeriod(row) && AllPrint(row, recorded) && !IsTag(Leftover(previous))
    ensures var text := Leftover(previous); var note := Assemble(text, LinesFor(row, recorded));
            && Untagged(Lines(note)) == Carried(text, LinesFor(row, recorded))
            && Leftover(note) == Shortened(text)
  {
    hide IsTag, Lines, Untagged, Trim, LinesFor, Assemble;
    var text, printed := Leftover(previous), LinesFor(row, recorded);
    NoteLines(previous, row, recorded);
    LeftoverShape(previous);
    var carried := Carried(text, printed);
    UntaggedConcat(carried, printed);
    LinesForTagged(row, recorded);
    UntaggedAll(printed, true);
    UntaggedAll(carried, false);
    assert carried + [] == carried;
    LeftoverTrimmed(previous);
    ShortenedEnds(text);
    if carried == [] { EmptyText(); }
  }

  lemma LeftoverTrimmed(previous: string)
    ensures var s := Leftover(previous); s == "" || (!IsSpace(s[0]) && !IsSpace(s[|s| - 1]))
  {
    hide Lines, Untagged, Join;
  }

  lemma EmptyText()
    ensures Trim(Join([])) == "" && Shortened("") == ""
  {
  }

  /** Reprinting the same allocations leaves the note alone iff the carried-over text has no `\r\n`. */
  lemma ReprintIsIdempotent(previous: string, row: Row, allocations: seq<Allocation>)
    requires ProperPeriod(row) && Note(previous, row, allocations).Ok? && !IsTag(Leftover(previous))
    ensures var note := Note(previous, row, allocations).value;
            && (Note(note, row, allocations) == Ok(note) <==> NoCrLf(Leftover(previous)))
            && Note(note, row, allocations).Ok?
  {
    hide IsTag, Leftover, Lines, LinesFor, ReadLines, PrintLines, Recorded, Acceptable, PrintLine, Shortened;
    var recorded, text := Recorded(row, allocations), Leftover(previous);
    assert allocations[..|allocations|] == allocations;
    PrintLinesAre(row, allocations, |allocations|);
    var printed := LinesFor(row, recorded);
    var note := Assemble(text, printed);
    LeftoverOfNote(previous, row, recorded);
    ShortenedLength(text);
    LeftoverTrimmed(previous);
    ShortenedEnds(text);
    ShortenedTag(text);
    LeftoverShape(previous);
    NoteSucceeds(previous, row, allocations);
    NoteSucceeds(note, row, allocations);
    AssembleLength(text, printed);
    AssembleLength(Shortened(text), printed);
    hide Assemble;
    assert Note(previous, row, allocations) == Ok(note);
    assert Note(note, row, allocations) == Ok(Assemble(Shortened(text), printed));
  }

  lemma ShortenedTag(text: string)
    ensures IsTag(Shortened(text)) <==> IsTag(text)
  {
    TagInFirstLine(text);
    LinesHaveNoNewline(text);
    JoinTag(Lines(text));
  }

  lemma AssembleLength(text: string, printed: seq<string>)
    ensures |Assemble(text, printed)| == |text| + |Join(printed)| + if text == "" || printed == [] then 0 else 1
  {
    if text == "" {
      assert [] + printed == printed;
    } else {
      assert ([text] + printed)[1..] == printed;
    }
  }

  // ---------------------------------------------------------------- the physical rows of a booking

  datatype PhysicalRow = PhysicalRow(equipment: string, qty: nat)

  function OwnRows(parts: seq<Allocation>): seq<PhysicalRow> {
    if parts == [] then []
    else
      var a := parts[|parts| - 1];
      OwnRows(parts[..|parts| - 1]) + if a.Own? then [PhysicalRow(a.name, a.qty)] else []
  }

  function ExternalQty(parts: seq<Allocation>): nat {
    if parts == [] then 0
    else ExternalQty(parts[..|parts| - 1]) + if parts[|parts| - 1].External? then parts[|parts| - 1].qty else 0
  }

  function TotalQty(rows: seq<PhysicalRow>): nat {
    if rows == [] then 0 else TotalQty(rows[..|rows| - 1]) + rows[|rows| - 1].qty
  }

  lemma {:induction false} TotalFirst(row: PhysicalRow, rows: seq<PhysicalRow>)
    ensures TotalQty([row] + rows) == row.qty + TotalQty(rows)
  {
    if rows == [] {
      assert ([row] + rows)[..0] == [];
    } else {
      assert ([row] + rows)[..|rows|] == [row] + rows[..|rows| - 1];
      TotalFirst(row, rows[..|rows| - 1]);
    }
  }

  lemma {:induction false} OwnRowsTotal(parts: seq<Allocation>)
    ensures TotalQty(OwnRows(parts)) + ExternalQty(parts) == SumQty(parts)
  {
    if parts != [] {
      var rest, a := parts[..|parts| - 1], parts[|parts| - 1];
      OwnRowsTotal(rest);
      if a.Own? {
        assert OwnRows(parts)[..|OwnRows(parts)| - 1] == OwnRows(rest);
      } else {
        assert OwnRows(parts) == OwnRows(rest);
      }
    }
  }

  /** The stock a booking really occupies: its own remainder first, then each upgraded part; together
      exactly the booked quantity minus what is supplied from outside. */
  method PhysicalRows(row: Row) returns (out: Result<seq<PhysicalRow>>)
    ensures out.Ok? <==> Allocations(row).Ok?
    ensures out.Err? ==> Allocations(row) == Err(out.fault)
    ensures out.Ok? && row.qty > SumQty(Allocations(row).value) ==> out.value != []
    ensures out.Ok? ==>
              var parts := Allocations(row).value;
              && ExternalQty(parts) <= row.qty
              && TotalQty(out.value) == row.qty - ExternalQty(parts)
              && OwnRows(parts) == (if row.qty > SumQty(parts) then out.value[1..] else out.value)
              && (row.qty > SumQty(parts) ==> out.value[0] == PhysicalRow(row.equipment, row.qty - SumQty(parts)))
  {
    hide Allocations;
    var read := ReadNote(row);
    if read.Err? { return Err(read.fault); }
    var parts := read.value;
    var used: nat, rows: seq<PhysicalRow> := 0, [];
    for i := 0 to |parts|
      invariant used == SumQty(parts[..i]) && rows == OwnRows(parts[..i])
    {
      assert parts[..i + 1][..i] == parts[..i];
      used := used + parts[i].qty;
      if parts[i].Own? { rows := rows + [PhysicalRow(parts[i].name, parts[i].qty)]; }
    }
    assert parts[..|parts|] == parts;
    OwnRowsTotal(parts);
    SumWithinQty(row);
    if row.qty > used {
      TotalFirst(PhysicalRow(row.equipment, row.qty - used), rows);
      ghost var own := rows;
      rows := [PhysicalRow(row.equipment, row.qty - used)] + rows;
      assert rows[1..] == own;
    }
    return Ok(rows);
  }

  lemma SumWithinQty(row: Row)
    ensures Allocations(row).Ok? ==> SumQty(Allocations(row).value) <= row.qty
  {
  }
}
