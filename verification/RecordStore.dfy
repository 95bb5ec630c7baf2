/** The two-layer operational record store and its migration (operationalPropertyStorage.js): a legacy property map
    in front of one sheet a record group. A key says which group its text belongs to, if any. */
module RecordStore {

  import opened Basics

  const BATCH := 150
  const READY_DELAY := 420000
  const EXECUTION := 360000
  const PHOTO_LIFE := 86400000

  datatype Group = Inventory | Photos | Receipts

  const GROUPS := [Inventory, Photos, Receipts]

  datatype Key = Record(group: Group, name: string) | Other(name: string)

  datatype Row = Row(key: Key, cell: string)

  /** What is stored; `readyAt` is the activation time of the sheets once they have been prepared. */
  datatype State = State(legacy: map<Key, string>, sheets: map<Group, seq<Row>>, readyAt: Option<nat>)

  // ---------------------------------------------------------------- cells and rows

  function Encode(value: Option<string>): string {
    if value.None? then "" else "v:" + value.value
  }

  datatype Decoded = Invalid | Decoded(value: Option<string>)

  function Decode(cell: string): Decoded {
    if cell == "" then Decoded(None)
    else if |cell| < 2 || cell[..2] != "v:" then Invalid
    else Decoded(Some(cell[2..]))
  }

  /** Even the empty text survives the trip, apart from a deleted record. */
  lemma DecodeEncode(value: Option<string>)
    ensures Decode(Encode(value)) == Decoded(value)
  {
    if value.Some? {
      assert ("v:" + value.value)[..2] == "v:";
      assert ("v:" + value.value)[2..] == value.value;
    }
  }

  /** And nothing else decodes. */
  lemma OnlyEncodedDecode(cell: string)
    ensures Decode(cell).Decoded? <==> exists value :: cell == Encode(value)
  {
    if Decode(cell).Decoded? {
      assert cell == "" || cell == cell[..2] + cell[2..];
      assert cell == Encode(Decode(cell).value);
    }
    if exists value :: cell == Encode(value) {
      var value :| cell == Encode(value);
      DecodeEncode(value);
    }
  }

  ghost predicate WellFormed(rows: seq<Row>, group: Group) {
    && (forall i :: 0 <= i < |rows| ==>
          rows[i].key.Record? && rows[i].key.group == group && Decode(rows[i].cell).Decoded?)
    && (forall i, j :: 0 <= i < j < |rows| ==> rows[i].key != rows[j].key)
  }

  /** What a sheet says of a key: nothing, or the decoded cell of its row. */
  function SheetValue(rows: seq<Row>, key: Key): Option<string> {
    if rows == [] then None
    else
      var last := rows[|rows| - 1];
      if last.key == key then (if Decode(last.cell).Decoded? then Decode(last.cell).value else None)
      else SheetValue(rows[..|rows| - 1], key)
  }

  predicate HasRow(rows: seq<Row>, key: Key) {
    exists i :: 0 <= i < |rows| && rows[i].key == key
  }

  lemma {:induction false} ValueOfRow(rows: seq<Row>, group: Group, i: nat)
    requires WellFormed(rows, group) && i < |rows|
    ensures SheetValue(rows, rows[i].key) == Decode(rows[i].cell).value
    decreases |rows|
  {
    if i == |rows| - 1 {
    } else {
      var init := rows[..|rows| - 1];
      assert rows[i].key != rows[|rows| - 1].key;
      ValueOfRow(init, group, i);
      assert init[i] == rows[i];
    }
  }

  lemma {:induction false} ValueWithoutRow(rows: seq<Row>, key: Key)
    requires !HasRow(rows, key)
    ensures SheetValue(rows, key) == None
    decreases |rows|
  {
    if rows == [] {
    } else {
      var init := rows[..|rows| - 1];
      assert rows[|rows| - 1].key != key;
      assert forall i :: 0 <= i < |init| ==> init[i].key == rows[i].key;
      ValueWithoutRow(init, key);
    }
  }

  /** Overwriting the row of a key changes what the sheet says of that key and of no other. */
  lemma {:induction false} ValueAfterWrite(rows: seq<Row>, group: Group, i: nat, value: Option<string>, other: Key)
    requires WellFormed(rows, group) && i < |rows|
    ensures var after := rows[i := Row(rows[i].key, Encode(value))];
      WellFormed(after, group)
      && SheetValue(after, other) == if other == rows[i].key then value else SheetValue(rows, other)
  {
    var after := rows[i := Row(rows[i].key, Encode(value))];
    DecodeEncode(value);
    assert WellFormed(after, group);
    if HasRow(rows, other) {
      var j :| 0 <= j < |rows| && rows[j].key == other;
      assert after[j].key == other;
      ValueOfRow(rows, group, j);
      ValueOfRow(after, group, j);
    } else {
      assert forall j :: 0 <= j < |after| ==> after[j].key == rows[j].key;
      ValueWithoutRow(rows, other);
      ValueWithoutRow(after, other);
      assert rows[i].key != other;
    }
  }

  lemma ValueAfterAppend(rows: seq<Row>, group: Group, key: Key, value: Option<string>, other: Key)
    requires WellFormed(rows, group) && key.Record? && key.group == group && !HasRow(rows, key)
    ensures var after := rows + [Row(key, Encode(value))];
      WellFormed(after, group) && SheetValue(after, other) == if other == key then value else SheetValue(rows, other)
  {
    var after := rows + [Row(key, Encode(value))];
    DecodeEncode(value);
    assert after[..|after| - 1] == rows;
    forall i, j | 0 <= i < j < |after|
      ensures after[i].key != after[j].key
    {
      assert after[i] == rows[i];
    }
  }

  // ---------------------------------------------------------------- the records a state stands for

  function SheetTruth(s: State, key: Key): Option<string> {
    if key.Record? && key.group in s.sheets then SheetValue(s.sheets[key.group], key) else None
  }

  /** The value of a record: the legacy layer is authoritative, then the sheet of its group. */
  function Truth(s: State, key: Key): Option<string> {
    if key in s.legacy then Some(s.legacy[key]) else SheetTruth(s, key)
  }

  predicate Ready(s: State, now: nat) {
    s.readyAt.Some? && now >= s.readyAt.value
  }

  /** Rows are well formed, and there are none before the sheets are ready. */
  ghost predicate Sound(s: State, now: nat) {
    && (forall g :: g in s.sheets ==> WellFormed(s.sheets[g], g))
    && (s.readyAt.Some? ==> forall g :: g in s.sheets)
    && (!Ready(s, now) ==> forall g :: g in s.sheets ==> s.sheets[g] == [])
  }

  predicate Stale(age: string -> Option<nat>, value: string, now: nat) {
    age(value).None? || now > age(value).value + PHOTO_LIFE
  }

  /** `getProperty` of the store of one group; `age` is the upload time a photo record carries. */
  function Read(s: State, group: Group, now: nat, key: Key, age: string -> Option<nat>): Option<string> {
    if key in s.legacy then Some(s.legacy[key])
    else if !(key.Record? && key.group == group) || !Ready(s, now) || group !in s.sheets then None
    else
      var value := SheetValue(s.sheets[group], key);
      if group == Photos && value.Some? && Stale(age, value.value, now) then None else value
  }

  /** Reading a record gives its value, whenever it is read; crossing `readyAt` changes nothing. */
  lemma ReadIsTruth(s: State, clock: nat, group: Group, now: nat, key: Key, age: string -> Option<nat>)
    requires Sound(s, clock) && now >= clock && group != Photos
    requires key.Other? || key.group == group
    ensures Read(s, group, now, key, age) == Truth(s, key)
  {
    if key.Record? && key !in s.legacy && !Ready(s, now) && group in s.sheets {
      assert s.sheets[group] == [];
    }
  }

  /** A photo reads as stored exactly unless its only copy is a sheet row past its 24 hours. */
  lemma PhotoReadsUnlessExpired(s: State, clock: nat, now: nat, key: Key, age: string -> Option<nat>)
    requires Sound(s, clock) && now >= clock && key.Record? && key.group == Photos
    ensures Read(s, Photos, now, key, age) == Truth(s, key) <==>
            !(key !in s.legacy && Truth(s, key).Some?
              && match age(Truth(s, key).value) case None => true case Some(taken) => taken + PHOTO_LIFE < now)
  {
    if key !in s.legacy && !Ready(s, now) && Photos in s.sheets {
      assert s.sheets[Photos] == [];
    }
  }

  /** An execution that saw no sheets, and so reads only the legacy layer, is over before it could miss a record. */
  lemma OldExecutionsReadRight(s: State, prepared: nat, now: nat, key: Key)
    requires Sound(s, now) && s.readyAt == Some(prepared + READY_DELAY) && now <= prepared + EXECUTION
    ensures Truth(s, key) == if key in s.legacy then Some(s.legacy[key]) else None
  {
    if key.Record? && key !in s.legacy {
      assert s.sheets[key.group] == [];
    }
  }

  // ---------------------------------------------------------------- the store

  ghost predicate SameElsewhere(s: State, t: State, key: Key) {
    forall k :: k != key ==> Truth(s, k) == Truth(t, k)
  }

  ghost predicate SameRecords(s: State, t: State) {
    forall k :: Truth(s, k) == Truth(t, k)
  }

  ghost predicate RowWritten(s: State, t: State, key: Key, value: Option<string>) {
    && t.legacy == s.legacy && t.readyAt == s.readyAt && t.sheets.Keys == s.sheets.Keys
    && SheetTruth(t, key) == value
    && forall k :: k != key ==> SheetTruth(t, k) == SheetTruth(s, k)
  }

  lemma SetLegacyKeeps(s: State, now: nat, key: Key, value: string)
    requires Sound(s, now)
    ensures var t := s.(legacy := s.legacy[key := value]);
      Sound(t, now) && SameElsewhere(s, t, key) && Truth(t, key) == Some(value)
  {
    hide SheetTruth, WellFormed;
    var t := s.(legacy := s.legacy[key := value]);
    forall k
      ensures SheetTruth(t, k) == SheetTruth(s, k)
    {
      SheetTruthOnly(s, t, k);
    }
  }

  lemma DeleteLegacyKeeps(s: State, now: nat, key: Key)
    requires Sound(s, now)
    ensures var t := s.(legacy := s.legacy - {key});
      Sound(t, now) && SameElsewhere(s, t, key) && Truth(t, key) == SheetTruth(s, key)
  {
    hide SheetTruth, WellFormed;
    var t := s.(legacy := s.legacy - {key});
    forall k
      ensures SheetTruth(t, k) == SheetTruth(s, k)
    {
      SheetTruthOnly(s, t, k);
    }
  }

  lemma SheetTruthOnly(s: State, t: State, key: Key)
    requires s.sheets == t.sheets
    ensures SheetTruth(s, key) == SheetTruth(t, key)
  {
  }

  lemma RowWrittenKeeps(s: State, t: State, key: Key, value: Option<string>)
    requires RowWritten(s, t, key, value)
    ensures SameElsewhere(s, t, key) && SheetTruth(t, key) == value
    ensures Truth(t, key) == if key in s.legacy then Some(s.legacy[key]) else value
  {
    hide SheetTruth;
  }

  lemma NoRowBeforeReady(s: State, group: Group, now: nat, key: Key)
    requires Sound(s, now)
    requires key.Other? || (key.group == group && !Ready(s, now))
    ensures SheetTruth(s, key) == None
  {
  }

  lemma NoRowNoTruth(s: State, group: Group, key: Key)
    requires key.Record? && key.group == group && group in s.sheets && !HasRow(s.sheets[group], key)
    ensures SheetTruth(s, key) == None
  {
    ValueWithoutRow(s.sheets[group], key);
  }

  /** What the bulk read of one group lists for a key. */
  function Listed(s: State, group: Group, key: Key): Option<string> {
    if key in s.legacy then Some(s.legacy[key])
    else if key.Record? && key.group == group then SheetTruth(s, key)
    else None
  }

  /** The bulk read agrees with the single read, key by key. */
  lemma BulkIsSingle(s: State, clock: nat, group: Group, now: nat, key: Key, age: string -> Option<nat>)
    requires Sound(s, clock) && now >= clock && group != Photos
    ensures Listed(s, group, key) == Read(s, group, now, key, age)
  {
    if key.Record? && key.group == group && !Ready(s, now) && group in s.sheets {
      assert s.sheets[group] == [];
    }
  }

  lemma RowsDecode(rows: seq<Row>, group: Group)
    requires WellFormed(rows, group)
    ensures forall i :: 0 <= i < |rows| ==> Decode(rows[i].cell).Decoded?
  {
  }

  lemma NoRowsNoValue(rows: seq<Row>)
    ensures forall k :: SheetValue(rows[..0], k) == None
  {
  }

  /** A further row gives its own key a value it did not have, and no other key. */
  lemma NextRow(rows: seq<Row>, group: Group, i: nat)
    requires WellFormed(rows, group) && i < |rows|
    ensures SheetValue(rows[..i], rows[i].key) == None
    ensures forall k :: SheetValue(rows[..i + 1], k)
                        == if k == rows[i].key then Decode(rows[i].cell).value else SheetValue(rows[..i], k)
  {
    ValueWithoutRow(rows[..i], rows[i].key);
    assert rows[..i + 1][..i] == rows[..i];
  }

  lemma OtherGroupsNoValue(rows: seq<Row>, group: Group, k: Key)
    requires WellFormed(rows, group)
    ensures !(k.Record? && k.group == group) ==> SheetValue(rows, k) == None
  {
    if !(k.Record? && k.group == group) { ValueWithoutRow(rows, k); }
  }

  predicate InGroup(key: Key, group: Group) {
    key.Record? && key.group == group
  }

  lemma LaterSound(s: State, clock: nat, now: nat)
    requires Sound(s, clock) && now >= clock
    ensures Sound(s, now)
  {
  }

  /** Exactly the done keys have their new values. */
  ghost predicate Changed(was: State, t: State, values: map<Key, string>, done: set<Key>) {
    forall k :: Truth(t, k) == if k in done && k in values then Some(values[k]) else Truth(was, k)
  }

  ghost predicate Partial(was: State, t: State, values: map<Key, string>, now: nat) {
    Sound(t, now) && forall k :: Truth(t, k) == Truth(was, k) || (k in values && Truth(t, k) == Some(values[k]))
  }

  lemma OneMoreChanged(was: State, s: State, t: State, values: map<Key, string>, done: set<Key>, key: Key)
    requires Changed(was, s, values, done) && key in values
    requires SameElsewhere(s, t, key) && Truth(t, key) == Some(values[key])
    ensures Changed(was, t, values, done + {key})
  {
    hide Truth;
  }

  lemma ChangedOnTheWay(was: State, s: State, t: State, values: map<Key, string>, done: set<Key>, key: Key, now: nat)
    requires Changed(was, s, values, done) && key in values
    requires Sound(t, now) && SameElsewhere(s, t, key) && Truth(t, key) in [Truth(s, key), Some(values[key])]
    ensures Partial(was, t, values, now)
  {
    hide Truth, Sound;
  }

  lemma ChangedAll(was: State, t: State, values: map<Key, string>, done: set<Key>)
    requires Changed(was, t, values, done) && forall k :: k in values ==> k in done
    ensures forall k :: Truth(t, k) == if k in values then Some(values[k]) else Truth(was, k)
  {
    hide Truth;
  }

  ghost predicate Distinct(keys: seq<Key>) {
    forall i, j :: 0 <= i < j < |keys| ==> keys[i] != keys[j]
  }

  lemma SameKeys(rows: seq<Row>, after: seq<Row>, key: Key)
    requires |rows| <= |after| <= |rows| + 1 && forall i :: 0 <= i < |rows| ==> after[i].key == rows[i].key
    requires if |after| == |rows| then HasRow(rows, key) else after[|rows|].key == key
    ensures forall k :: HasRow(after, k) <==> k == key || HasRow(rows, k)
  {
    forall k
      ensures HasRow(after, k) <==> k == key || HasRow(rows, k)
    {
      if k == key && |after| > |rows| { assert after[|rows|].key == k; }
      if HasRow(rows, k) {
        var i :| 0 <= i < |rows| && rows[i].key == k;
        assert after[i].key == k;
      }
    }
  }

  function Written(rows: seq<Row>, row: Option<nat>, key: Key, value: Option<string>): seq<Row>
    requires row.Some? ==> row.value < |rows|
  {
    if row.Some? then rows[row.value := Row(key, Encode(value))] else rows + [Row(key, Encode(value))]
  }

  predicate Fits(rows: seq<Row>, row: Option<nat>, key: Key) {
    if row.Some? then row.value < |rows| && rows[row.value].key == key else !HasRow(rows, key)
  }

  lemma FitsHas(rows: seq<Row>, row: Option<nat>, key: Key)
    requires Fits(rows, row, key)
    ensures row.Some? <==> HasRow(rows, key)
  {
  }

  lemma WrittenRows(rows: seq<Row>, group: Group, row: Option<nat>, key: Key, value: Option<string>)
    requires WellFormed(rows, group) && InGroup(key, group) && Fits(rows, row, key)
    ensures var after := Written(rows, row, key, value);
      && WellFormed(after, group)
      && (forall k :: SheetValue(after, k) == if k == key then value else SheetValue(rows, k))
      && (forall k :: HasRow(after, k) <==> k == key || HasRow(rows, k))
  {
    var after := Written(rows, row, key, value);
    forall k
      ensures WellFormed(after, group)
      ensures SheetValue(after, k) == if k == key then value else SheetValue(rows, k)
    {
      if row.Some? {
        ValueAfterWrite(rows, group, row.value, value, k);
      } else {
        ValueAfterAppend(rows, group, key, value, k);
      }
    }
    SameKeys(rows, after, key);
  }

  lemma WriteKeeps(s: State, now: nat, group: Group, row: Option<nat>, key: Key, value: Option<string>)
    requires Sound(s, now) && Ready(s, now) && InGroup(key, group) && group in s.sheets
    requires Fits(s.sheets[group], row, key)
    ensures var after := Written(s.sheets[group], row, key, value);
      var t := s.(sheets := s.sheets[group := after]);
      && Sound(t, now) && RowWritten(s, t, key, value)
      && forall k :: HasRow(after, k) <==> k == key || HasRow(s.sheets[group], k)
  {
    hide SheetValue, WellFormed, HasRow, Encode, Written;
    WrittenRows(s.sheets[group], group, row, key, value);
  }

  /** A copy of the legacy value is in the sheet. */
  predicate Copied(s: State, key: Key) {
    key in s.legacy && SheetTruth(s, key) == Some(s.legacy[key])
  }

  lemma CopyKeeps(s: State, t: State, key: Key)
    requires key in s.legacy && RowWritten(s, t, key, Some(s.legacy[key]))
    ensures SameRecords(s, t) && Copied(t, key)
    ensures forall k :: Copied(s, k) ==> Copied(t, k)
  {
    hide SheetTruth;
    RowWrittenKeeps(s, t, key, Some(s.legacy[key]));
  }

  lemma AlreadyCopied(s: State, now: nat, group: Group, i: nat)
    requires Sound(s, now) && group in s.sheets && i < |s.sheets[group]|
    requires var row := s.sheets[group][i]; row.key in s.legacy && Decode(row.cell) == Decoded(Some(s.legacy[row.key]))
    ensures Copied(s, s.sheets[group][i].key)
  {
    ValueOfRow(s.sheets[group], group, i);
  }

  lemma EveryGroup(group: Group)
    ensures group in GROUPS
  {
    match group
    case Inventory => assert GROUPS[0] == group;
    case Photos => assert GROUPS[1] == group;
    case Receipts => assert GROUPS[2] == group;
  }

  function Records(legacy: map<Key, string>): map<Key, string> {
    map k | k in legacy && k.Record? :: legacy[k]
  }

  /** The keys of one group, in their order. */
  function InOrder(keys: seq<Key>, group: Group): seq<Key> {
    if keys == [] then []
    else if InGroup(keys[0], group) then [keys[0]] + InOrder(keys[1..], group)
    else InOrder(keys[1..], group)
  }

  lemma {:induction false} InOrderIs(keys: seq<Key>, group: Group)
    requires Distinct(keys)
    ensures Distinct(InOrder(keys, group))
    ensures forall k :: k in InOrder(keys, group) <==> k in keys && InGroup(k, group)
  {
    if keys == [] {
    } else {
      InOrderIs(keys[1..], group);
      assert keys == [keys[0]] + keys[1..];
      assert keys[0] !in keys[1..];
    }
  }

  lemma SheetsReady(s: State, now: nat, group: Group)
    requires Sound(s, now) && Ready(s, now)
    ensures group in s.sheets
  {
  }

  /** Removing a legacy value whose copy is in the sheet changes no record. */
  lemma RemovalKeeps(s: State, now: nat, key: Key)
    requires Sound(s, now) && Copied(s, key)
    ensures var t := s.(legacy := s.legacy - {key});
      Sound(t, now) && SameRecords(s, t) && forall k :: k != key && Copied(s, k) ==> Copied(t, k)
  {
    hide SheetTruth;
    DeleteLegacyKeeps(s, now, key);
    var t := s.(legacy := s.legacy - {key});
    forall k
      ensures SheetTruth(s, k) == SheetTruth(t, k)
    {
      SheetTruthOnly(s, t, k);
    }
  }

  /** Every state since the trail was `past` is sound and holds the same records. */
  ghost predicate HeldSince(was: State, past: seq<State>, trail: seq<State>, now: nat) {
    && past <= trail
    && forall i :: |past| <= i < |trail| ==> Sound(trail[i], now) && SameRecords(was, trail[i])
  }

  lemma HeldStart(was: State, past: seq<State>, now: nat)
    ensures SameRecords(was, was) && HeldSince(was, past, past, now)
  {
  }

  lemma HeldOn(was: State, mid: State, past: seq<State>, middle: seq<State>, last: seq<State>, now: nat)
    requires HeldSince(was, past, middle, now) && SameRecords(was, mid) && HeldSince(mid, middle, last, now)
    ensures HeldSince(was, past, last, now)
  {
    hide Truth, Sound;
    forall i | |past| <= i < |last|
      ensures Sound(last[i], now) && SameRecords(was, last[i])
    {
      if i < |middle| { assert last[i] == middle[i]; }
    }
  }

  /** What a record reads as after it was set, or deleted, through the store of one group. */
  function Outcome(s: State, group: Group, key: Key, value: Option<string>): Option<string> {
    if value.Some? || key.Other? || key.group == group then value else SheetTruth(s, key)
  }

  /** `trail` keeps every state since the start, one a write: where a crash may leave the store. */
  class Store {
    var legacy: map<Key, string>
    var sheets: map<Group, seq<Row>>
    var readyAt: Option<nat>
    ghost var clock: nat
    ghost var trail: seq<State>

    ghost function View(): State
      reads this
    {
      State(legacy, sheets, readyAt)
    }

    ghost predicate Valid()
      reads this
    {
      Sound(View(), clock)
    }

    method SetLegacy(key: Key, value: string)
      modifies this`legacy, this`trail
      ensures View() == old(View()).(legacy := old(legacy)[key := value]) && trail == old(trail) + [View()]
    {
      legacy := legacy[key := value];
      trail := trail + [View()];
    }

    method DeleteLegacy(key: Key)
      modifies this`legacy, this`trail
      ensures View() == old(View()).(legacy := old(legacy) - {key}) && trail == old(trail) + [View()]
    {
      legacy := legacy - {key};
      trail := trail + [View()];
    }

    /** The row of a key: row numbers start after the header, none is an empty answer. */
    method FindRow(group: Group, key: Key) returns (row: Option<nat>)
      requires group in sheets
      ensures Fits(sheets[group], row, key)
    {
      var i := 0;
      while i < |sheets[group]|
        invariant 0 <= i <= |sheets[group]|
        invariant forall j :: 0 <= j < i ==> sheets[group][j].key != key
      {
        if sheets[group][i].key == key { return Some(i); }
        i := i + 1;
      }
      return None;
    }

    /** One row is written, over the given one or at the end. */
    method WriteRow(group: Group, row: Option<nat>, key: Key, value: Option<string>)
      requires Valid() && Ready(View(), clock) && key.Record? && key.group == group && group in sheets
      requires Fits(sheets[group], row, key)
      modifies this`sheets, this`trail
      ensures Valid() && trail == old(trail) + [View()]
      ensures RowWritten(old(View()), View(), key, value)
      ensures forall g :: g in sheets && g != group ==> sheets[g] == old(sheets)[g]
      ensures forall k :: HasRow(sheets[group], k) <==> k == key || HasRow(old(sheets)[group], k)
    {
      hide Sound, RowWritten, HasRow, Encode;
      WriteKeeps(View(), clock, group, row, key, value);
      var line := Row(key, Encode(value));
      var rows := if row.Some? then sheets[group][row.value := line] else sheets[group] + [line];
      sheets := sheets[group := rows];
      assert sheets[group] == rows;
      trail := trail + [View()];
    }

    /** The states one call may leave behind: sound, one key old or new, all others untouched. */
    ghost predicate Atomic(was: State, from: nat, key: Key, value: Option<string>)
      reads this
    {
      from <= |trail| &&
      forall i :: from <= i < |trail| ==>
        Sound(trail[i], clock) && SameElsewhere(was, trail[i], key) && Truth(trail[i], key) in [Truth(was, key), value]
    }

    /** The last part of `change`: the sheet first, then for a deletion the legacy value. */
    method ChangeSheet(group: Group, key: Key, value: Option<string>)
      requires Valid() && Ready(View(), clock) && key.Record? && key.group == group && group in sheets
      requires value.Some? ==> key !in legacy
      modifies this`legacy, this`sheets, this`trail
      ensures Valid() && SameElsewhere(old(View()), View(), key) && Truth(View(), key) == value
      ensures |old(trail)| <= |trail| && trail[..|old(trail)|] == old(trail)
      ensures Atomic(old(View()), |old(trail)|, key, value)
      ensures value.None? && !HasRow(old(sheets)[group], key) ==> sheets == old(sheets)
    {
      hide SheetTruth, SheetValue, WellFormed, HasRow, Encode, RowWritten;
      ghost var was := View();
      var row := FindRow(group, key);
      assert row.Some? ==> HasRow(sheets[group], key) by { FitsHas(sheets[group], row, key); }
      if row.Some? || value.Some? {
        WriteRow(group, row, key, value);
        RowWrittenKeeps(was, View(), key, value);
      } else {
        NoRowNoTruth(was, group, key);
      }
      if value.None? {
        DeleteLegacyKeeps(View(), clock, key);
        DeleteLegacy(key);
      }
    }

    /** `change`: one record is set, or deleted when there is no value. Deleting a record through the store of another
        group only removes its legacy value. */
    method Change(group: Group, key: Key, value: Option<string>, now: nat)
      requires Valid() && now >= clock
      modifies this
      ensures Valid() && clock == now && readyAt == old(readyAt)
      ensures SameElsewhere(old(View()), View(), key) && Truth(View(), key) == Outcome(old(View()), group, key, value)
      ensures |old(trail)| <= |trail| && trail[..|old(trail)|] == old(trail)
      ensures Atomic(old(View()), |old(trail)|, key, Outcome(old(View()), group, key, value))
      ensures value.Some? || key.Other? || key.group == group ==> Truth(View(), key) == value
      ensures value.None? && key.Record? && key.group != group ==>
                key !in legacy && Truth(View(), key) == SheetTruth(old(View()), key)
    {
      hide SheetTruth, SheetValue, WellFormed, HasRow, Encode, RowWritten;
      clock := now;
      ghost var was := View();
      if !(key.Record? && key.group == group) || readyAt.None? || now < readyAt.value {
        if value.None? {
          DeleteLegacyKeeps(was, now, key);
          if key.Other? || key.group == group { NoRowBeforeReady(was, group, now, key); }
          DeleteLegacy(key);
        } else {
          SetLegacyKeeps(was, now, key, value.value);
          SetLegacy(key, value.value);
        }
        return;
      }
      if value.Some? && key in legacy {
        SetLegacyKeeps(was, now, key, value.value);
        SetLegacy(key, value.value);
        return;
      }
      ChangeSheet(group, key, value);
    }

    /** `getProperties`: all of the legacy layer, and the live rows of the group that it does not hold. */
    method GetProperties(group: Group, now: nat) returns (all: map<Key, string>)
      requires Valid() && now >= clock
      ensures forall k :: (if k in all then Some(all[k]) else None) == Listed(View(), group, k)
    {
      all := legacy;
      if readyAt.None? || now < readyAt.value {
        assert group in sheets ==> sheets[group] == [];
        return;
      }
      var rows := sheets[group];
      RowsDecode(rows, group);
      hide SheetValue, WellFormed, Decode;
      var i := 0;
      NoRowsNoValue(rows);
      while i < |rows|
        invariant 0 <= i <= |rows| && rows == sheets[group]
        invariant forall k :: (if k in all then Some(all[k]) else None) ==
                              if k in legacy then Some(legacy[k]) else SheetValue(rows[..i], k)
      {
        NextRow(rows, group, i);
        var row := rows[i];
        i := i + 1;
        if row.key !in legacy && Decode(row.cell).value.Some? { all := all[row.key := Decode(row.cell).value.value]; }
      }
      assert rows[..i] == rows;
      forall k
        ensures SheetValue(rows, k) == if k.Record? && k.group == group then SheetTruth(View(), k) else None
      {
        OtherGroupsNoValue(rows, group, k);
      }
    }

    /** `setProperties`: exactly the named keys change, and at every instant each reads its old or its new value. */
    method SetProperties(group: Group, values: map<Key, string>, keys: seq<Key>, now: nat)
      requires Valid() && now >= clock
      requires forall k :: k in keys <==> k in values
      modifies this
      ensures Valid() && clock == now && readyAt == old(readyAt)
      ensures forall k :: Truth(View(), k) == if k in values then Some(values[k]) else Truth(old(View()), k)
      ensures |old(trail)| <= |trail| && trail[..|old(trail)|] == old(trail)
      ensures forall i :: |old(trail)| <= i < |trail| ==> Partial(old(View()), trail[i], values, now)
    {
      hide Truth, Sound, SheetTruth;
      ghost var was, from := View(), |trail|;
      ghost var done: set<Key> := {};
      clock := now;
      LaterSound(was, old(clock), now);
      var pass := 0;
      while pass < 2
        invariant 0 <= pass <= 2 && Valid() && clock == now && readyAt == old(readyAt)
        invariant forall k :: k in done <==> k in keys && (pass == 2 || (pass == 1 && !InGroup(k, group)))
        invariant Changed(was, View(), values, done)
        invariant from <= |trail| && trail[..from] == old(trail)
        invariant forall i :: from <= i < |trail| ==> Partial(was, trail[i], values, now)
      {
        var i := 0;
        while i < |keys|
          invariant 0 <= i <= |keys| && Valid() && clock == now && readyAt == old(readyAt)
          invariant forall k :: k in done <==>
                      || (pass == 1 && k in keys && !InGroup(k, group))
                      || (k in keys[..i] && InGroup(k, group) == (pass == 1))
          invariant Changed(was, View(), values, done)
          invariant from <= |trail| && trail[..from] == old(trail)
          invariant forall i :: from <= i < |trail| ==> Partial(was, trail[i], values, now)
        {
          var key := keys[i];
          assert keys[..i + 1] == keys[..i] + [key];
          if InGroup(key, group) == (pass == 1) {
            ghost var before, length := View(), |trail|;
            Change(group, key, Some(values[key]), now);
            OneMoreChanged(was, before, View(), values, done, key);
            forall j | length <= j < |trail|
              ensures Partial(was, trail[j], values, now)
            {
              ChangedOnTheWay(was, before, trail[j], values, done, key, now);
            }
            done := done + {key};
          }
          i := i + 1;
        }
        assert keys[..i] == keys;
        pass := pass + 1;
      }
      ChangedAll(was, View(), values, done);
    }

    /** `prepareOperationalPropertyStorage`: the sheets start empty and become ready seven minutes later. */
    method Prepare(now: nat)
      requires Valid() && now >= clock
      modifies this
      ensures Valid() && clock == now && SameRecords(old(View()), View())
      ensures readyAt == if old(readyAt).Some? then old(readyAt) else Some(now + READY_DELAY)
      ensures old(readyAt).Some? ==> View() == old(View()) && trail == old(trail)
      ensures old(readyAt).None? ==> legacy == old(legacy) && trail == old(trail) + [View()]
      ensures old(readyAt).None? ==> forall g: Group :: g in sheets && sheets[g] == []
    {
      clock := now;
      if readyAt.Some? { return; }
      ghost var was := View();
      sheets := map[Inventory := [], Photos := [], Receipts := []];
      readyAt := Some(now + READY_DELAY);
      forall g: Group
        ensures g in sheets
      {
        match g case Inventory => case Photos => case Receipts =>
      }
      forall k
        ensures Truth(was, k) == Truth(View(), k)
      {
        assert k.Record? && k.group in was.sheets ==> was.sheets[k.group] == [];
        assert k.Record? ==> SheetValue([], k) == None;
      }
      trail := trail + [View()];
    }

    method CopyRow(group: Group, row: Option<nat>, key: Key)
      requires Valid() && Ready(View(), clock) && InGroup(key, group) && key in legacy && group in sheets
      requires Fits(sheets[group], row, key)
      modifies this`sheets, this`trail
      ensures Valid() && trail == old(trail) + [View()] && group in sheets
      ensures SameRecords(old(View()), View()) && Copied(View(), key)
      ensures forall k :: Copied(old(View()), k) ==> Copied(View(), k)
      ensures forall k :: HasRow(sheets[group], k) <==> k == key || HasRow(old(sheets)[group], k)
    {
      hide Truth, Sound, SheetTruth, HasRow, Copied, SameRecords;
      ghost var was := View();
      WriteRow(group, row, key, Some(legacy[key]));
      CopyKeeps(was, View(), key);
      assert group in sheets by { assert RowWritten(was, View(), key, Some(legacy[key])); }
    }

    /** Rows that differ are overwritten; the keys that have no row yet are returned. */
    method CopyExisting(group: Group, entries: seq<Key>) returns (append: seq<Key>)
      requires Valid() && Ready(View(), clock) && Distinct(entries) && group in sheets
      requires forall k :: k in entries ==> InGroup(k, group) && k in legacy
      modifies this`sheets, this`trail
      ensures Valid() && group in sheets
      ensures SameRecords(old(View()), View()) && HeldSince(old(View()), old(trail), trail, clock)
      ensures Distinct(append) && forall k :: k in append ==> k in entries && !HasRow(sheets[group], k)
      ensures forall k :: k in entries ==> k in append || Copied(View(), k)
    {
      hide Truth, Sound, SheetTruth, HasRow, Copied, InGroup;
      ghost var was, past := View(), trail;
      append := [];
      var i := 0;
      while i < |entries|
        invariant 0 <= i <= |entries| && Valid() && group in sheets
        invariant SameRecords(was, View()) && HeldSince(was, past, trail, clock)
        invariant Distinct(append) && forall k :: k in append ==> k in entries[..i] && !HasRow(sheets[group], k)
        invariant forall k :: k in entries[..i] ==> k in append || Copied(View(), k)
      {
        var key := entries[i];
        assert entries[..i + 1] == entries[..i] + [key];
        assert key !in entries[..i];
        var row := FindRow(group, key);
        if row.None? {
          append := append + [key];
        } else if Decode(sheets[group][row.value].cell) != Decoded(Some(legacy[key])) {
          CopyRow(group, row, key);
        } else {
          AlreadyCopied(View(), clock, group, row.value);
        }
        i := i + 1;
      }
      assert entries[..i] == entries;
    }

    method AppendMissing(group: Group, append: seq<Key>)
      requires Valid() && Ready(View(), clock) && Distinct(append) && group in sheets
      requires forall k :: k in append ==> InGroup(k, group) && k in legacy && !HasRow(sheets[group], k)
      modifies this`sheets, this`trail
      ensures Valid() && SameRecords(old(View()), View()) && HeldSince(old(View()), old(trail), trail, clock)
      ensures forall k :: k in append || Copied(old(View()), k) ==> Copied(View(), k)
    {
      hide Truth, Sound, SheetTruth, HasRow, Copied, InGroup;
      ghost var was, past := View(), trail;
      var i := 0;
      while i < |append|
        invariant 0 <= i <= |append| && Valid() && group in sheets
        invariant SameRecords(was, View()) && HeldSince(was, past, trail, clock)
        invariant forall k :: k in append[i..] ==> !HasRow(sheets[group], k)
        invariant forall k :: k in append[..i] || Copied(was, k) ==> Copied(View(), k)
      {
        var key := append[i];
        assert append[i..] == [key] + append[i + 1..];
        assert append[..i + 1] == append[..i] + [key];
        assert key !in append[i + 1..];
        CopyRow(group, None, key);
        i := i + 1;
      }
      assert append[..i] == append;
    }

    /** Only a value whose copy has been read back is removed. */
    method RemoveEntries(entries: seq<Key>)
      requires Valid() && Distinct(entries) && forall k :: k in entries ==> Copied(View(), k)
      modifies this`legacy, this`trail
      ensures Valid() && SameRecords(old(View()), View()) && HeldSince(old(View()), old(trail), trail, clock)
      ensures legacy == old(legacy) - set k | k in entries
    {
      hide Truth, Sound, SheetTruth, HasRow, Copied;
      ghost var was, past := View(), trail;
      var i := 0;
      while i < |entries|
        invariant 0 <= i <= |entries| && Valid() && SameRecords(was, View()) && HeldSince(was, past, trail, clock)
        invariant legacy == was.legacy - set k | k in entries[..i]
        invariant forall k :: k in entries[i..] ==> Copied(View(), k)
      {
        var key := entries[i];
        assert entries[..i + 1] == entries[..i] + [key];
        assert entries[i..] == [key] + entries[i + 1..];
        assert key !in entries[i + 1..];
        RemovalKeeps(View(), clock, key);
        DeleteLegacy(key);
        i := i + 1;
      }
      assert entries[..i] == entries;
    }

    method MigrateGroup(group: Group, mine: seq<Key>)
      requires Valid() && Ready(View(), clock) && Distinct(mine) && group in sheets
      requires forall k :: k in mine ==> InGroup(k, group) && k in legacy
      modifies this`legacy, this`sheets, this`trail
      ensures Valid() && SameRecords(old(View()), View()) && HeldSince(old(View()), old(trail), trail, clock)
      ensures legacy == old(legacy) - set k | k in mine
    {
      hide Truth, Sound, SheetTruth, HasRow, Copied, InGroup, HeldSince;
      ghost var was, past := View(), trail;
      var append := CopyExisting(group, mine);
      ghost var mid, middle := View(), trail;
      AppendMissing(group, append);
      HeldOn(was, mid, past, middle, trail, clock);
      mid, middle := View(), trail;
      RemoveEntries(mine);
      HeldOn(was, mid, past, middle, trail, clock);
    }

    /** A batch, group by group. */
    method MigrateBatch(batch: seq<Key>)
      requires Valid() && Ready(View(), clock) && Distinct(batch) && forall k :: k in batch ==> k in legacy && k.Record?
      modifies this`legacy, this`sheets, this`trail
      ensures Valid() && SameRecords(old(View()), View()) && HeldSince(old(View()), old(trail), trail, clock)
      ensures legacy == old(legacy) - set k | k in batch
    {
      ghost var was, past, now := View(), trail, clock;
      HeldStart(was, past, now);
      var groups := GROUPS;
      hide Truth, Sound, SheetTruth, HasRow, Copied, HeldSince;
      var i := 0;
      while i < |groups|
        invariant 0 <= i <= |groups| && Valid() && clock == now && readyAt == was.readyAt
        invariant SameRecords(was, View()) && HeldSince(was, past, trail, clock)
        invariant legacy == was.legacy - set k | k in batch && k.Record? && k.group in groups[..i]
      {
        var group := groups[i];
        var mine := InOrder(batch, group);
        InOrderIs(batch, group);
        assert groups[..i + 1] == groups[..i] + [group];
        assert group !in groups[..i];
        SheetsReady(View(), now, group);
        ghost var middle, mid := trail, View();
        MigrateGroup(group, mine);
        HeldOn(was, mid, past, middle, trail, now);
        i := i + 1;
      }
      assert groups[..i] == groups;
      forall k | k in batch
        ensures k.Record? && k.group in groups
      {
        EveryGroup(k.group);
      }
      assert (set k | k in batch && k.Record? && k.group in groups) == set k | k in batch;
    }

    /** `migrateOperationalProperties` over the legacy records in some order. It moves a batch only when the records
        are the expected ones; whenever it stops, no record reads differently and every key has one row at most. */
    method Migrate(entries: seq<Key>, expected: map<Key, string>, now: nat) returns (moved: Option<nat>)
      requires Valid() && now >= clock && Distinct(entries)
      requires forall k :: k in entries <==> k in legacy && k.Record?
      modifies this
      ensures Valid() && clock == now && SameRecords(old(View()), View())
      ensures HeldSince(old(View()), old(trail), trail, clock)
      ensures moved.Some? <==> Ready(old(View()), now) && expected == Records(old(legacy))
      ensures moved.Some? <==>
                && readyAt.Some? && readyAt.value <= now
                && forall k :: (if k in expected then Some(expected[k]) else None)
                               == if k.Record? && k in old(legacy) then Some(old(legacy)[k]) else None
      ensures moved.None? ==> View() == old(View())
      ensures moved.Some? ==> moved.value == (if |entries| < BATCH then |entries| else BATCH)
                              && legacy == old(legacy) - set k | k in entries[..moved.value]
    {
      LaterSound(View(), clock, now);
      clock := now;
      HeldStart(View(), trail, now);
      if readyAt.None? || now < readyAt.value { return None; }
      if expected != Records(legacy) { return None; }
      var count := if |entries| < BATCH then |entries| else BATCH;
      hide Truth, Sound, SheetTruth, HasRow, Copied, HeldSince, SameRecords;
      MigrateBatch(entries[..count]);
      return Some(count);
    }
  }
}
