/** The saved state of the inventory monitor (inventoryRiskDelivery.js:2-22): its text in pieces under a generation,
    and one pointer property that names the generation to read. Loads take no lock (lines 263 and 272), so the steps of
    loads and saves interleave. */
module MonitorState {

  import opened Basics

  const CHUNK := 1800

  datatype Pointer = Pointer(generation: nat, parts: nat)

  datatype State = State(head: Option<Pointer>, chunks: map<(nat, nat), string>)

  /** Nothing saved yet, a text, or a pointer to a missing piece. */
  datatype Loaded = Nothing | Text(text: string) | Broken

  // ---------------------------------------------------------------- pieces of a text

  function Parts(text: string): nat {
    (|text| + CHUNK - 1) / CHUNK
  }

  function Piece(text: string, i: nat): string {
    var low := if i * CHUNK < |text| then i * CHUNK else |text|;
    var high := if (i + 1) * CHUNK < |text| then (i + 1) * CHUNK else |text|;
    text[low..high]
  }

  function Joined(chunks: map<(nat, nat), string>, generation: nat, parts: nat): Loaded {
    if parts == 0 then Text("")
    else
      var before := Joined(chunks, generation, parts - 1);
      if before.Broken? || before.Nothing? || (generation, parts - 1) !in chunks then Broken
      else Text(before.text + chunks[(generation, parts - 1)])
  }

  function Load(s: State): Loaded {
    if s.head.None? then Nothing else Joined(s.chunks, s.head.value.generation, s.head.value.parts)
  }

  predicate Holds(chunks: map<(nat, nat), string>, generation: nat, text: string, count: nat) {
    forall i: nat :: i < count ==> (generation, i) in chunks && chunks[(generation, i)] == Piece(text, i)
  }

  /** Joining the pieces of a text gives the text, whatever its length. */
  lemma {:induction false} JoinSplit(chunks: map<(nat, nat), string>, generation: nat, text: string, count: nat)
    requires Holds(chunks, generation, text, count)
    ensures Joined(chunks, generation, count) ==
            Text(text[..if count * CHUNK < |text| then count * CHUNK else |text|])
  {
    if count == 0 {
      assert text[..0] == "";
    } else {
      JoinSplit(chunks, generation, text, count - 1);
      var low := if (count - 1) * CHUNK < |text| then (count - 1) * CHUNK else |text|;
      var high := if count * CHUNK < |text| then count * CHUNK else |text|;
      assert text[..low] + text[low..high] == text[..high];
    }
  }

  lemma PartsCover(text: string)
    ensures Parts(text) * CHUNK >= |text|
    ensures text != "" ==> Parts(text) > 0
    ensures forall i: nat :: i < Parts(text) ==> 0 < |Piece(text, i)| <= CHUNK
  {
    forall i: nat | i < Parts(text)
      ensures 0 < |Piece(text, i)| <= CHUNK
    {
      assert i * CHUNK < |text|;
    }
  }

  /** The saved pieces of a text are between 1 and 1800 characters long and load as the text. */
  lemma SavedLoads(s: State, text: string)
    requires s.head.Some? && s.head.value.parts == Parts(text)
    requires Holds(s.chunks, s.head.value.generation, text, Parts(text))
    ensures Load(s) == Text(text)
    ensures forall i: nat :: i < Parts(text) ==> 0 < |s.chunks[(s.head.value.generation, i)]| <= CHUNK
  {
    PartsCover(text);
    JoinSplit(s.chunks, s.head.value.generation, text, Parts(text));
    assert text[..|text|] == text;
  }

  /** Only the pieces of its own generation matter to a load. */
  lemma {:induction false} JoinedOnly(a: map<(nat, nat), string>, b: map<(nat, nat), string>,
                                      generation: nat, parts: nat)
    requires forall i: nat :: i < parts ==> ((generation, i) in a <==> (generation, i) in b)
    requires forall i: nat :: i < parts && (generation, i) in a ==> a[(generation, i)] == b[(generation, i)]
    ensures Joined(b, generation, parts) == Joined(a, generation, parts)
  {
    if parts == 0 {
    } else {
      JoinedOnly(a, b, generation, parts - 1);
    }
  }

  // ---------------------------------------------------------------- the properties

  class Store {
    var head: Option<Pointer>
    var chunks: map<(nat, nat), string>
    ghost var trail: seq<State>

    ghost function View(): State
      reads this
    {
      State(head, chunks)
    }

    method LoadState() returns (loaded: Loaded)
      ensures loaded == Load(View())
    {
      if head.None? { return Nothing; }
      var pointer, text, i := head.value, "", 0;
      while i < pointer.parts
        invariant 0 <= i <= pointer.parts && Joined(chunks, pointer.generation, i) == Text(text)
      {
        if (pointer.generation, i) !in chunks {
          BrokenStays(chunks, pointer.generation, i + 1, pointer.parts);
          return Broken;
        }
        text := text + chunks[(pointer.generation, i)];
        i := i + 1;
      }
      return Text(text);
    }

    method DropGeneration(dropped: Pointer, text: string)
      requires head.Some? && head.value.parts == Parts(text) && Holds(chunks, head.value.generation, text, Parts(text))
      requires head.value.generation != dropped.generation
      modifies this`chunks, this`trail
      ensures Load(View()) == Text(text) && chunks.Keys <= old(chunks.Keys)
      ensures old(trail) <= trail && forall i :: |old(trail)| <= i < |trail| ==> Load(trail[i]) == Text(text)
    {
      hide Joined, Piece, Parts, Load;
      SavedLoads(View(), text);
      var j := 0;
      ghost var was := trail;
      while j < dropped.parts
        invariant 0 <= j <= dropped.parts && Holds(chunks, head.value.generation, text, Parts(text))
        invariant chunks.Keys <= old(chunks.Keys) && Load(View()) == Text(text)
        invariant was <= trail && forall i :: |was| <= i < |trail| ==> Load(trail[i]) == Text(text)
      {
        chunks := chunks - {(dropped.generation, j)};
        SavedLoads(View(), text);
        trail := trail + [View()];
        j := j + 1;
      }
    }

    /** The new generation is written, then the pointer swapped, then the old generation deleted. After every single
        write a load gives the whole old text or the whole new one. */
    method Save(text: string, generation: nat)
      requires forall i :: (generation, i) !in chunks
      requires head.Some? ==> head.value.generation != generation
      modifies this
      ensures Load(View()) == Text(text)
      ensures old(trail) <= trail
      ensures forall i :: |old(trail)| <= i < |trail| ==> Load(trail[i]) in [Load(old(View())), Text(text)]
      ensures forall k :: k in chunks ==> k in old(chunks) || k.0 == generation
    {
      hide Joined, Piece, Parts;
      var previous := head;
      ghost var was, past := View(), trail;
      var parts := Parts(text);
      var i := 0;
      while i < parts
        invariant 0 <= i <= parts && head == previous && Load(View()) == Load(was)
        invariant Holds(chunks, generation, text, i)
        invariant forall k :: k in was.chunks ==> k in chunks && chunks[k] == was.chunks[k]
        invariant forall k :: k in chunks ==> k in was.chunks || k.0 == generation
        invariant past <= trail && forall j :: |past| <= j < |trail| ==> Load(trail[j]) in [Load(was), Text(text)]
      {
        chunks := chunks[(generation, i) := Piece(text, i)];
        if previous.Some? { JoinedOnly(was.chunks, chunks, previous.value.generation, previous.value.parts); }
        trail := trail + [View()];
        i := i + 1;
      }
      head := Some(Pointer(generation, parts));
      SavedLoads(View(), text);
      trail := trail + [View()];
      if previous.Some? { DropGeneration(previous.value, text); }
    }
  }

  lemma {:induction false} BrokenStays(chunks: map<(nat, nat), string>, generation: nat, i: nat, parts: nat)
    requires 0 < i <= parts && (generation, i - 1) !in chunks
    ensures Joined(chunks, generation, parts) == Broken
    decreases parts
  {
    if i < parts { BrokenStays(chunks, generation, i, parts - 1); }
  }

  // ---------------------------------------------------------------- loads and saves that overlap

  /** How many pieces a save has written, and then how many of the generation before it has deleted. */
  datatype Phase = Writing(n: nat) | Dropping(n: nat)

  datatype Saving = Saving(before: Option<Pointer>, phase: Phase)

  /** A load keeps the head it read first. */
  datatype Loading =
    | Reading(pointer: Pointer, n: nat, text: string)
    | Finished(began: Option<Pointer>, loaded: Loaded)

  /** Generations and loads are numbered by `next`. As history: the text of each generation, and which the head has
      named. */
  datatype World = World(head: Option<Pointer>, chunks: map<(nat, nat), string>, next: nat, saves: map<nat, Saving>,
                         loads: map<nat, Loading>, texts: map<nat, string>, named: set<nat>)

  datatype Step =
    | BeginSave(text: string)
    | WritePiece(g: nat)
    | Swap(g: nat)
    | DropPiece(g: nat)
    | EndSave(g: nat)
    | BeginLoad
    | ReadPiece(l: nat)
    | EndLoad(l: nat)

  predicate In(w: World, g: nat) {
    g in w.saves && g in w.texts
  }

  predicate Enabled(w: World, step: Step) {
    match step
    case BeginSave(_) => true
    case WritePiece(g) => In(w, g) && w.saves[g].phase.Writing? && w.saves[g].phase.n < Parts(w.texts[g])
    case Swap(g) => In(w, g) && w.saves[g].phase == Writing(Parts(w.texts[g]))
    case DropPiece(g) =>
      && In(w, g) && w.saves[g].phase.Dropping? && w.saves[g].before.Some?
      && w.saves[g].phase.n < w.saves[g].before.value.parts
    case EndSave(g) => In(w, g)
    case BeginLoad => true
    case ReadPiece(l) => l in w.loads && w.loads[l].Reading? && w.loads[l].n < w.loads[l].pointer.parts
    case EndLoad(l) => l in w.loads && w.loads[l].Reading? && w.loads[l].n == w.loads[l].pointer.parts
  }

  function Apply(w: World, step: Step): World
    requires Enabled(w, step)
  {
    match step
    case BeginSave(text) =>
      w.(saves := w.saves[w.next := Saving(w.head, Writing(0))], texts := w.texts[w.next := text], next := w.next + 1)
    case WritePiece(g) =>
      var n := w.saves[g].phase.n;
      w.(chunks := w.chunks[(g, n) := Piece(w.texts[g], n)],
         saves := w.saves[g := w.saves[g].(phase := Writing(n + 1))])
    case Swap(g) =>
      w.(head := Some(Pointer(g, Parts(w.texts[g]))), saves := w.saves[g := w.saves[g].(phase := Dropping(0))],
         named := w.named + {g})
    case DropPiece(g) =>
      var n := w.saves[g].phase.n;
      w.(chunks := w.chunks - {(w.saves[g].before.value.generation, n)},
         saves := w.saves[g := w.saves[g].(phase := Dropping(n + 1))])
    case EndSave(g) => w.(saves := w.saves - {g})
    case BeginLoad =>
      w.(loads := w.loads[w.next := if w.head.None? then Finished(None, Nothing) else Reading(w.head.value, 0, "")],
         next := w.next + 1)
    case ReadPiece(l) =>
      var load := w.loads[l];
      var piece := (load.pointer.generation, load.n);
      w.(loads := w.loads[l := if piece in w.chunks then Reading(load.pointer, load.n + 1, load.text + w.chunks[piece])
                               else Finished(Some(load.pointer), Broken)])
    case EndLoad(l) => w.(loads := w.loads[l := Finished(Some(w.loads[l].pointer), Text(w.loads[l].text))])
  }

  /** The first n pieces of a text. */
  function Upto(text: string, n: nat): string {
    text[..if n * CHUNK < |text| then n * CHUNK else |text|]
  }

  /** Every piece of a known generation is a piece of its text. */
  ghost predicate Pure(w: World) {
    && (forall k :: k in w.chunks ==> k.0 < w.next)
    && (forall k :: k in w.chunks && k.0 in w.texts ==> w.chunks[k] == Piece(w.texts[k.0], k.1))
    && (forall g :: g in w.texts || g in w.named || g in w.saves ==> g < w.next)
  }

  ghost predicate Names(w: World, pointer: Pointer) {
    && pointer.generation in w.texts && pointer.generation in w.named
    && pointer.parts == Parts(w.texts[pointer.generation])
  }

  /** What the head names is there, whole. */
  ghost predicate Stored(w: World) {
    w.head.Some? ==>
      && Names(w, w.head.value)
      && Holds(w.chunks, w.head.value.generation, w.texts[w.head.value.generation], w.head.value.parts)
  }

  ghost predicate SaveSafe(w: World, g: nat) {
    g in w.saves ==>
      var s := w.saves[g];
      && g in w.texts && (s.before.Some? ==> s.before.value.generation in w.named)
      && match s.phase
         case Writing(n) => g !in w.named && Holds(w.chunks, g, w.texts[g], n)
         case Dropping(n) => w.head.Some? && (s.before.Some? ==> s.before.value.generation != w.head.value.generation)
  }

  /** A load has read the pieces of one text, and it finds one missing only after the head has moved on. */
  ghost predicate LoadSafe(w: World, l: nat) {
    l in w.loads ==>
      match w.loads[l]
      case Reading(pointer, n, text) =>
        Names(w, pointer) && n <= pointer.parts && text == Upto(w.texts[pointer.generation], n)
      case Finished(Some(pointer), Text(text)) => Names(w, pointer) && text == w.texts[pointer.generation]
      case Finished(Some(pointer), Broken) => Names(w, pointer) && w.head != Some(pointer)
      case Finished(None, Nothing) => true
      case _ => false
  }

  ghost predicate Inv(w: World) {
    && Pure(w) && Stored(w)
    && (forall g :: g in w.saves ==> SaveSafe(w, g)) && (forall l :: l in w.loads ==> LoadSafe(w, l))
  }

  lemma UptoNext(text: string, n: nat)
    ensures Upto(text, 0) == "" && Upto(text, n) + Piece(text, n) == Upto(text, n + 1)
    ensures Upto(text, Parts(text)) == text
  {
    var low := if n * CHUNK < |text| then n * CHUNK else |text|;
    var high := if (n + 1) * CHUNK < |text| then (n + 1) * CHUNK else |text|;
    assert text[..low] + text[low..high] == text[..high];
    PartsCover(text);
    assert text[..|text|] == text;
  }

  lemma KeepsPure(w: World, step: Step)
    requires Inv(w) && Enabled(w, step)
    ensures Pure(Apply(w, step))
  {
    hide Parts, Piece, Holds;
  }

  lemma KeepsStored(w: World, step: Step)
    requires Inv(w) && Enabled(w, step)
    ensures Stored(Apply(w, step))
  {
    hide Parts, Piece, LoadSafe;
    match step
    case WritePiece(g) => assert SaveSafe(w, g);
    case Swap(g) => assert SaveSafe(w, g);
    case DropPiece(g) => assert SaveSafe(w, g);
    case _ =>
  }

  lemma KeepsSave(w: World, step: Step, g: nat)
    requires Inv(w) && Enabled(w, step)
    ensures SaveSafe(Apply(w, step), g)
  {
    hide Parts, Piece, LoadSafe;
    assert g in w.saves ==> SaveSafe(w, g);
    match step
    case WritePiece(f) => assert SaveSafe(w, f);
    case Swap(f) => assert SaveSafe(w, f);
    case DropPiece(f) => assert SaveSafe(w, f);
    case _ =>
  }

  lemma KeepsLoad(w: World, step: Step, l: nat)
    requires Inv(w) && Enabled(w, step)
    ensures LoadSafe(Apply(w, step), l)
  {
    hide Parts, Piece, Upto;
    assert l in w.loads ==> LoadSafe(w, l);
    match step
    case BeginLoad => if w.head.Some? { UptoNext(w.texts[w.head.value.generation], 0); }
    case ReadPiece(m) =>
      assert LoadSafe(w, m);
      UptoNext(w.texts[w.loads[m].pointer.generation], w.loads[m].n);
    case EndLoad(m) =>
      assert LoadSafe(w, m);
      UptoNext(w.texts[w.loads[m].pointer.generation], 0);
    case Swap(g) => assert SaveSafe(w, g);
    case _ =>
  }

  lemma StepKeeps(w: World, step: Step)
    requires Inv(w) && Enabled(w, step)
    ensures Inv(Apply(w, step))
  {
    hide Apply, Enabled, Pure, Stored, SaveSafe, LoadSafe;
    KeepsPure(w, step);
    KeepsStored(w, step);
    forall g | g in Apply(w, step).saves
      ensures SaveSafe(Apply(w, step), g)
    {
      KeepsSave(w, step, g);
    }
    forall l | l in Apply(w, step).loads
      ensures LoadSafe(Apply(w, step), l)
    {
      KeepsLoad(w, step, l);
    }
  }

  /** Nothing or one whole text is saved, beside any left-over pieces. */
  ghost predicate Initial(w: World) {
    && Pure(w) && Stored(w) && w.saves == map[] && w.loads == map[]
    && w.named == w.texts.Keys && w.texts.Keys == if w.head.Some? then {w.head.value.generation} else {}
  }

  ghost predicate Possible(w: World, steps: seq<Step>)
    decreases |steps|
  {
    steps == [] || (Enabled(w, steps[0]) && Possible(Apply(w, steps[0]), steps[1..]))
  }

  ghost function After(w: World, steps: seq<Step>): World
    requires Possible(w, steps)
    decreases |steps|
  {
    if steps == [] then w else After(Apply(w, steps[0]), steps[1..])
  }

  lemma {:induction false} RunKeeps(w: World, steps: seq<Step>)
    requires Inv(w) && Possible(w, steps)
    ensures Inv(After(w, steps))
    decreases |steps|
  {
    hide Inv, Enabled;
    if steps == [] {
    } else {
      StepKeeps(w, steps[0]);
      RunKeeps(Apply(w, steps[0]), steps[1..]);
    }
  }

  /** However loads and saves interleave and wherever saves are cut off: a finished load gives the whole text of the
      generation the head named when it began, or reports a missing piece, and that only after a later save has moved
      the head on. At every moment the head names a text that is there, whole. */
  lemma NeverAMixture(w: World, steps: seq<Step>, l: nat)
    requires Initial(w) && Possible(w, steps)
    ensures var v := After(w, steps);
      v.head.Some? ==>
        && v.head.value.generation in v.texts
        && Load(State(v.head, v.chunks)) == Text(v.texts[v.head.value.generation])
    ensures var v := After(w, steps);
      l in v.loads && v.loads[l].Finished? ==>
        match v.loads[l].began
        case None => v.loads[l].loaded == Nothing
        case Some(pointer) =>
          && pointer.generation in v.texts
          && (v.loads[l].loaded == Text(v.texts[pointer.generation])
              || (v.loads[l].loaded == Broken && v.head != Some(pointer)))
  {
    hide Possible, After;
    RunKeeps(w, steps);
    var v := After(w, steps);
    if v.head.Some? { SavedLoads(State(v.head, v.chunks), v.texts[v.head.value.generation]); }
    if l in v.loads { assert LoadSafe(v, l); }
  }

  // ---------------------------------------------------------------- a load that a save overtakes

  lemma {:induction false} Extend(w: World, steps: seq<Step>, step: Step)
    requires Possible(w, steps) && Enabled(After(w, steps), step)
    ensures Possible(w, steps + [step]) && After(w, steps + [step]) == Apply(After(w, steps), step)
    decreases |steps|
  {
    hide Enabled, Apply;
    if steps == [] {
      assert (steps + [step])[1..] == [];
    } else {
      assert (steps + [step])[1..] == steps[1..] + [step];
      Extend(Apply(w, steps[0]), steps[1..], step);
    }
  }

  ghost predicate Reaches(w: World, v: World) {
    exists steps :: Possible(w, steps) && After(w, steps) == v
  }

  lemma ReachStart(w: World)
    ensures Reaches(w, w)
  {
    assert Possible(w, []) && After(w, []) == w;
  }

  lemma Reach(w: World, v: World, step: Step)
    requires Reaches(w, v) && Enabled(v, step)
    ensures Reaches(w, Apply(v, step))
  {
    var steps :| Possible(w, steps) && After(w, steps) == v;
    Extend(w, steps, step);
  }

  const EMPTY := World(None, map[], 0, map[], map[], map[], {})

  /** Load 0 finds nothing saved, load 2 the first text, and load 3, overtaken by the second save, a missing piece. */
  lemma OvertakenLoad() returns (v: World)
    ensures Initial(EMPTY) && Reaches(EMPTY, v)
    ensures v.loads == map[0 := Finished(None, Nothing), 2 := Finished(Some(Pointer(1, 1)), Text("a")),
                           3 := Finished(Some(Pointer(1, 1)), Broken)]
    ensures v.head == Some(Pointer(4, 1)) && v.chunks == map[(4, 0) := "b"] && v.saves == map[]
  {
    hide Reaches;
    var w := EMPTY;
    ReachStart(w);
    v := w;
    ShortTexts();
    hide Piece, Parts;
    Reach(w, v, BeginLoad);
    v := Apply(v, BeginLoad);
    Reach(w, v, BeginSave("a"));
    v := Apply(v, BeginSave("a"));
    Reach(w, v, WritePiece(1));
    v := Apply(v, WritePiece(1));
    Reach(w, v, Swap(1));
    v := Apply(v, Swap(1));
    Reach(w, v, EndSave(1));
    v := Apply(v, EndSave(1));
    v := FirstTextLoaded(v);
    v := SecondTextSaved(v);
  }

  lemma ShortTexts()
    ensures Parts("a") == Parts("b") == 1 && Piece("a", 0) == "a" && Piece("b", 0) == "b"
  {
  }

  lemma FirstTextLoaded(u: World) returns (v: World)
    requires Reaches(EMPTY, u)
    requires u == World(Some(Pointer(1, 1)), map[(1, 0) := "a"], 2, map[], map[0 := Finished(None, Nothing)],
                        map[1 := "a"], {1})
    ensures Reaches(EMPTY, v)
    ensures v == u.(next := 3, loads := map[0 := Finished(None, Nothing),
                                            2 := Finished(Some(Pointer(1, 1)), Text("a"))])
  {
    hide Reaches;
    var w := EMPTY;
    v := u;
    Reach(w, v, BeginLoad);
    v := Apply(v, BeginLoad);
    Reach(w, v, ReadPiece(2));
    v := Apply(v, ReadPiece(2));
    assert "" + "a" == "a";
    Reach(w, v, EndLoad(2));
    v := Apply(v, EndLoad(2));
  }

  lemma SecondTextSaved(u: World) returns (v: World)
    requires Reaches(EMPTY, u)
    requires u == World(Some(Pointer(1, 1)), map[(1, 0) := "a"], 3, map[],
                        map[0 := Finished(None, Nothing), 2 := Finished(Some(Pointer(1, 1)), Text("a"))], map[1 := "a"],
                        {1})
    ensures Reaches(EMPTY, v)
    ensures v.loads == u.loads[3 := Finished(Some(Pointer(1, 1)), Broken)]
    ensures v.head == Some(Pointer(4, 1)) && v.chunks == map[(4, 0) := "b"] && v.saves == map[]
  {
    hide Reaches;
    var w := EMPTY;
    v := u;
    ShortTexts();
    hide Piece, Parts;
    Reach(w, v, BeginLoad);
    v := Apply(v, BeginLoad);
    Reach(w, v, BeginSave("b"));
    v := Apply(v, BeginSave("b"));
    Reach(w, v, WritePiece(4));
    v := Apply(v, WritePiece(4));
    Reach(w, v, Swap(4));
    v := Apply(v, Swap(4));
    assert v.chunks == map[(1, 0) := "a", (4, 0) := "b"];
    v := OldPieceDropped(v);
  }

  lemma OldPieceDropped(u: World) returns (v: World)
    requires Reaches(EMPTY, u)
    requires u.head == Some(Pointer(4, 1)) && u.chunks == map[(1, 0) := "a", (4, 0) := "b"] && u.texts.Keys == {1, 4}
    requires u.saves == map[4 := Saving(Some(Pointer(1, 1)), Dropping(0))]
    requires 3 in u.loads && u.loads[3] == Reading(Pointer(1, 1), 0, "")
    ensures Reaches(EMPTY, v)
    ensures v.head == u.head && v.chunks == map[(4, 0) := "b"] && v.saves == map[]
    ensures v.loads == u.loads[3 := Finished(Some(Pointer(1, 1)), Broken)]
  {
    hide Reaches;
    var w := EMPTY;
    v := u;
    Reach(w, v, DropPiece(4));
    v := Apply(v, DropPiece(4));
    Reach(w, v, ReadPiece(3));
    v := Apply(v, ReadPiece(3));
    Reach(w, v, EndSave(4));
    v := Apply(v, EndSave(4));
  }
}
