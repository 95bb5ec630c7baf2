/** Replacing the contract file of a trade (generatecontract.js:883-945, 1074-1153): create, link every ledger row,
    read back, only then trash the older files, under an exclusion key per trade. Assumed: an execution lives at
    most 6 minutes, and ledger rows are only appended (with an empty link) while a run is linking. */
module ContractFiles {

  import opened Basics

  type Tid = nat
  type FileId = nat

  const EXCLUSION := 540000
  const EXECUTION := 360000

  datatype Row = Row(tid: Tid, link: Option<FileId>)

  datatype File = File(tid: Tid, trashed: bool)

  // ---------------------------------------------------------------- linking and trashing

  function Linked(rows: seq<Row>, tid: Tid, id: FileId): (r: seq<Row>)
    ensures |r| == |rows|
    ensures forall i :: 0 <= i < |rows| ==> r[i] == if rows[i].tid == tid then Row(tid, Some(id)) else rows[i]
  {
    if rows == [] then []
    else
      Linked(rows[..|rows| - 1], tid, id)
      + [if rows[|rows| - 1].tid == tid then Row(tid, Some(id)) else rows[|rows| - 1]]
  }

  predicate Live(files: map<FileId, File>, id: FileId) {
    id in files && !files[id].trashed
  }

  function Trash(files: map<FileId, File>, id: FileId): map<FileId, File>
    requires id in files
  {
    files[id := files[id].(trashed := true)]
  }

  /** All listed files of the trade but the one to keep. */
  function TrashedOthers(files: map<FileId, File>, tid: Tid, keep: FileId, listed: seq<FileId>): map<FileId, File>
    requires forall f :: f in listed ==> f in files
  {
    if listed == [] then files
    else
      var before, f := TrashedOthers(files, tid, keep, listed[..|listed| - 1]), listed[|listed| - 1];
      if f in before && before[f].tid == tid && f != keep then Trash(before, f) else before
  }

  /** Of the listed files exactly those of the trade are trashed, and never the one to keep. */
  lemma {:induction false} TrashedOthersIs(files: map<FileId, File>, tid: Tid, keep: FileId, listed: seq<FileId>)
    requires forall f :: f in listed ==> f in files
    ensures var after := TrashedOthers(files, tid, keep, listed);
      && after.Keys == files.Keys
      && forall f :: f in files ==>
           after[f] == if f in listed && files[f].tid == tid && f != keep then File(tid, true) else files[f]
  {
    if listed != [] {
      var init := listed[..|listed| - 1];
      TrashedOthersIs(files, tid, keep, init);
      assert listed == init + [listed[|listed| - 1]];
    }
  }

  class Drive {
    var rows: seq<Row>
    var files: map<FileId, File>

    /** `updateContractLink`: every row of the trade gets the link; a trade without a row is an error. */
    method UpdateLink(tid: Tid, id: FileId) returns (matched: seq<nat>)
      modifies this`rows
      ensures rows == Linked(old(rows), tid, id)
      ensures forall i: nat :: i in matched <==> i < |rows| && rows[i].tid == tid
    {
      matched := [];
      var i := 0;
      ghost var was := rows;
      while i < |rows|
        invariant 0 <= i <= |rows| == |was|
        invariant forall j: nat :: j in matched <==> j < i && rows[j].tid == tid
        invariant forall j :: 0 <= j < |rows| ==>
                    rows[j] == if j < i && was[j].tid == tid then Row(tid, Some(id)) else was[j]
      {
        if rows[i].tid == tid {
          rows := rows[i := rows[i].(link := Some(id))];
          matched := matched + [i];
        }
        i := i + 1;
      }
      assert rows == Linked(was, tid, id);
    }

    /** `trashContractFilesForTrade_` over the files Drive lists, all but the one to keep. */
    method TrashOthers(tid: Tid, keep: FileId, listed: seq<FileId>)
      requires forall f :: f in listed ==> f in files
      modifies this`files
      ensures files == TrashedOthers(old(files), tid, keep, listed)
    {
      var i := 0;
      while i < |listed|
        invariant 0 <= i <= |listed| && files == TrashedOthers(old(files), tid, keep, listed[..i])
        invariant files.Keys == old(files).Keys
      {
        var f := listed[i];
        assert listed[..i + 1][..i] == listed[..i];
        if files[f].tid == tid && f != keep { files := Trash(files, f); }
        i := i + 1;
      }
      assert listed[..i] == listed;
    }
  }

  // ---------------------------------------------------------------- the system

  /** `rows` are the ledger rows of the trade the run found when it started to link. */
  datatype Phase =
    | Acquired
    | Generated(file: FileId)
    | Linking(file: FileId, rows: seq<nat>, next: nat)
    | Trashing(file: FileId, rows: seq<nat>)

  datatype Run = Run(startedAt: nat, at: nat, tid: Tid, phase: Phase)

  datatype Exclusion = Exclusion(at: nat, token: nat)

  datatype World = World(now: nat, rows: seq<Row>, files: map<FileId, File>, exclusions: map<Tid, Exclusion>,
                         runs: map<nat, Run>, nextName: nat)

  datatype Step =
    | Tick(ms: nat)
    | Append(tid: Tid)
    | Start(tid: Tid, startedAt: nat, at: nat)
    | Generate(token: nat)
    | ReadRows(token: nat, rows: seq<nat>)
    | WriteLink(token: nat)
    | Verify(token: nat)
    | TrashOne(token: nat, file: FileId)
    | Stop(token: nat)
    | Kill(token: nat)

  predicate In(w: World, token: nat) {
    token in w.runs
  }

  ghost predicate RowsOf(rows: seq<Row>, tid: Tid, found: seq<nat>) {
    forall i: nat :: i in found <==> i < |rows| && rows[i].tid == tid
  }

  ghost predicate Enabled(w: World, step: Step) {
    match step
    case Tick(ms) => forall t :: t in w.runs ==> w.now + ms <= w.runs[t].startedAt + EXECUTION
    case Append(tid) => true
    case Start(tid, startedAt, at) =>
      && startedAt <= at <= w.now <= startedAt + EXECUTION
      && (tid in w.exclusions ==> w.exclusions[tid].at > 0 && w.now >= w.exclusions[tid].at + EXCLUSION)
    case Generate(t) => In(w, t) && w.runs[t].phase.Acquired?
    case ReadRows(t, rows) => In(w, t) && w.runs[t].phase.Generated? && RowsOf(w.rows, w.runs[t].tid, rows)
    case WriteLink(t) =>
      In(w, t) && w.runs[t].phase.Linking? && w.runs[t].phase.next < |w.runs[t].phase.rows|
      && w.runs[t].phase.rows[w.runs[t].phase.next] < |w.rows|
    case Verify(t) =>
      && In(w, t) && w.runs[t].phase.Linking? && w.runs[t].phase.next == |w.runs[t].phase.rows| > 0
      && forall i :: i in w.runs[t].phase.rows ==> i < |w.rows| && w.rows[i].link == Some(w.runs[t].phase.file)
    case TrashOne(t, f) =>
      && In(w, t) && w.runs[t].phase.Trashing? && Live(w.files, f)
      && w.files[f].tid == w.runs[t].tid && f != w.runs[t].phase.file
    case Stop(t) => In(w, t)
    case Kill(t) => In(w, t)
  }

  function Go(w: World, t: nat, phase: Phase): World
    requires In(w, t)
  {
    w.(runs := w.runs[t := w.runs[t].(phase := phase)])
  }

  ghost function Apply(w: World, step: Step): World
    requires Enabled(w, step)
  {
    match step
    case Tick(ms) => w.(now := w.now + ms)
    case Append(tid) => w.(rows := w.rows + [Row(tid, None)])
    case Start(tid, startedAt, at) =>
      w.(exclusions := w.exclusions[tid := Exclusion(at, w.nextName)],
         runs := w.runs[w.nextName := Run(startedAt, at, tid, Acquired)], nextName := w.nextName + 1)
    case Generate(t) =>
      Go(w, t, Generated(w.nextName))
        .(files := w.files[w.nextName := File(w.runs[t].tid, false)], nextName := w.nextName + 1)
    case ReadRows(t, rows) => Go(w, t, Linking(w.runs[t].phase.file, rows, 0))
    case WriteLink(t) =>
      var p := w.runs[t].phase;
      Go(w, t, p.(next := p.next + 1))
        .(rows := w.rows[p.rows[p.next] := w.rows[p.rows[p.next]].(link := Some(p.file))])
    case Verify(t) => Go(w, t, Trashing(w.runs[t].phase.file, w.runs[t].phase.rows))
    case TrashOne(t, f) => w.(files := Trash(w.files, f))
    case Stop(t) =>
      var tid := w.runs[t].tid;
      w.(runs := w.runs - {t},
         exclusions := if tid in w.exclusions && w.exclusions[tid].token == t
                       then w.exclusions - {tid} else w.exclusions)
    case Kill(t) => w.(runs := w.runs - {t})
  }

  // ---------------------------------------------------------------- what every step keeps

  /** A link names a file of the same trade that has not been trashed. */
  ghost predicate NoDeadLink(w: World) {
    forall i :: 0 <= i < |w.rows| && w.rows[i].link.Some? ==>
      Live(w.files, w.rows[i].link.value) && w.files[w.rows[i].link.value].tid == w.rows[i].tid
  }

  ghost predicate Named(w: World) {
    && (forall f :: f in w.files ==> f < w.nextName)
    && (forall t :: t in w.runs ==> t < w.nextName)
  }

  /** A live run holds the exclusion key of its trade, not yet expired. */
  ghost predicate Excluded(w: World) {
    forall t :: t in w.runs ==>
      var r := w.runs[t];
      && r.tid in w.exclusions && w.exclusions[r.tid] == Exclusion(r.at, t)
      && r.startedAt <= r.at && w.now <= r.startedAt + EXECUTION
  }

  ghost predicate OwnFile(w: World, tid: Tid, file: FileId) {
    Live(w.files, file) && w.files[file].tid == tid
  }

  /** The rows a linking run does not know about are new and have no link. */
  ghost predicate RunSafe(w: World, r: Run) {
    match r.phase
    case Acquired => true
    case Generated(file) => OwnFile(w, r.tid, file)
    case Linking(file, rows, next) =>
      && OwnFile(w, r.tid, file) && next <= |rows|
      && (forall i :: i in rows ==> i < |w.rows| && w.rows[i].tid == r.tid)
      && (forall i :: 0 <= i < |w.rows| && w.rows[i].tid == r.tid ==> i in rows || w.rows[i].link == None)
    case Trashing(file, rows) =>
      && OwnFile(w, r.tid, file)
      && (forall i :: i in rows ==> i < |w.rows| && w.rows[i] == Row(r.tid, Some(file)))
      && (forall i :: 0 <= i < |w.rows| && w.rows[i].tid == r.tid ==> i in rows || w.rows[i].link == None)
  }

  ghost predicate RunsSafe(w: World) {
    forall t :: t in w.runs ==> RunSafe(w, w.runs[t])
  }

  ghost predicate Inv(w: World) {
    NoDeadLink(w) && Named(w) && Excluded(w) && RunsSafe(w)
  }

  lemma KeepsLinks(w: World, step: Step)
    requires Inv(w) && Enabled(w, step)
    ensures NoDeadLink(Apply(w, step))
  {
  }

  lemma KeepsNames(w: World, step: Step)
    requires Inv(w) && Enabled(w, step)
    ensures Named(Apply(w, step)) && Excluded(Apply(w, step))
  {
    hide NoDeadLink, RunsSafe;
  }

  predicate WritesRows(step: Step) {
    step.ReadRows? || step.WriteLink? || step.Verify?
  }

  lemma KeepsRunLinking(w: World, step: Step, t: nat)
    requires Inv(w) && Enabled(w, step) && WritesRows(step) && t in Apply(w, step).runs
    ensures RunSafe(Apply(w, step), Apply(w, step).runs[t])
  {
    hide NoDeadLink, Linked, Named;
  }

  lemma KeepsRunElse(w: World, step: Step, t: nat)
    requires Inv(w) && Enabled(w, step) && !WritesRows(step) && t in Apply(w, step).runs
    ensures RunSafe(Apply(w, step), Apply(w, step).runs[t])
  {
    hide NoDeadLink, Linked;
  }

  lemma StepKeeps(w: World, step: Step)
    requires Inv(w) && Enabled(w, step)
    ensures Inv(Apply(w, step))
  {
    hide Enabled, Apply, NoDeadLink, Named, Excluded, RunSafe;
    KeepsLinks(w, step);
    KeepsNames(w, step);
    forall t | t in Apply(w, step).runs
      ensures RunSafe(Apply(w, step), Apply(w, step).runs[t])
    {
      if WritesRows(step) { KeepsRunLinking(w, step, t); } else { KeepsRunElse(w, step, t); }
    }
  }

  // ---------------------------------------------------------------- whole runs

  /** Any ledger without dead links, and left-over exclusion keys of killed runs. */
  ghost predicate Initial(w: World) {
    w.runs == map[] && NoDeadLink(w) && forall f :: f in w.files ==> f < w.nextName
  }

  ghost predicate Possible(w: World, steps: seq<Step>)
    decreases |steps|
  {
    steps == [] || (Enabled(w, steps[0]) && Possible(Apply(w, steps[0]), steps[1..]))
  }

  ghost function After(w: World, steps: seq<Step>): World
    requires Possible(w, steps)
    decreases |steps|
  {
    if steps == [] then w else After(Apply(w, steps[0]), steps[1..])
  }

  lemma {:induction false} RunKeeps(w: World, steps: seq<Step>)
    requires Inv(w) && Possible(w, steps)
    ensures Inv(After(w, steps))
    decreases |steps|
  {
    hide Inv, Enabled;
    if steps == [] {
    } else {
      StepKeeps(w, steps[0]);
      RunKeeps(Apply(w, steps[0]), steps[1..]);
    }
  }

  /** No ledger row ever links to a trashed file, whatever runs overlap, fail or are killed. */
  lemma NeverADeadLink(w: World, steps: seq<Step>, i: nat)
    requires Initial(w) && Possible(w, steps) && i < |After(w, steps).rows|
    ensures var v := After(w, steps); v.rows[i].link.Some? ==> Live(v.files, v.rows[i].link.value)
  {
    hide Possible, After;
    RunKeeps(w, steps);
  }

  /** No two live runs work on one trade. */
  lemma OneRunPerTrade(w: World, steps: seq<Step>, a: nat, b: nat)
    requires Initial(w) && Possible(w, steps)
    requires In(After(w, steps), a) && In(After(w, steps), b)
    requires After(w, steps).runs[a].tid == After(w, steps).runs[b].tid
    ensures a == b
  {
    hide Possible, After;
    RunKeeps(w, steps);
  }

  /** Once trashing has run to its end, every row the run matched links the one live file of the trade. */
  lemma FinishedRunLeavesOneFile(w: World, steps: seq<Step>, t: nat, f: FileId)
    requires Initial(w) && Possible(w, steps)
    requires var v := After(w, steps); In(v, t) && v.runs[t].phase.Trashing? && forall g :: !Enabled(v, TrashOne(t, g))
    ensures var v := After(w, steps); var r := v.runs[t];
      && (forall i :: i in r.phase.rows ==> i < |v.rows| && v.rows[i] == Row(r.tid, Some(r.phase.file)))
      && (Live(v.files, f) && v.files[f].tid == r.tid <==> f == r.phase.file)
  {
    hide Possible, After;
    RunKeeps(w, steps);
    var v := After(w, steps);
    assert !Enabled(v, TrashOne(t, f));
  }

  // ---------------------------------------------------------------- the loops, write by write

  lemma {:induction false} Extend(w: World, steps: seq<Step>, step: Step)
    requires Possible(w, steps) && Enabled(After(w, steps), step)
    ensures Possible(w, steps + [step]) && After(w, steps + [step]) == Apply(After(w, steps), step)
    decreases |steps|
  {
    hide Enabled, Apply;
    if steps == [] {
      assert (steps + [step])[1..] == [];
    } else {
      assert (steps + [step])[1..] == steps[1..] + [step];
      Extend(Apply(w, steps[0]), steps[1..], step);
    }
  }

  function LinkSteps(t: nat, n: nat): seq<Step> {
    if n == 0 then [] else LinkSteps(t, n - 1) + [WriteLink(t)]
  }

  /** The rows after the first n writes. */
  ghost predicate LinkedUpto(was: seq<Row>, now: seq<Row>, found: seq<nat>, n: nat, tid: Tid, file: FileId)
    requires n <= |found|
  {
    && |now| == |was|
    && forall i :: 0 <= i < |was| ==> now[i] == if i in found[..n] then Row(was[i].tid, Some(file)) else was[i]
  }

  lemma {:induction false} LinksSoFar(w: World, t: nat, n: nat)
    requires In(w, t) && w.runs[t].phase.Linking? && w.runs[t].phase.next == 0 && n <= |w.runs[t].phase.rows|
    requires RowsOf(w.rows, w.runs[t].tid, w.runs[t].phase.rows)
    ensures Possible(w, LinkSteps(t, n))
    ensures var p, v := w.runs[t].phase, After(w, LinkSteps(t, n));
      && LinkedUpto(w.rows, v.rows, p.rows, n, w.runs[t].tid, p.file)
      && In(v, t) && v.runs[t].phase == p.(next := n) && v.runs[t].tid == w.runs[t].tid
  {
    var p := w.runs[t].phase;
    if n > 0 {
      LinksSoFar(w, t, n - 1);
      var v := After(w, LinkSteps(t, n - 1));
      assert p.rows[n - 1] in p.rows;
      assert Enabled(v, WriteLink(t));
      Extend(w, LinkSteps(t, n - 1), WriteLink(t));
      assert p.rows[..n] == p.rows[..n - 1] + [p.rows[n - 1]];
    }
  }

  /** Linking row by row comes, undisturbed, to what the link loop does. */
  lemma LinkUndisturbed(w: World, t: nat)
    requires In(w, t) && w.runs[t].phase.Linking? && w.runs[t].phase.next == 0
    requires RowsOf(w.rows, w.runs[t].tid, w.runs[t].phase.rows)
    ensures var p := w.runs[t].phase;
      && Possible(w, LinkSteps(t, |p.rows|))
      && After(w, LinkSteps(t, |p.rows|)).rows == Linked(w.rows, w.runs[t].tid, p.file)
  {
    hide Possible, After;
    var p := w.runs[t].phase;
    LinksSoFar(w, t, |p.rows|);
    assert p.rows[..|p.rows|] == p.rows;
  }

  function TrashSteps(files: map<FileId, File>, t: nat, tid: Tid, keep: FileId, listed: seq<FileId>): seq<Step>
    requires forall f :: f in listed ==> f in files
  {
    if listed == [] then []
    else
      var before, f := TrashSteps(files, t, tid, keep, listed[..|listed| - 1]), listed[|listed| - 1];
      if files[f].tid == tid && f != keep then before + [TrashOne(t, f)] else before
  }

  /** So does trashing, over any list of live files. */
  lemma {:induction false} TrashUndisturbed(w: World, t: nat, listed: seq<FileId>)
    requires In(w, t) && w.runs[t].phase.Trashing? && (forall f :: f in listed ==> f in w.files && Live(w.files, f))
    requires forall i, j :: 0 <= i < j < |listed| ==> listed[i] != listed[j]
    ensures var r := w.runs[t];
      var steps := TrashSteps(w.files, t, r.tid, r.phase.file, listed);
      && Possible(w, steps) && After(w, steps) == w.(files := TrashedOthers(w.files, r.tid, r.phase.file, listed))
  {
    var r := w.runs[t];
    if listed != [] {
      var init, f := listed[..|listed| - 1], listed[|listed| - 1];
      assert listed == init + [f] && f in listed;
      TrashUndisturbed(w, t, init);
      TrashedOthersIs(w.files, r.tid, r.phase.file, init);
      var steps := TrashSteps(w.files, t, r.tid, r.phase.file, init);
      hide Possible, After, TrashedOthers;
      var v := After(w, steps);
      assert f !in init && v.files[f] == w.files[f];
      if w.files[f].tid == r.tid && f != r.phase.file { Extend(w, steps, TrashOne(t, f)); }
      TrashedLast(w.files, r.tid, r.phase.file, listed);
    }
  }

  lemma TrashedLast(files: map<FileId, File>, tid: Tid, keep: FileId, listed: seq<FileId>)
    requires listed != [] && forall f :: f in listed ==> f in files
    ensures var before, f := TrashedOthers(files, tid, keep, listed[..|listed| - 1]), listed[|listed| - 1];
      TrashedOthers(files, tid, keep, listed)
      == if f in before && before[f].tid == tid && f != keep then Trash(before, f) else before
  {
  }

  // ---------------------------------------------------------------- the relink outside the exclusion

  /** The regeneration worker links a file it generated earlier, after its run has let the exclusion go. */
  function Relinked(w: World, tid: Tid, file: FileId): World {
    w.(rows := Linked(w.rows, tid, file))
  }

  /** That is safe exactly while the file is still live. */
  lemma RelinkSafeWhileLive(w: World, tid: Tid, file: FileId)
    requires Inv(w) && file in w.files && w.files[file].tid == tid
    requires exists i :: 0 <= i < |w.rows| && w.rows[i].tid == tid
    ensures NoDeadLink(Relinked(w, tid, file)) <==> Live(w.files, file)
  {
    var i :| 0 <= i < |w.rows| && w.rows[i].tid == tid;
    var v := Relinked(w, tid, file);
    assert v.rows[i].link == Some(file);
  }

  lemma Prepend(w: World, step: Step, v: World, rest: seq<Step>)
    requires Enabled(w, step) && Apply(w, step) == v && Possible(v, rest)
    ensures Possible(w, [step] + rest) && After(w, [step] + rest) == After(v, rest)
  {
    assert ([step] + rest)[1..] == rest;
  }

  /** A second run in between trashes the worker's file, and its relink leaves a dead link. */
  lemma RelinkAfterAnotherRun() returns (w: World, steps: seq<Step>)
    ensures Initial(w) && Possible(w, steps)
    ensures var v := After(w, steps);
      1 in v.files && v.files[1].tid == 5 && v.runs.Keys == {2} && !NoDeadLink(Relinked(v, 5, 1))
  {
    w := World(1, [], map[], map[], map[], 0);
    var middle := World(1, [Row(5, None)], map[1 := File(5, false)], map[], map[], 2);
    var rest;
    rest := SecondRun(middle);
    steps := FirstRun(w, middle, rest);
  }

  lemma FirstRun(w: World, middle: World, rest: seq<Step>) returns (steps: seq<Step>)
    requires w == World(1, [], map[], map[], map[], 0)
    requires middle == World(1, [Row(5, None)], map[1 := File(5, false)], map[], map[], 2) && Possible(middle, rest)
    ensures Possible(w, steps) && After(w, steps) == After(middle, rest)
  {
    hide Possible, After, NoDeadLink;
    var v1 := World(1, [], map[], map[5 := Exclusion(1, 0)], map[0 := Run(1, 1, 5, Acquired)], 1);
    var v2 := v1.(files := map[1 := File(5, false)], runs := map[0 := Run(1, 1, 5, Generated(1))], nextName := 2);
    var v3 := middle.(rows := []);
    Prepend(v3, Append(5), middle, rest);
    Prepend(v2, Stop(0), v3, [Append(5)] + rest);
    Prepend(v1, Generate(0), v2, [Stop(0)] + ([Append(5)] + rest));
    Prepend(w, Start(5, 1, 1), v1, [Generate(0)] + ([Stop(0)] + ([Append(5)] + rest)));
    steps := [Start(5, 1, 1)] + ([Generate(0)] + ([Stop(0)] + ([Append(5)] + rest)));
  }

  lemma SecondRun(w: World) returns (steps: seq<Step>)
    requires w == World(1, [Row(5, None)], map[1 := File(5, false)], map[], map[], 2)
    ensures Possible(w, steps)
    ensures var v := After(w, steps);
      1 in v.files && v.files[1].tid == 5 && v.runs.Keys == {2} && !NoDeadLink(Relinked(v, 5, 1))
  {
    hide Possible, After, NoDeadLink, Relinked;
    var v1 := w.(exclusions := map[5 := Exclusion(1, 2)], runs := map[2 := Run(1, 1, 5, Acquired)], nextName := 3);
    var v2 := v1.(files := map[1 := File(5, false), 3 := File(5, false)], runs := map[2 := Run(1, 1, 5, Generated(3))],
                  nextName := 4);
    steps := SecondRunLinks(v2);
    Prepend(v1, Generate(2), v2, steps);
    Prepend(w, Start(5, 1, 1), v1, [Generate(2)] + steps);
    steps := [Start(5, 1, 1)] + ([Generate(2)] + steps);
  }

  lemma SecondRunLinks(w: World) returns (steps: seq<Step>)
    requires w == World(1, [Row(5, None)], map[1 := File(5, false), 3 := File(5, false)], map[5 := Exclusion(1, 2)],
                        map[2 := Run(1, 1, 5, Generated(3))], 4)
    ensures Possible(w, steps)
    ensures var v := After(w, steps);
      1 in v.files && v.files[1].tid == 5 && v.runs.Keys == {2} && !NoDeadLink(Relinked(v, 5, 1))
  {
    hide Possible, After, NoDeadLink, Relinked;
    var v1 := w.(runs := map[2 := Run(1, 1, 5, Linking(3, [0], 0))]);
    var v2 := v1.(rows := [Row(5, Some(3))], runs := map[2 := Run(1, 1, 5, Linking(3, [0], 1))]);
    steps := SecondRunTrashes(v2);
    Prepend(v1, WriteLink(2), v2, steps);
    Prepend(w, ReadRows(2, [0]), v1, [WriteLink(2)] + steps);
    steps := [ReadRows(2, [0])] + ([WriteLink(2)] + steps);
  }

  lemma SecondRunTrashes(w: World) returns (steps: seq<Step>)
    requires w == World(1, [Row(5, Some(3))], map[1 := File(5, false), 3 := File(5, false)], map[5 := Exclusion(1, 2)],
                        map[2 := Run(1, 1, 5, Linking(3, [0], 1))], 4)
    ensures Possible(w, steps)
    ensures var v := After(w, steps);
      1 in v.files && v.files[1].tid == 5 && v.runs.Keys == {2} && !NoDeadLink(Relinked(v, 5, 1))
  {
    var v1 := w.(runs := map[2 := Run(1, 1, 5, Trashing(3, [0]))]);
    var v2 := v1.(files := map[1 := File(5, true), 3 := File(5, false)]);
    assert Possible(v2, []) && After(v2, []) == v2;
    assert Relinked(v2, 5, 1).rows[0].link == Some(1);
    hide Possible, After;
    Prepend(v1, TrashOne(2, 1), v2, []);
    Prepend(w, Verify(2), v1, [TrashOne(2, 1)] + []);
    steps := [Verify(2)] + ([TrashOne(2, 1)] + []);
  }

  // ---------------------------------------------------------------- a killed run lets go in the end

  ghost predicate Reaches(w: World, v: World) {
    exists steps :: Possible(w, steps) && After(w, steps) == v
  }

  lemma ReachStart(w: World)
    ensures Reaches(w, w)
  {
    assert Possible(w, []) && After(w, []) == w;
  }

  lemma Reach(w: World, v: World, step: Step)
    requires Reaches(w, v) && Enabled(v, step)
    ensures Reaches(w, Apply(v, step))
  {
    var steps :| Possible(w, steps) && After(w, steps) == v;
    Extend(w, steps, step);
  }

  /** A run is killed after six minutes; nine minutes after it began another can start, and its end frees the trade. */
  lemma KilledRunLetsGo() returns (w: World, u: World, v: World)
    ensures w == World(1, [], map[], map[], map[], 0) && Initial(w) && Reaches(w, u) && Reaches(w, v)
    ensures u == World(1 + EXCLUSION, [], map[], map[5 := Exclusion(1, 0)], map[], 1)
    ensures v == World(1 + EXCLUSION, [], map[], map[], map[], 2)
  {
    hide Reaches;
    w := World(1, [], map[], map[], map[], 0);
    ReachStart(w);
    v := w;
    Reach(w, v, Start(5, 1, 1));
    v := Apply(v, Start(5, 1, 1));
    Reach(w, v, Tick(EXECUTION));
    v := Apply(v, Tick(EXECUTION));
    Reach(w, v, Kill(0));
    v := Apply(v, Kill(0));
    Reach(w, v, Tick(EXCLUSION - EXECUTION));
    v := Apply(v, Tick(EXCLUSION - EXECUTION));
    u := v;
    v := SuccessorStops(w, u);
  }

  lemma SuccessorStops(w: World, u: World) returns (v: World)
    requires Reaches(w, u) && u == World(1 + EXCLUSION, [], map[], map[5 := Exclusion(1, 0)], map[], 1)
    ensures Reaches(w, v) && v == World(1 + EXCLUSION, [], map[], map[], map[], 2)
  {
    hide Reaches;
    v := u;
    Reach(w, v, Start(5, 1 + EXCLUSION, 1 + EXCLUSION));
    v := Apply(v, Start(5, 1 + EXCLUSION, 1 + EXCLUSION));
    Reach(w, v, Stop(1));
    v := Apply(v, Stop(1));
  }
}
