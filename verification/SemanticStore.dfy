/** The store of AI review records while it moves from script properties to a Drive file
    (inventorySemanticStorage.js). A digest is modelled by the text it is taken of; files never change once
    created. Every call here runs under the script lock, so `points` lists all states a crash can leave. */
module SemanticStore {

  import opened Basics

  type Key = nat

  type Records = map<Key, string>

  datatype Result<T> = Ok(value: T) | Err

  /** A generation file: its records and whatever else tells its text from others. */
  datatype Payload = Payload(generation: nat, records: Records)

  datatype Manifest = Manifest(fileId: nat, payload: Payload, snapshot: Records, count: nat)

  datatype Observation = Observation(uid: nat, manifest: Manifest, snapshot: Records, count: nat)

  datatype Phase = Creating | Staged | Active

  datatype Proof = Proof(phase: Phase, generation: nat, snapshot: Records, count: nat, payload: Payload,
                         fileId: Option<nat>, manifest: Option<Manifest>, observation: Option<Observation>)

  /** Script properties, the two possible manifests, the bootstrap proof and the Drive files. */
  datatype Stored = Stored(legacy: Records, script: Option<Manifest>, document: Option<Manifest>,
                           proof: Option<Proof>, files: map<nat, Payload>)

  // ---------------------------------------------------------------- reading

  function Decode(files: map<nat, Payload>, m: Manifest): Result<Records> {
    if m.fileId !in files || files[m.fileId] != m.payload then Err
    else
      var records := files[m.fileId].records;
      if |records| != m.count || records != m.snapshot then Err else Ok(records)
  }

  predicate Agrees(legacy: Records, records: Records) {
    forall k :: k in legacy ==> k in records && records[k] == legacy[k]
  }

  /** `inventorySemanticStorageState_` read afresh, by an execution that may lack the document context. */
  function Load(s: Stored, hasDocument: bool): Result<Records> {
    var document := if hasDocument then s.document else None;
    if s.script.Some? && document.Some? && s.script != document then Err
    else
      var manifest := if s.script.Some? then s.script else document;
      if !hasDocument && manifest.None? && s.legacy == map[] then Err
      else if manifest.None? then Ok(s.legacy)
      else
        var records := Decode(s.files, manifest.value);
        if records.Err? || !Agrees(s.legacy, records.value) then Err else records
  }

  // ---------------------------------------------------------------- what every state keeps

  predicate Carries(files: map<nat, Payload>, m: Manifest, truth: Records) {
    && m.fileId in files && files[m.fileId] == m.payload && m.payload.records == truth
    && m.snapshot == truth && m.count == |truth|
  }

  predicate ProofSound(s: Stored, p: Proof, truth: Records) {
    match p.phase
    case Creating =>
      && p.snapshot == truth && p.payload.records == truth && p.count == |truth|
      && (p.fileId.Some? ==> p.fileId.value in s.files && s.files[p.fileId.value] == p.payload)
      && (s.document.Some? ==> p.fileId == Some(s.document.value.fileId) && s.document.value.payload == p.payload)
    case Staged => s.document.Some? && p.manifest == s.document && p.snapshot == truth
    case Active => s.document.Some? && s.legacy == map[]
  }

  /** The records of the store are `truth`. */
  predicate Sound(s: Stored, truth: Records) {
    && (s.script.None? || s.document.None?)
    && (s.script.Some? ==> s.proof.None? && Carries(s.files, s.script.value, truth))
    && (s.document.Some? ==> s.proof.Some? && Carries(s.files, s.document.value, truth))
    && (s.script.None? && s.document.None? ==> s.legacy == truth)
    && Agrees(s.legacy, truth)
    && (s.proof.Some? ==> ProofSound(s, s.proof.value, truth))
  }

  /** What a manifest has to vouch for: an unchanged file whose records are as many and the same as it says, and hold
      whatever is left in the script properties. */
  ghost predicate Vouched(s: Stored, m: Manifest, records: Records) {
    && m.fileId in s.files && s.files[m.fileId] == m.payload && m.payload.records == records
    && m.snapshot == records && m.count == |records|
    && forall k :: k in s.legacy ==> k in records && records[k] == s.legacy[k]
  }

  /** Whatever state the store is in, sound or damaged, a fresh read gives exactly the records its one manifest vouches
      for, or without a manifest the script properties, which must not be empty for a reader that cannot see the
      document. Everything else is refused. */
  lemma ReadIffVouched(s: Stored, hasDocument: bool, records: Records)
    ensures Load(s, hasDocument) == Ok(records) <==>
      var document := if hasDocument then s.document else None;
      && (s.script.Some? && document.Some? ==> s.script == document)
      && (s.script.Some? ==> Vouched(s, s.script.value, records))
      && (document.Some? ==> Vouched(s, document.value, records))
      && (s.script.None? && document.None? ==> records == s.legacy && (hasDocument || s.legacy != map[]))
  {
  }

  /** In every such state a fresh read with the document context succeeds and returns exactly the records. */
  lemma FreshReadIsTruth(s: Stored, truth: Records)
    requires Sound(s, truth)
    ensures Load(s, true) == Ok(truth)
  {
  }

  /** An execution without the document context reads the records exactly while the script properties still hold
      them all or name a manifest; a reader that finds nothing there refuses instead. */
  lemma ReadWithoutDocument(s: Stored, truth: Records)
    requires Sound(s, truth)
    ensures Load(s, false) == Ok(truth) <==> s.script.Some? || (s.legacy == truth && truth != map[])
    ensures Load(s, false) == Err <==> s.script.None? && s.legacy == map[]
  {
  }

  /** What is stored after the legacy records of some keys have been deleted. */
  function Cleared(s: Stored, keys: seq<Key>): Stored {
    s.(legacy := s.legacy - set k | k in keys)
  }

  /** Once the clean-up has begun and before it has ended, such a reader takes part of the records for all of them. */
  lemma HalfCleanedMisleads(s: Stored, truth: Records, keys: seq<Key>, gone: Key, kept: Key)
    requires Sound(Cleared(s, keys), truth) && s.script.None?
    requires gone in keys && gone in truth && kept in s.legacy && kept !in keys
    ensures Load(Cleared(s, keys), false).Ok? && Load(Cleared(s, keys), false).value != truth
    ensures Load(Cleared(s, keys), false) == Ok(Cleared(s, keys).legacy)
  {
    ReadWithoutDocument(Cleared(s, keys), truth);
    assert kept in Cleared(s, keys).legacy;
  }

  // ---------------------------------------------------------------- the store

  /** The proof is about an earlier generation than the manifest. */
  predicate Superseded(m: Manifest, p: Proof, truth: Records) {
    p.phase == Active && !(p.manifest == Some(m) && p.snapshot == truth)
  }

  ghost predicate HoldsFile(files: map<nat, Payload>, id: nat, payload: Payload) {
    id in files && files[id] == payload
  }

  /** Without a manifest staging goes through unless it is unknown which file an earlier attempt created. */
  predicate Resumable(s: Stored, resume: Option<nat>, planned: Payload) {
    if s.proof.Some? && s.proof.value.fileId.Some? then resume.None? || resume == s.proof.value.fileId
    else if s.proof.Some? then resume.Some? && resume.value in s.files && s.files[resume.value] == s.proof.value.payload
    else resume.Some? ==> resume.value in s.files && s.files[resume.value] == planned
  }

  datatype Point = Point(s: Stored, truth: Records)

  /** From one state to the next a legacy record goes only if the manifest file holds the same value and a trigger
      has observed that manifest. */
  predicate DeletesSafely(s: Stored, t: Stored) {
    forall k :: k in s.legacy && k !in t.legacy ==>
      && s.document.Some? && s.document.value.fileId in s.files
      && k in s.files[s.document.value.fileId].records && s.files[s.document.value.fileId].records[k] == s.legacy[k]
      && s.proof.Some? && s.proof.value.observation.Some?
      && s.proof.value.observation.value.manifest == s.document.value
  }

  /** The points a call added: each sound, each deletion safe, the last one the present. */
  ghost predicate Safe(past: seq<Point>, points: seq<Point>) {
    && 0 < |past| <= |points| && past == points[..|past|]
    && (forall i :: |past| <= i < |points| ==> Sound(points[i].s, points[i].truth))
    && (forall i :: |past| <= i < |points| ==> DeletesSafely(points[i - 1].s, points[i].s))
  }

  ghost predicate Unchanged(past: seq<Point>, points: seq<Point>, truth: Records) {
    |past| <= |points| && forall i :: |past| <= i < |points| ==> points[i].truth == truth
  }

  lemma AddPoint(past: seq<Point>, points: seq<Point>, t: Stored, truth: Records)
    requires Safe(past, points) && Sound(t, truth) && DeletesSafely(points[|points| - 1].s, t)
    ensures Safe(past, points + [Point(t, truth)])
  {
    hide Sound, DeletesSafely;
  }

  // ---------------------------------------------------------------- each write of staging

  function NewProof(generation: nat, truth: Records): Proof {
    Proof(Creating, generation, truth, |truth|, Payload(generation, truth), None, None, None)
  }

  lemma NewProofSound(s: Stored, truth: Records, generation: nat)
    requires Sound(s, truth) && s.script.None? && s.document.None? && s.proof.None?
    ensures Sound(s.(proof := Some(NewProof(generation, truth))), truth)
  {
  }

  lemma NewFileSound(s: Stored, truth: Records, id: nat, payload: Payload)
    requires Sound(s, truth) && id !in s.files
    ensures Sound(s.(files := s.files[id := payload]), truth) && DeletesSafely(s, s.(files := s.files[id := payload]))
  {
  }

  predicate IsCreating(s: Stored) {
    s.script.None? && s.document.None? && s.proof.Some? && s.proof.value.phase == Creating
  }

  lemma FileIdSound(s: Stored, truth: Records, id: nat)
    requires Sound(s, truth) && IsCreating(s) && id in s.files && s.files[id] == s.proof.value.payload
    ensures Sound(s.(proof := Some(s.proof.value.(fileId := Some(id)))), truth)
  {
  }

  function Planned(p: Proof, id: nat): Manifest {
    Manifest(id, p.payload, p.snapshot, p.count)
  }

  lemma DecodesExactly(s: Stored, truth: Records, id: nat)
    requires Sound(s, truth) && IsCreating(s)
    ensures Decode(s.files, Planned(s.proof.value, id)).Ok? <==> id in s.files && s.files[id] == s.proof.value.payload
  {
  }

  lemma DocumentSound(s: Stored, truth: Records)
    requires Sound(s, truth) && IsCreating(s) && s.proof.value.fileId.Some?
    ensures Sound(s.(document := Some(Planned(s.proof.value, s.proof.value.fileId.value))), truth)
  {
  }

  lemma StagedSound(s: Stored, truth: Records)
    requires Sound(s, truth) && s.document.Some? && s.proof.Some? && s.proof.value.phase == Creating
    ensures Sound(s.(proof := Some(s.proof.value.(phase := Staged, manifest := s.document))), truth)
  {
  }

  /** The keys of some records, each once. */
  ghost predicate Lists(keys: seq<Key>, records: Records) {
    && (forall k :: k in keys <==> k in records)
    && forall i, j :: 0 <= i < j < |keys| ==> keys[i] != keys[j]
  }

  lemma ClearedNext(s: Stored, keys: seq<Key>, i: nat)
    requires i < |keys| && Lists(keys, s.legacy)
    ensures keys[i] in Cleared(s, keys[..i]).legacy
    ensures Cleared(s, keys[..i + 1])
            == Cleared(s, keys[..i]).(legacy := Cleared(s, keys[..i]).legacy - {keys[i]})
  {
    assert keys[..i + 1] == keys[..i] + [keys[i]];
    assert keys[i] in keys && keys[i] !in keys[..i];
  }

  lemma PassesNext(s: Stored, keys: seq<Key>, i: nat, truth: Records, points: seq<Point>)
    requires i < |keys| && Sound(Cleared(s, keys[..i + 1]), truth)
    requires forall j :: 0 <= j <= i ==> Passes(s, keys[..j], truth, points)
    ensures forall j :: 0 <= j <= i + 1 ==>
              Passes(s, keys[..j], truth, points + [Point(Cleared(s, keys[..i + 1]), truth)])
  {
    hide Sound, Cleared;
  }

  lemma AllCleared(s: Stored, keys: seq<Key>)
    requires Lists(keys, s.legacy)
    ensures Cleared(s, keys[..|keys|]).legacy == map[]
  {
    assert keys[..|keys|] == keys;
  }

  lemma PassesStart(s: Stored, keys: seq<Key>, truth: Records, points: seq<Point>)
    requires Sound(s, truth) && points != [] && points[|points| - 1] == Point(s, truth)
    ensures Passes(s, keys[..0], truth, points)
  {
    assert Cleared(s, keys[..0]) == s;
  }

  /** A crash can leave the store with just these keys deleted. */
  ghost predicate Passes(s: Stored, gone: seq<Key>, truth: Records, points: seq<Point>) {
    Sound(Cleared(s, gone), truth) && Point(Cleared(s, gone), truth) in points
  }

  class Store {
    var legacy: Records
    var script: Option<Manifest>
    var document: Option<Manifest>
    var proof: Option<Proof>
    var files: map<nat, Payload>
    ghost var truth: Records
    ghost var points: seq<Point>

    ghost function View(): Stored
      reads this
    {
      Stored(legacy, script, document, proof, files)
    }

    ghost predicate Valid()
      reads this
    {
      Sound(View(), truth) && 0 < |points| && points[|points| - 1] == Point(View(), truth)
    }

    /** The points since `past`, all with the same records as now. */
    ghost predicate Kept(past: seq<Point>)
      reads this
    {
      Safe(past, points) && Unchanged(past, points, truth)
    }

    method SetProof(p: Proof, ghost past: seq<Point>)
      requires Valid() && Sound(View().(proof := Some(p)), truth) && Kept(past)
      modifies this`proof, this`points
      ensures Valid() && View() == old(View()).(proof := Some(p)) && Kept(past)
      ensures points == old(points) + [Point(View(), truth)]
    {
      proof := Some(p);
      AddPoint(past, points, View(), truth);
      points := points + [Point(View(), truth)];
    }

    method CreateFile(id: nat, payload: Payload, ghost past: seq<Point>)
      requires Valid() && id !in files && Kept(past)
      modifies this`files, this`points
      ensures Valid() && View() == old(View()).(files := old(files)[id := payload]) && Kept(past)
    {
      NewFileSound(View(), truth, id, payload);
      files := files[id := payload];
      AddPoint(past, points, View(), truth);
      points := points + [Point(View(), truth)];
    }

    method SetDocument(m: Manifest, ghost past: seq<Point>)
      requires Valid() && Sound(View().(document := Some(m)), truth) && Kept(past)
      modifies this`document, this`points
      ensures Valid() && View() == old(View()).(document := Some(m)) && Kept(past)
    {
      document := Some(m);
      AddPoint(past, points, View(), truth);
      points := points + [Point(View(), truth)];
    }

    /** The records a fresh read finds. */
    function Found(): (r: Records)
      requires Load(Stored(legacy, script, document, proof, files), true).Ok?
      reads this
    {
      Load(Stored(legacy, script, document, proof, files), true).value
    }

    /** Staging when a manifest is there already: a proof cut short just before its last write is completed. */
    method Restage(ghost past: seq<Point>) returns (ok: bool)
      requires Valid() && document.Some? && Kept(past)
      modifies this`proof, this`points
      ensures Valid() && Kept(past) && View() == old(View()).(proof := proof)
      ensures proof.Some? && proof.value.phase != Creating
      ensures ok <==> !Superseded(document.value, old(proof).value, truth)
      ensures ok <==> (old(proof).value.phase == Active ==>
                         old(proof).value.manifest == document && old(proof).value.snapshot == truth)
    {
      hide Safe, Unchanged;
      FreshReadIsTruth(View(), truth);
      var m, p, records := document.value, proof.value, Found();
      if p.phase == Creating && p.fileId == Some(m.fileId) && p.payload == m.payload && p.snapshot == records
         && p.count == m.count {
        StagedSound(View(), truth);
        SetProof(p.(phase := Staged, manifest := Some(m)), past);
      }
      return proof.value.manifest == Some(m) && proof.value.snapshot == records;
    }

    /** The last two writes of staging. */
    method PointAtFile(ghost past: seq<Point>)
      requires Valid() && Kept(past) && IsCreating(View()) && proof.value.fileId.Some?
      modifies this`proof, this`document, this`points
      ensures Valid() && Kept(past) && document.Some? && proof.Some? && proof.value.phase == Staged
    {
      hide Safe, Unchanged, Sound, Kept;
      DocumentSound(View(), truth);
      SetDocument(Planned(proof.value, proof.value.fileId.value), past);
      StagedSound(View(), truth);
      SetProof(proof.value.(phase := Staged, manifest := document), past);
    }

    /** Staging from the legacy records, or from where an earlier attempt was cut short. A proof without a file needs
        the operator to name one. */
    method StageNew(resume: Option<nat>, generation: nat, newFile: nat, ghost past: seq<Point>) returns (ok: bool)
      requires Valid() && script.None? && document.None? && newFile !in files && Kept(past)
      modifies this`proof, this`document, this`files, this`points
      ensures Valid() && Kept(past)
      ensures ok <==> Resumable(old(View()), resume, Payload(generation, truth))
      ensures ok <==>
        match old(proof)
        case None => resume.Some? ==> HoldsFile(old(files), resume.value, Payload(generation, truth))
        case Some(p) =>
          if p.fileId.Some? then resume == None || resume == p.fileId
          else resume.Some? && HoldsFile(old(files), resume.value, p.payload)
      ensures ok ==> document.Some? && proof.Some? && proof.value.phase == Staged
    {
      hide Safe, Unchanged, Sound, Decode, Kept, Load;
      FreshReadIsTruth(View(), truth);
      var records := Found();
      var createdNow := false;
      if proof.Some? { CreatingOnly(View(), truth); }
      if proof.None? {
        NewProofSound(View(), truth, generation);
        SetProof(NewProof(generation, records), past);
        createdNow := true;
      }
      if proof.value.phase != Creating || proof.value.snapshot != records { return false; }
      if proof.value.fileId.Some? && resume.Some? && proof.value.fileId != resume { return false; }
      var fileId := if proof.value.fileId.Some? then proof.value.fileId else resume;
      if fileId.None? {
        if !createdNow { return false; }
        fileId := Some(newFile);
        CreateFile(newFile, proof.value.payload, past);
        FileIdSound(View(), truth, newFile);
        SetProof(proof.value.(fileId := fileId), past);
      }
      DecodesExactly(View(), truth, fileId.value);
      CreatedFileThere(View(), truth);
      if Decode(files, Planned(proof.value, fileId.value)).Err? { return false; }
      if proof.value.fileId.None? {
        FileIdSound(View(), truth, fileId.value);
        SetProof(proof.value.(fileId := fileId), past);
      }
      PointAtFile(past);
      return true;
    }

    /** `migrateInventorySemanticStorage` in phase `stage`: no record changes and no legacy record goes. */
    method Stage(expected: Records, resume: Option<nat>, generation: nat, newFile: nat, publicOk: bool)
      returns (ok: bool)
      requires Valid() && newFile !in files
      modifies this`proof, this`document, this`files, this`points
      ensures Valid() && Safe(old(points), points) && Unchanged(old(points), points, truth)
      ensures ok ==> document.Some? && proof.Some? && proof.value.phase != Creating
      ensures ok && old(document).None? ==> proof.value.phase == Staged
      ensures ok <==>
        && old(script).None? && expected == truth && truth != map[] && publicOk
        && (if old(document).Some? then !Superseded(old(document).value, old(proof).value, truth)
            else Resumable(old(View()), resume, Payload(generation, truth)))
      ensures ok && old(document).Some? && old(proof).value.phase == Active ==>
                old(proof).value.manifest == old(document) && old(proof).value.snapshot == truth
      ensures ok && old(document).None? && old(proof).Some? && old(proof).value.fileId.None? ==>
                resume.Some? && HoldsFile(old(files), resume.value, old(proof).value.payload)
    {
      FreshReadIsTruth(View(), truth);
      if script.Some? || expected != Found() || expected == map[] || !publicOk { return false; }
      hide Sound, Safe, Unchanged;
      assert Kept(points) by { StartsSafe(points, truth); }
      if document.Some? {
        ok := Restage(points);
      } else {
        ok := StageNew(resume, generation, newFile, points);
      }
    }

    /** The minute trigger notes that it has read this generation. */
    method Observe(uid: nat) returns (ok: bool)
      requires Valid()
      modifies this`proof, this`points
      ensures Valid() && Safe(old(points), points) && Unchanged(old(points), points, truth)
      ensures ok <==> old(document).Some? && truth != map[] && old(proof).value.phase == Staged
      ensures if ok then proof.Some?
                         && proof.value.observation == Some(Observation(uid, document.value, truth, |truth|))
                         && proof.value == old(proof).value.(observation := proof.value.observation)
              else proof == old(proof)
    {
      FreshReadIsTruth(View(), truth);
      var records := Found();
      if proof.None? || proof.value.phase != Staged || script.Some? || document.None? || records == map[]
         || proof.value.manifest != document || proof.value.snapshot != records {
        return false;
      }
      ObservedSound(View(), truth, Observation(uid, document.value, records, |records|));
      hide Sound, Safe, Unchanged;
      assert Kept(points) by { StartsSafe(points, truth); }
      SetProof(proof.value.(observation := Some(Observation(uid, document.value, records, |records|))), points);
      return true;
    }

    method DropLegacy(key: Key, ghost past: seq<Point>)
      requires Valid() && key in legacy && Observed(View(), truth) && Kept(past)
      modifies this`legacy, this`points
      ensures Valid() && View() == old(View()).(legacy := old(legacy) - {key}) && Kept(past) && Observed(View(), truth)
      ensures points == old(points) + [Point(View(), truth)]
    {
      DropSound(View(), truth, key);
      legacy := legacy - {key};
      AddPoint(past, points, View(), truth);
      points := points + [Point(View(), truth)];
    }

    /** The deletion loop of finalizing. */
    method DropAll(keys: seq<Key>, ghost past: seq<Point>)
      requires Valid() && Observed(View(), truth) && Kept(past) && Lists(keys, legacy)
      modifies this`legacy, this`points
      ensures Valid() && Kept(past) && legacy == map[]
      ensures forall i :: 0 <= i <= |keys| ==> Passes(old(View()), keys[..i], truth, points)
    {
      ghost var was := View();
      assert Cleared(was, keys[..0]) == was;
      hide Safe, Unchanged, Load, Decode, Agrees, Sound, Observed, Cleared, Lists, Passes;
      PassesStart(was, keys, truth, points);
      var i := 0;
      while i < |keys|
        invariant 0 <= i <= |keys| && Valid() && Kept(past) && Observed(View(), truth)
        invariant View() == Cleared(was, keys[..i])
        invariant forall j :: 0 <= j <= i ==> Passes(was, keys[..j], truth, points)
      {
        ClearedNext(was, keys, i);
        ghost var before := points;
        DropLegacy(keys[i], past);
        PassesNext(was, keys, i, truth, before);
        i := i + 1;
      }
      AllCleared(was, keys);
    }

    /** The checks before anything is deleted. */
    method MayFinalize(expected: Records, manifest: Manifest, installed: bool, publicOk: bool) returns (ok: bool)
      requires Valid()
      ensures ok <==>
        && script.None? && expected == truth && truth != map[] && publicOk && installed
        && document == Some(manifest) && Observed(View(), truth)
      ensures ok <==>
        && script.None? && expected == truth && truth != map[] && publicOk && installed && document == Some(manifest)
        && match proof
           case None => false
           case Some(p) =>
             && p.manifest == Some(manifest) && p.snapshot == truth
             && match p.observation
                case None => false
                case Some(o) => o.manifest == manifest && o.snapshot == truth && o.count == |truth|
    {
      FreshReadIsTruth(View(), truth);
      var records := Found();
      if script.Some? || expected != records || records == map[] || !publicOk { return false; }
      if document != Some(manifest) || proof.None? || proof.value.manifest != document
          || proof.value.snapshot != records
         || proof.value.observation.None? {
        return false;
      }
      var observation := proof.value.observation.value;
      if Some(observation.manifest) != proof.value.manifest || observation.snapshot != records
         || observation.count != |records| || !installed {
        return false;
      }
      return true;
    }

    /** `migrateInventorySemanticStorage` in phase `finalize`, over the legacy keys in some order; it passes through
        every state between them. */
    method Finalize(expected: Records, manifest: Manifest, installed: bool, publicOk: bool, keys: seq<Key>)
      returns (ok: bool)
      requires Valid() && Lists(keys, legacy)
      modifies this`legacy, this`proof, this`points
      ensures Valid() && Safe(old(points), points) && Unchanged(old(points), points, truth)
      ensures ok <==>
        && old(script).None? && expected == truth && truth != map[] && publicOk && installed
        && old(document) == Some(manifest) && Observed(old(View()), truth)
      ensures ok ==> old(proof).Some? && old(proof).value.observation.Some?
      ensures ok ==> old(proof).value.manifest == Some(manifest) && old(proof).value.snapshot == truth
                     && old(proof).value.observation.value.manifest == manifest
                     && old(proof).value.observation.value.snapshot == truth
                     && old(proof).value.observation.value.count == |truth|
      ensures if ok then legacy == map[] && proof.value.phase == Active else View() == old(View())
      ensures ok ==> forall i :: 0 <= i <= |keys| ==> Passes(old(View()), keys[..i], truth, points)
    {
      ok := MayFinalize(expected, manifest, installed, publicOk);
      assert Safe(points, points) && Unchanged(points, points, truth) by { StartsSafe(points, truth); }
      if !ok { return; }
      ghost var past, was := points, View();
      hide Sound, Safe, Unchanged, Load, Decode, Agrees, Passes, Observed;
      DropAll(keys, past);
      ghost var before := points;
      ActiveSound(View(), truth);
      SetProof(proof.value.(phase := Active), past);
      PassesLater(was, keys, truth, before, points);
    }

    /** Reviews while nothing has been staged: one legacy record after the other. */
    method WriteLegacy(reviews: seq<(Key, string)>, records: Records, ghost past: seq<Point>)
      requires Valid() && script.None? && document.None? && proof.None? && records == Merged(truth, reviews)
      requires Safe(past, points) && past == points
      modifies this`legacy, this`truth, this`points
      ensures Valid() && Safe(past, points) && truth == records
      ensures Between(past, points, old(truth), records)
    {
      assert Upto(truth, truth, records, reviews[..0]);
      assert forall j :: 0 <= j < |reviews| ==> Named(reviews, reviews[j].0);
      hide Safe, Load, Named, Sound, DeletesSafely, Between, Upto, Merged, ValueOf;
      ghost var was := truth;
      BetweenNow(points, was, records);
      var i := 0;
      while i < |reviews|
        invariant 0 <= i <= |reviews| && Valid() && Safe(past, points) && Between(past, points, was, records)
        invariant script.None? && document.None? && proof.None?
        invariant Upto(truth, was, records, reviews[..i])
      {
        var key := reviews[i].0;
        MergedAt(was, reviews, key);
        UptoNext(truth, was, records, reviews, i);
        UptoBetween(truth[key := records[key]], was, records, reviews[..i + 1]);
        LegacySetSound(View(), truth, key, records[key]);
        legacy := legacy[key := records[key]];
        truth := legacy;
        AddPoint(past, points, View(), truth);
        BetweenAdd(past, points, Point(View(), truth), was, records);
        points := points + [Point(View(), truth)];
        i := i + 1;
      }
      assert reviews[..i] == reviews;
      UptoAll(truth, was, records, reviews);
    }

    /** `inventorySemanticStorageCommit_`: a new generation file, read back, then one switch of the manifest. */
    method Commit(records: Records, generation: nat, newFile: nat, ghost past: seq<Point>)
      requires Valid() && newFile !in files && Safe(past, points) && past == points
      requires legacy == map[] && (script.Some? || document.Some?)
      requires document.Some? ==> proof.Some? && proof.value.phase == Active
      modifies this
      ensures Valid() && Safe(past, points) && truth == records && legacy == map[] && proof == old(proof)
      ensures Between(past, points, old(truth), records)
    {
      hide Safe, Sound, DeletesSafely, Between;
      ghost var was := truth;
      BetweenNow(points, was, records);
      var payload := Payload(generation, records);
      NewFileSound(View(), truth, newFile, payload);
      files := files[newFile := payload];
      AddPoint(past, points, View(), truth);
      BetweenAdd(past, points, Point(View(), truth), was, records);
      points := points + [Point(View(), truth)];
      var manifest := Manifest(newFile, payload, records, |records|);
      SwitchSound(View(), truth, manifest, records);
      if script.Some? { script := Some(manifest); } else { document := Some(manifest); }
      truth := records;
      AddPoint(past, points, View(), truth);
      BetweenAdd(past, points, Point(View(), truth), was, records);
      points := points + [Point(View(), truth)];
    }

    /** `inventorySemanticStorageWrite_`: refused from the start of staging until the clean-up is through. */
    method Write(reviews: seq<(Key, string)>, generation: nat, newFile: nat) returns (ok: bool)
      requires Valid() && newFile !in files
      modifies this
      ensures Valid() && Safe(old(points), points)
      ensures ok <==> Writable(old(View()))
      ensures ok <==>
        if old(script).None? && old(document).None? then old(proof).None?
        else old(legacy) == map[]
             && (old(document).Some? ==> old(proof).Some? && old(proof).value.phase == Active)
      ensures truth == if ok then Merged(old(truth), reviews) else old(truth)
      ensures ok ==> forall k :: Reviewed(old(truth), truth, reviews, k)
      ensures truth == old(truth) && (old(script).Some? || old(document).Some?) ==> View() == old(View())
      ensures Between(old(points), points, old(truth), Merged(old(truth), reviews))
    {
      FreshReadIsTruth(View(), truth);
      var found := Found();
      var records := Merged(found, reviews);
      assert Safe(points, points) by { StartsSafe(points, truth); }
      hide Safe, Load, Sound, Merged, Reviewed;
      forall k
        ensures Reviewed(found, records, reviews, k)
      {
        MergedAt(found, reviews, k);
      }
      if script.None? && document.None? {
        if proof.Some? { return false; }
        WriteLegacy(reviews, records, points);
        return true;
      }
      if legacy != map[] || (document.Some? && (proof.None? || proof.value.phase != Active)) { return false; }
      if records != found { Commit(records, generation, newFile, points); }
      return true;
    }

    /** The store before anything is staged. */
    constructor (records: Records)
      ensures Valid() && View() == Stored(records, None, None, None, map[]) && truth == records
    {
      legacy, script, document, proof, files := records, None, None, None, map[];
      truth, points := records, [Point(Stored(records, None, None, None, map[]), records)];
    }
  }

  /** A crash of finalizing after its first i deletions leaves such a point. */
  ghost predicate MisleadsAfter(points: seq<Point>, records: Records, keys: seq<Key>, i: nat)
    requires i <= |keys|
  {
    exists p :: p in points && Misleads(p, records, keys[..i])
  }

  /** The records are all there, but without the document context only those not yet deleted are read. */
  ghost predicate Misleads(p: Point, records: Records, gone: seq<Key>) {
    && p.truth == records && Load(p.s, true) == Ok(records)
    && Load(p.s, false) == Ok(records - set k | k in gone) && Load(p.s, false).value != records
  }

  /** A whole migration: staged, observed by a trigger, finalized. Wherever finalizing is cut short between its first
      and its last deletion, a reader without the document context gets only the records not yet deleted. */
  method WholeMigration(records: Records, keys: seq<Key>, generation: nat, file: nat, uid: nat) returns (store: Store)
    requires keys != [] && Lists(keys, records)
    ensures store.Valid() && store.truth == records && store.legacy == map[]
    ensures store.proof.Some? && store.proof.value.phase == Active
    ensures forall i :: 0 < i < |keys| ==> MisleadsAfter(store.points, records, keys, i)
  {
    hide Safe, Unchanged, Decode, Agrees, DeletesSafely, Superseded;
    assert keys[0] in records;
    store := new Store(records);
    var ok := store.Stage(records, None, generation, file, true);
    ok := store.Observe(uid);
    ghost var s := store.View();
    ObservedNow(s, records, uid);
    ok := store.Finalize(records, store.document.value, true, true, keys);
    hide Load, Sound, Passes, MisleadsAfter;
    forall i | 0 < i < |keys|
      ensures MisleadsAfter(store.points, records, keys, i)
    {
      CrashPointsMislead(s, records, keys, store.points, i);
    }
  }

  lemma PassesLater(s: Stored, keys: seq<Key>, truth: Records, points: seq<Point>, more: seq<Point>)
    requires points <= more && forall i :: 0 <= i <= |keys| ==> Passes(s, keys[..i], truth, points)
    ensures forall i :: 0 <= i <= |keys| ==> Passes(s, keys[..i], truth, more)
  {
    hide Sound;
    forall i | 0 <= i <= |keys|
      ensures Passes(s, keys[..i], truth, more)
    {
      assert Passes(s, keys[..i], truth, points);
    }
  }

  /** The crash points between the first and the last deletion. */
  lemma CrashPointsMislead(s: Stored, truth: Records, keys: seq<Key>, points: seq<Point>, i: nat)
    requires s.script.None? && s.legacy == truth && 0 < i < |keys| && Passes(s, keys[..i], truth, points)
    requires Lists(keys, truth)
    ensures MisleadsAfter(points, truth, keys, i)
  {
    var p := Point(Cleared(s, keys[..i]), truth);
    assert keys[..i][0] == keys[0] && keys[i] !in keys[..i];
    assert keys[0] in keys && keys[i] in keys;
    FreshReadIsTruth(p.s, truth);
    HalfCleanedMisleads(s, truth, keys[..i], keys[0], keys[i]);
  }

  lemma ObservedNow(s: Stored, truth: Records, uid: nat)
    requires Sound(s, truth) && s.document.Some? && s.proof.Some? && s.proof.value.phase == Staged
    requires s.proof.value.observation == Some(Observation(uid, s.document.value, truth, |truth|))
    ensures Observed(s, truth) && s.script.None?
  {
  }

  /** Every state on the way has each record old or new. */
  ghost predicate Between(past: seq<Point>, points: seq<Point>, was: Records, now: Records) {
    && |past| <= |points|
    && forall i, k :: |past| <= i < |points| ==> ValueOf(points[i].truth, k) in [ValueOf(was, k), ValueOf(now, k)]
  }

  lemma BetweenNow(points: seq<Point>, was: Records, now: Records)
    ensures Between(points, points, was, now)
  {
  }

  lemma BetweenAdd(past: seq<Point>, points: seq<Point>, p: Point, was: Records, now: Records)
    requires Between(past, points, was, now) && forall k :: ValueOf(p.truth, k) in [ValueOf(was, k), ValueOf(now, k)]
    ensures Between(past, points + [p], was, now)
  {
    hide ValueOf;
  }

  lemma LegacySetSound(s: Stored, truth: Records, key: Key, value: string)
    requires Sound(s, truth) && s.script.None? && s.document.None? && s.proof.None?
    ensures s.legacy == truth
    ensures var t := s.(legacy := s.legacy[key := value]); Sound(t, truth[key := value]) && DeletesSafely(s, t)
  {
  }

  /** Switching the manifest to a file that carries other records makes those the records of the store. */
  lemma SwitchSound(s: Stored, truth: Records, m: Manifest, records: Records)
    requires Sound(s, truth) && s.legacy == map[] && Carries(s.files, m, records)
    requires s.document.Some? ==> s.proof.Some? && s.proof.value.phase == Active
    ensures s.script.Some? ==> Sound(s.(script := Some(m)), records) && DeletesSafely(s, s.(script := Some(m)))
    ensures s.document.Some? ==> Sound(s.(document := Some(m)), records) && DeletesSafely(s, s.(document := Some(m)))
  {
  }

  predicate Named(reviews: seq<(Key, string)>, key: Key) {
    exists i :: 0 <= i < |reviews| && reviews[i].0 == key
  }

  lemma NamedNext(reviews: seq<(Key, string)>, i: nat)
    requires i < |reviews|
    ensures forall k :: Named(reviews[..i + 1], k) <==> Named(reviews[..i], k) || k == reviews[i].0
  {
    forall k
      ensures Named(reviews[..i + 1], k) <==> Named(reviews[..i], k) || k == reviews[i].0
    {
      if Named(reviews[..i], k) {
        var j :| 0 <= j < i && reviews[..i][j].0 == k;
        assert reviews[..i + 1][j].0 == k;
      }
      if k == reviews[i].0 { assert reviews[..i + 1][i].0 == k; }
      if Named(reviews[..i + 1], k) && k != reviews[i].0 {
        var j :| 0 <= j < i + 1 && reviews[..i + 1][j].0 == k;
        assert reviews[..i][j].0 == k;
      }
    }
  }

  /** The review at i is of the key, and no later one is. */
  ghost predicate LastReview(reviews: seq<(Key, string)>, i: int, key: Key) {
    0 <= i < |reviews| && reviews[i].0 == key && forall j :: i < j < |reviews| ==> reviews[j].0 != key
  }

  /** The records after some reviews: of a named key the text of its last review, of any other what was there. */
  ghost predicate Reviewed(was: Records, now: Records, reviews: seq<(Key, string)>, key: Key) {
    if Named(reviews, key)
    then exists i :: LastReview(reviews, i, key) && key in now && now[key] == reviews[i].1
    else (key in now <==> key in was) && (key in now ==> now[key] == was[key])
  }

  /** Merging reviews stores under each named key its last review, and leaves the other keys. */
  lemma {:induction false} MergedAt(records: Records, reviews: seq<(Key, string)>, key: Key)
    ensures Reviewed(records, Merged(records, reviews), reviews, key)
    decreases |reviews|
  {
    if reviews == [] {
    } else {
      var init, last := reviews[..|reviews| - 1], |reviews| - 1;
      MergedAt(records, init, key);
      NamedNext(reviews, last);
      assert reviews[..|reviews|] == reviews;
      if key == reviews[last].0 {
        assert LastReview(reviews, last, key);
      } else if Named(init, key) {
        var i :| LastReview(init, i, key) && Merged(records, init)[key] == init[i].1;
        assert LastReview(reviews, i, key);
      }
    }
  }

  /** The keys the reviews name have their final values, the others their old ones. */
  ghost predicate Upto(t: Records, was: Records, records: Records, reviews: seq<(Key, string)>) {
    forall k :: ValueOf(t, k) == if Named(reviews, k) then ValueOf(records, k) else ValueOf(was, k)
  }

  lemma UptoNext(t: Records, was: Records, records: Records, reviews: seq<(Key, string)>, i: nat)
    requires i < |reviews| && Upto(t, was, records, reviews[..i]) && reviews[i].0 in records
    ensures Upto(t[reviews[i].0 := records[reviews[i].0]], was, records, reviews[..i + 1])
  {
    NamedNext(reviews, i);
    hide Named;
  }

  lemma UptoBetween(t: Records, was: Records, records: Records, reviews: seq<(Key, string)>)
    requires Upto(t, was, records, reviews)
    ensures forall k :: ValueOf(t, k) in [ValueOf(was, k), ValueOf(records, k)]
  {
    hide ValueOf, Named;
  }

  lemma UptoAll(t: Records, was: Records, records: Records, reviews: seq<(Key, string)>)
    requires Upto(t, was, records, reviews) && records == Merged(was, reviews)
    ensures t == records
  {
    forall k
      ensures ValueOf(t, k) == ValueOf(records, k)
    {
      MergedAt(was, reviews, k);
    }
    SameRecords(t, records);
  }

  lemma SameRecords(a: Records, b: Records)
    requires forall k :: ValueOf(a, k) == ValueOf(b, k)
    ensures a == b
  {
    forall k
      ensures k in a <==> k in b
      ensures k in a ==> a[k] == b[k]
    {
      assert ValueOf(a, k) == ValueOf(b, k);
    }
  }

  function Merged(records: Records, reviews: seq<(Key, string)>): Records {
    if reviews == [] then records
    else Merged(records, reviews[..|reviews| - 1])[reviews[|reviews| - 1].0 := reviews[|reviews| - 1].1]
  }

  function ValueOf(records: Records, key: Key): Option<string> {
    if key in records then Some(records[key]) else None
  }

  predicate Writable(s: Stored) {
    if s.script.None? && s.document.None? then s.proof.None?
    else s.legacy == map[] && (s.document.Some? ==> s.proof.Some? && s.proof.value.phase == Active)
  }

  /** A trigger has observed the very manifest whose file carries the records. */
  predicate Observed(s: Stored, truth: Records) {
    && s.document.Some? && s.proof.Some? && s.proof.value.manifest == s.document && s.proof.value.snapshot == truth
    && s.proof.value.observation.Some?
    && var o := s.proof.value.observation.value;
       o.manifest == s.document.value && o.snapshot == truth && o.count == |truth|
  }

  lemma ObservedSound(s: Stored, truth: Records, o: Observation)
    requires Sound(s, truth) && s.proof.Some?
    ensures Sound(s.(proof := Some(s.proof.value.(observation := Some(o)))), truth)
  {
  }

  lemma DropSound(s: Stored, truth: Records, key: Key)
    requires Sound(s, truth) && Observed(s, truth) && key in s.legacy
    ensures Sound(s.(legacy := s.legacy - {key}), truth) && DeletesSafely(s, s.(legacy := s.legacy - {key}))
  {
  }

  lemma ActiveSound(s: Stored, truth: Records)
    requires Sound(s, truth) && s.document.Some? && s.proof.Some? && s.legacy == map[]
    ensures Sound(s.(proof := Some(s.proof.value.(phase := Active))), truth)
  {
  }

  lemma StartsSafe(points: seq<Point>, truth: Records)
    requires 0 < |points|
    ensures Safe(points, points) && Unchanged(points, points, truth)
  {
  }

  lemma CreatingOnly(s: Stored, truth: Records)
    requires Sound(s, truth) && s.script.None? && s.document.None? && s.proof.Some?
    ensures s.proof.value.phase == Creating && s.proof.value.snapshot == truth && s.proof.value.payload.records == truth
  {
  }

  lemma CreatedFileThere(s: Stored, truth: Records)
    requires Sound(s, truth) && IsCreating(s)
    ensures s.proof.value.fileId.Some? ==>
              s.proof.value.fileId.value in s.files && s.files[s.proof.value.fileId.value] == s.proof.value.payload
  {
  }
}
