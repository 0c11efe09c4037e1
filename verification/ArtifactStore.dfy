/**
 The artifact store and the Project RAG index.

 Artifacts are deduplicated by content hash within a project while every store call leaves its
 own provenance row. RAG documents carry a state, and a derived index is to hold exactly the
 approved ones. A failed transaction leaves nothing; what an operation commits separately is
 visible separately, and a crash may fall between two commits.
*/
module ArtifactStore {
  import opened Prelude

  // ---------------------------------------------------------------------------------------
  // Artifacts
  // ---------------------------------------------------------------------------------------

  datatype StoreCall = StoreCall(project: string, actor: string, content: string, producer: Option<string>,
                                 note: Option<string>)

  datatype Artifact = Artifact(id: nat, content: string, producer: Option<string>, note: Option<string>)

  datatype Provenance =
    Provenance(project: string, artifactId: nat, actor: string, producer: Option<string>, note: Option<string>)

  /** Artifacts by project and content hash, the next free id, and the provenance log. */
  datatype Store = Store(artifacts: map<(string, string), Artifact>, nextId: nat, log: seq<Provenance>)

  const EMPTY_STORE := Store(map[], 0, [])

  /** Empty content is refused and changes nothing. */
  function Put(st: Store, hash: string -> string, c: StoreCall): (Option<Artifact>, Store) {
    if c.content == "" then (None, st)
    else
      var key := (c.project, hash(c.content));
      var artifact :=
        if key in st.artifacts then st.artifacts[key] else Artifact(st.nextId, c.content, c.producer, c.note);
      (Some(artifact),
       Store(st.artifacts[key := artifact], if key in st.artifacts then st.nextId else st.nextId + 1,
             st.log + [Provenance(c.project, artifact.id, c.actor, c.producer, c.note)]))
  }

  function PutAll(hash: string -> string, calls: seq<StoreCall>): Store {
    if calls == [] then EMPTY_STORE else Put(PutAll(hash, Front(calls)), hash, Last(calls)).1
  }

  /** The calls that stored something. */
  function Accepted(calls: seq<StoreCall>): seq<StoreCall> {
    if calls == [] then []
    else Accepted(Front(calls)) + if Last(calls).content == "" then [] else [Last(calls)]
  }

  ghost predicate InjectiveOn(hash: string -> string, calls: seq<StoreCall>) {
    forall i, j :: 0 <= i < |calls| && 0 <= j < |calls| && hash(calls[i].content) == hash(calls[j].content) ==>
      calls[i].content == calls[j].content
  }

  function KeyOf(hash: string -> string, c: StoreCall): (string, string) {
    (c.project, hash(c.content))
  }

  /** Row i of the provenance log records accepted call i, and points at an artifact with
      that call's project and content. */
  ghost predicate RowRecords(st: Store, hash: string -> string, calls: seq<StoreCall>, i: nat)
    requires i < |calls| && i < |st.log|
  {
    var c, key := calls[i], KeyOf(hash, calls[i]);
    key in st.artifacts && hash(st.artifacts[key].content) == hash(c.content) &&
    st.log[i] == Provenance(c.project, st.artifacts[key].id, c.actor, c.producer, c.note)
  }

  ghost predicate WellStored(st: Store, hash: string -> string, calls: seq<StoreCall>) {
    |st.log| == |calls| &&
    (forall i :: 0 <= i < |calls| ==> RowRecords(st, hash, calls, i)) &&
    (forall k :: k in st.artifacts ==> exists i :: 0 <= i < |calls| && KeyOf(hash, calls[i]) == k) &&
    (forall k :: k in st.artifacts ==> st.artifacts[k].id < st.nextId) &&
    (forall k, l :: k in st.artifacts && l in st.artifacts && st.artifacts[k].id == st.artifacts[l].id ==> k == l)
  }

  lemma PutKeeps(st: Store, hash: string -> string, calls: seq<StoreCall>, c: StoreCall)
    requires WellStored(st, hash, calls) && c.content != ""
    ensures WellStored(Put(st, hash, c).1, hash, calls + [c])
  {
    var after, more := Put(st, hash, c).1, calls + [c];
    var key := KeyOf(hash, c);
    assert more[|calls|] == c;
    forall i | 0 <= i < |more|
      ensures RowRecords(after, hash, more, i)
    {
      if i < |calls| {
        assert RowRecords(st, hash, calls, i);
      } else if key in st.artifacts {
        var k :| 0 <= k < |calls| && KeyOf(hash, calls[k]) == key;
        assert RowRecords(st, hash, calls, k);
      }
    }
    forall k | k in after.artifacts
      ensures exists i :: 0 <= i < |more| && KeyOf(hash, more[i]) == k
    {
      if k in st.artifacts {
        var i :| 0 <= i < |calls| && KeyOf(hash, calls[i]) == k;
        assert KeyOf(hash, more[i]) == k;
      } else {
        assert KeyOf(hash, more[|calls|]) == k;
      }
    }
  }

  lemma {:induction false} StoreInvariant(hash: string -> string, calls: seq<StoreCall>)
    ensures WellStored(PutAll(hash, calls), hash, Accepted(calls))
  {
    if calls != [] {
      StoreInvariant(hash, Front(calls));
      if Last(calls).content != "" {
        PutKeeps(PutAll(hash, Front(calls)), hash, Accepted(Front(calls)), Last(calls));
      } else {
        assert Accepted(calls) == Accepted(Front(calls));
      }
    }
  }

  /** Deduplication shares content and never provenance: one provenance row per accepted call,
      in order, naming that call's project and actor; two rows name the same artifact exactly
      when project and content agree; and what a row names is what its call stored. */
  lemma DeduplicationKeepsProvenance(hash: string -> string, calls: seq<StoreCall>, i: nat, j: nat)
    requires InjectiveOn(hash, Accepted(calls))
    requires i < |Accepted(calls)| && j < |Accepted(calls)|
    ensures var st, done := PutAll(hash, calls), Accepted(calls);
            |st.log| == |done| && st.log[i].project == done[i].project && st.log[i].actor == done[i].actor &&
            (st.log[i].artifactId == st.log[j].artifactId <==>
              done[i].project == done[j].project && done[i].content == done[j].content)
  {
    var st, done := PutAll(hash, calls), Accepted(calls);
    StoreInvariant(hash, calls);
    assert RowRecords(st, hash, done, i) && RowRecords(st, hash, done, j);
  }

  /** A project holds one artifact per distinct content hash it stored, and no other. */
  lemma OneArtifactPerHash(hash: string -> string, calls: seq<StoreCall>)
    ensures PutAll(hash, calls).artifacts.Keys ==
            set i | 0 <= i < |Accepted(calls)| :: KeyOf(hash, Accepted(calls)[i])
  {
    var st, done := PutAll(hash, calls), Accepted(calls);
    StoreInvariant(hash, calls);
    forall i | 0 <= i < |done|
      ensures KeyOf(hash, done[i]) in st.artifacts
    {
      assert RowRecords(st, hash, done, i);
    }
  }

  /** Stored artifacts are immutable: a later call never replaces one. */
  lemma {:induction false} ArtifactsAreImmutable(hash: string -> string, calls: seq<StoreCall>, n: nat,
                                                 key: (string, string))
    requires n <= |calls| && key in PutAll(hash, calls[..n]).artifacts
    ensures key in PutAll(hash, calls).artifacts &&
            PutAll(hash, calls).artifacts[key] == PutAll(hash, calls[..n]).artifacts[key]
  {
    if n == |calls| {
      assert calls[..n] == calls;
    } else {
      assert Front(calls)[..n] == calls[..n];
      ArtifactsAreImmutable(hash, Front(calls), n, key);
    }
  }

  // ---------------------------------------------------------------------------------------
  // RAG documents and their index
  // ---------------------------------------------------------------------------------------

  datatype DocState = Candidate | Approved | Superseded | Archived

  datatype Doc = Doc(
    project: string,
    sourceType: string,
    sourceId: string,
    title: string,
    content: string,
    state: DocState,
    supersededBy: Option<nat>,
    indexVersion: Option<nat>)

  datatype Entry = Entry(project: string, title: string, content: string)

  /** Documents by id, the next free id, and the derived index. */
  datatype Rag = Rag(docs: map<nat, Doc>, nextId: nat, index: map<nat, Entry>)

  datatype RagOp =
    | Ingest(project: string, sourceType: string, sourceId: string, title: string, content: string,
             state: DocState, indexFails: bool)
    | Approve(project: string, id: nat, indexFails: bool)
    | Supersede(project: string, old_: nat, new_: nat)
    | Archive(project: string, id: nat)
    | Rebuild(project: string)

  function EntryOf(d: Doc): Entry {
    Entry(d.project, d.title, d.content)
  }

  predicate Holds(st: Rag, project: string, id: nat) {
    id in st.docs && st.docs[id].project == project
  }

  predicate Taken(st: Rag, project: string, sourceType: string, sourceId: string) {
    exists k | k in st.docs ::
      st.docs[k].project == project && st.docs[k].sourceType == sourceType && st.docs[k].sourceId == sourceId
  }

  /** Index and approve in one transaction. */
  function Activate(st: Rag, id: nat): Rag
    requires id in st.docs
  {
    var d := st.docs[id];
    st.(index := st.index[id := EntryOf(d)], docs := st.docs[id := d.(state := Approved, indexVersion := Some(1))])
  }

  function Unindex(st: Rag, id: nat): Rag {
    st.(index := st.index - {id})
  }

  predicate Belongs(d: Doc, project: string) {
    d.project == project && d.state == Approved
  }

  function Foreign(index: map<nat, Entry>, project: string): map<nat, Entry> {
    map k | k in index && index[k].project != project :: index[k]
  }

  function EntriesBelow(docs: map<nat, Doc>, project: string, n: nat): map<nat, Entry> {
    map k | k in docs && k < n && Belongs(docs[k], project) :: EntryOf(docs[k])
  }

  function VersionedBelow(docs: map<nat, Doc>, project: string, n: nat): map<nat, Doc> {
    map k | k in docs :: if k < n && Belongs(docs[k], project) then docs[k].(indexVersion := Some(1)) else docs[k]
  }

  /** Clear the project's entries and insert its approved documents with an id below n. */
  function RebuiltBelow(st: Rag, project: string, n: nat): Rag {
    st.(index := Foreign(st.index, project) + EntriesBelow(st.docs, project, n),
        docs := VersionedBelow(st.docs, project, n))
  }

  function RebuildIndex(st: Rag, project: string): Rag {
    RebuiltBelow(st, project, st.nextId)
  }

  /** The states an operation commits, in order; none when it is refused. */
  function Commits(st: Rag, op: RagOp): seq<Rag> {
    match op
    case Ingest(project, sourceType, sourceId, title, content, state, indexFails) =>
      if Strip(title) == "" || Strip(content) == "" || Taken(st, project, sourceType, sourceId) then []
      else
        var persisted := if state == Approved then Candidate else state;
        var id := st.nextId;
        var doc := Doc(project, sourceType, sourceId, Strip(title), content, persisted, None, None);
        var inserted := Rag(st.docs[id := doc],
                            id + 1, st.index);
        if state != Approved then [inserted]
        else if indexFails then [inserted, Unindex(inserted, id)]
        else [inserted, Activate(inserted, id)]
    case Approve(project, id, indexFails) =>
      if !Holds(st, project, id) || st.docs[id].state != Candidate || indexFails then []
      else [Activate(st, id)]
    case Supersede(project, o, n) =>
      if !Holds(st, project, o) then []
      else if !Holds(st, project, n) then [Unindex(st, o)]
      else
        var removed := Unindex(st, o);
        [removed, removed.(docs := st.docs[o := st.docs[o].(state := Superseded, supersededBy := Some(n))])]
    case Archive(project, id) =>
      if !Holds(st, project, id) then []
      else
        var removed := if id in st.index && st.index[id].project == project then Unindex(st, id) else st;
        [removed, removed.(docs := st.docs[id := st.docs[id].(state := Archived)])]
    case Rebuild(project) => [RebuildIndex(st, project)]
  }

  function After(st: Rag, op: RagOp): Rag {
    if Commits(st, op) == [] then st else Last(Commits(st, op))
  }

  /** Every index entry belongs to an approved, versioned document and repeats it. */
  ghost predicate Sound(st: Rag) {
    (forall k :: k in st.docs ==> k < st.nextId) &&
    (forall k :: k in st.index ==>
       k in st.docs && st.docs[k].state == Approved && st.index[k] == EntryOf(st.docs[k])) &&
    (forall k :: k in st.docs && st.docs[k].state == Approved ==> st.docs[k].indexVersion == Some(1))
  }

  /** And every approved document is in the index. */
  ghost predicate InAgreement(st: Rag) {
    Sound(st) && forall k :: k in st.docs && st.docs[k].state == Approved ==> k in st.index
  }

  lemma ActivateSound(st: Rag, id: nat)
    requires Sound(st) && id in st.docs
    ensures Sound(Activate(st, id))
    ensures InAgreement(st) ==> InAgreement(Activate(st, id))
  {
  }

  lemma UnindexSound(st: Rag, id: nat)
    requires Sound(st)
    ensures Sound(Unindex(st, id))
    ensures InAgreement(st) && (id !in st.docs || st.docs[id].state != Approved) ==> Unindex(st, id) == st
  {
    if InAgreement(st) && (id !in st.docs || st.docs[id].state != Approved) {
      assert st.index - {id} == st.index;
    }
  }

  lemma IngestSound(st: Rag, op: RagOp, i: nat)
    requires op.Ingest? && Sound(st) && i < |Commits(st, op)|
    ensures Sound(Commits(st, op)[i])
    ensures InAgreement(st) ==> InAgreement(After(st, op))
  {
    hide Activate;
    hide Unindex;
    hide Taken;
    var inserted := Commits(st, op)[0];
    assert Sound(inserted) && (InAgreement(st) ==> InAgreement(inserted));
    ActivateSound(inserted, st.nextId);
    UnindexSound(inserted, st.nextId);
  }

  lemma SupersedeSound(st: Rag, op: RagOp, i: nat)
    requires op.Supersede? && Sound(st) && i < |Commits(st, op)|
    ensures Sound(Commits(st, op)[i])
    ensures InAgreement(st) ==> (InAgreement(After(st, op)) <==> !LosesEntry(st, op))
  {
    UnindexSound(st, op.old_);
  }

  lemma ArchiveSound(st: Rag, op: RagOp, i: nat)
    requires op.Archive? && Sound(st) && i < |Commits(st, op)|
    ensures Sound(Commits(st, op)[i])
    ensures InAgreement(st) ==> InAgreement(After(st, op))
  {
    UnindexSound(st, op.id);
  }

  /** At every commit of every operation only approved documents are indexed. */
  lemma EveryCommitIsSound(st: Rag, op: RagOp, i: nat)
    requires Sound(st) && i < |Commits(st, op)|
    ensures Sound(Commits(st, op)[i])
  {
    match op
    case Ingest(_, _, _, _, _, _, _) => IngestSound(st, op, i);
    case Approve(_, id, _) =>
      hide Activate;
      ActivateSound(st, id);
    case Supersede(_, _, _) => SupersedeSound(st, op, i);
    case Archive(_, _) => ArchiveSound(st, op, i);
    case Rebuild(project) =>
      hide RebuiltBelow;
      RebuildRepairs(st, project, 0);
  }

  /** The one completed operation that loses agreement: superseding a document that is indexed
      by one that does not exist in the project. The index entry is already gone when the link
      is refused. */
  predicate LosesEntry(st: Rag, op: RagOp) {
    op.Supersede? && Holds(st, op.project, op.old_) && st.docs[op.old_].state == Approved &&
    !Holds(st, op.project, op.new_)
  }

  /** Between operations the index holds exactly the approved documents, even when indexing
      fails, if and only if the operation is not that one. */
  lemma AgreementAfter(st: Rag, op: RagOp)
    requires InAgreement(st)
    ensures InAgreement(After(st, op)) <==> !LosesEntry(st, op)
  {
    hide InAgreement;
    hide Sound;
    assert Sound(st) by {
      SoundIfInAgreement(st);
    }
    if Commits(st, op) != [] {
      match op
      case Ingest(_, _, _, _, _, _, _) => IngestSound(st, op, 0);
      case Approve(_, id, _) =>
        hide Activate;
        ActivateSound(st, id);
      case Supersede(_, _, _) => SupersedeSound(st, op, 0);
      case Archive(_, _) => ArchiveSound(st, op, 0);
      case Rebuild(project) =>
        hide RebuiltBelow;
        RebuildChangesNothing(st, project);
    }
  }

  lemma SoundIfInAgreement(st: Rag)
    requires InAgreement(st)
    ensures Sound(st)
  {
  }

  /** A rebuild of an index in agreement is the identity. */
  lemma RebuildChangesNothing(st: Rag, project: string)
    requires InAgreement(st)
    ensures RebuildIndex(st, project) == st
  {
    var after := RebuildIndex(st, project);
    assert after.docs == st.docs;
    assert after.index.Keys == st.index.Keys;
    assert after.index == st.index;
  }

  /** And it repairs whatever a crash or a lost entry left behind, project by project. */
  lemma RebuildRepairs(st: Rag, project: string, k: nat)
    requires Sound(st)
    ensures Sound(RebuildIndex(st, project))
    ensures k in st.docs && st.docs[k].project == project ==>
              (k in RebuildIndex(st, project).index <==> st.docs[k].state == Approved)
    ensures k in st.docs && st.docs[k].project != project ==>
              (k in RebuildIndex(st, project).index <==> k in st.index)
  {
  }

  /** A run in which each operation is cut off after some number of its commits. */
  function CrashRun(ops: seq<RagOp>, cuts: seq<nat>): Rag
    requires |ops| == |cuts|
  {
    if ops == [] then Rag(map[], 0, map[])
    else
      var st := CrashRun(Front(ops), Front(cuts));
      var n := Last(cuts);
      if n == 0 || n > |Commits(st, Last(ops))| then st else Commits(st, Last(ops))[n - 1]
  }

  /** However operations are cut short, the index never exposes an unapproved document. */
  lemma {:induction false} IndexedImpliesApproved(ops: seq<RagOp>, cuts: seq<nat>)
    requires |ops| == |cuts|
    ensures Sound(CrashRun(ops, cuts))
  {
    if ops != [] {
      IndexedImpliesApproved(Front(ops), Front(cuts));
      var st := CrashRun(Front(ops), Front(cuts));
      var n := Last(cuts);
      if 0 < n <= |Commits(st, Last(ops))| {
        EveryCommitIsSound(st, Last(ops), n - 1);
      }
    }
  }

  function RagRun(ops: seq<RagOp>): Rag {
    if ops == [] then Rag(map[], 0, map[]) else After(RagRun(Front(ops)), Last(ops))
  }

  /** Over every run of completed operations, index and approved documents agree at the end of
      each as long as no supersession names a missing successor for an approved document. */
  lemma {:induction false} AgreementOverRuns(ops: seq<RagOp>)
    requires forall i :: 0 <= i < |ops| ==> !LosesEntry(RagRun(ops[..i]), ops[i])
    ensures InAgreement(RagRun(ops))
  {
    if ops != [] {
      var pre := Front(ops);
      assert forall i :: 0 <= i < |pre| ==> pre[..i] == ops[..i] && pre[i] == ops[i];
      AgreementOverRuns(pre);
      assert ops[..|ops| - 1] == pre;
      AgreementAfter(RagRun(pre), Last(ops));
    }
  }

  /** The losing operation exists: ingest and approve a document, then supersede it by an id
      that was never issued. */
  lemma SupersedingByNothingLosesTheEntry()
    ensures var st := RagRun([Ingest("p", "manual", "a", "T", "C", Approved, false), Supersede("p", 0, 7)]);
            0 in st.docs && st.docs[0].state == Approved && 0 !in st.index
  {
    var a, b := Ingest("p", "manual", "a", "T", "C", Approved, false), Supersede("p", 0, 7);
    assert Front([a, b]) == [a] && Front([a]) == [];
    assert StripLeft("T") == "T" && StripRight("T") == "T";
    assert StripLeft("C") == "C" && StripRight("C") == "C";
    var empty := Rag(map[], 0, map[]);
    assert RagRun([a]) == After(empty, a);
  }

  // ---------------------------------------------------------------------------------------
  // The service
  // ---------------------------------------------------------------------------------------

  // ---------------------------------------------------------------------------------------
  // What each operation writes
  // ---------------------------------------------------------------------------------------

  /** The first content of its kind in a project becomes an artifact with a new id, what it says of its
      producer and a note; content stored before gives the artifact it made then. Either way the call is
      logged. */
  lemma StoringWrites(st: Store, hash: string -> string, c: StoreCall)
    requires c.content != ""
    ensures var (artifact, after) := Put(st, hash, c);
            var key := (c.project, hash(c.content));
            artifact.Some? && after.artifacts == st.artifacts[key := artifact.value] &&
            after.log == st.log + [Provenance(c.project, artifact.value.id, c.actor, c.producer, c.note)] &&
            if key in st.artifacts then artifact.value == st.artifacts[key] && after.nextId == st.nextId
            else artifact.value == Artifact(st.nextId, c.content, c.producer, c.note) && after.nextId == st.nextId + 1
  {
  }

  /** The index entry of a document carries its project, title and content. */
  predicate Indexes(index: map<nat, Entry>, id: nat, project: string, title: string, content: string) {
    id in index && index[id].project == project && index[id].title == title && index[id].content == content
  }

  /** A new document needs a title, a content and a source of its own in the project. It is stored
      under the next id with its title stripped and its content as it is; one that is to be approved is
      approved and indexed, or left a candidate when indexing fails. No other document or entry
      changes. */
  lemma IngestWrites(st: Rag, project: string, sourceType: string, sourceId: string, title: string, content: string,
                     state: DocState, indexFails: bool)
    requires Sound(st)
    ensures var after := After(st, Ingest(project, sourceType, sourceId, title, content, state, indexFails));
            var id := st.nextId;
            var taken := exists k | k in st.docs ::
                           st.docs[k].project == project && st.docs[k].sourceType == sourceType &&
                           st.docs[k].sourceId == sourceId;
            if Strip(title) == "" || Strip(content) == "" || taken then after == st
            else
              after.nextId == id + 1 && after.docs.Keys == st.docs.Keys + {id} &&
              (forall k :: k in st.docs ==> after.docs[k] == st.docs[k]) &&
              (forall k :: k != id ==> (k in after.index <==> k in st.index) &&
                                       (k in st.index ==> after.index[k] == st.index[k])) &&
              var approved := state == Approved && !indexFails;
              after.docs[id] ==
              Doc(project, sourceType, sourceId, Strip(title), content,
                  if state == Approved && indexFails then Candidate else state, None,
                  if approved then Some(1) else None) &&
              (id in after.index <==> approved) &&
              (approved ==> Indexes(after.index, id, project, Strip(title), content))
  {
    hide Strip;
    hide Sound;
    SoundIsFresh(st);
  }

  lemma SoundIsFresh(st: Rag)
    requires Sound(st)
    ensures st.nextId !in st.docs && st.nextId !in st.index
  {
  }

  /** Approval, supersession and archiving write one document and its entry: a candidate becomes
      approved and indexed; a superseded document is linked to its successor; neither that nor an
      archived one is indexed. Nothing but this changes. */
  lemma DocumentOperationsWrite(st: Rag, op: RagOp)
    requires Sound(st) && (op.Approve? || op.Supersede? || op.Archive?)
    ensures var after := After(st, op);
            var id := if op.Approve? then op.id else if op.Supersede? then op.old_ else op.id;
            var known := id in st.docs && st.docs[id].project == op.project;
            after.nextId == st.nextId && after.docs.Keys == st.docs.Keys &&
            (forall k :: k in st.docs && k != id ==> after.docs[k] == st.docs[k]) &&
            (forall k :: k != id ==> (k in after.index <==> k in st.index) &&
                                     (k in st.index ==> after.index[k] == st.index[k])) &&
            (!known ==> after == st) &&
            (known ==>
              var d := st.docs[id];
              match op
              case Approve(_, _, indexFails) =>
                if d.state == Candidate && !indexFails then
                  after.docs[id] == d.(state := Approved, indexVersion := Some(1)) &&
                  Indexes(after.index, id, d.project, d.title, d.content)
                else after == st
              case Supersede(_, _, successor) =>
                id !in after.index &&
                after.docs[id] ==
                if successor in st.docs && st.docs[successor].project == op.project
                then d.(state := Superseded, supersededBy := Some(successor)) else d
              case Archive(_, _) => id !in after.index && after.docs[id] == d.(state := Archived))
  {
  }

  /** A rebuilt index has, of the project, exactly its approved documents, and of the others what it had;
      documents change in their index version only. */
  lemma RebuildWrites(st: Rag, project: string)
    requires forall k :: k in st.docs ==> k < st.nextId
    ensures var after := After(st, Rebuild(project));
            after.nextId == st.nextId && after.docs.Keys == st.docs.Keys &&
            (forall k :: k in st.docs ==>
              after.docs[k] ==
              if st.docs[k].project == project && st.docs[k].state == Approved
              then st.docs[k].(indexVersion := Some(1)) else st.docs[k]) &&
            (forall k :: k in st.docs && st.docs[k].project == project && st.docs[k].state == Approved ==>
              Indexes(after.index, k, project, st.docs[k].title, st.docs[k].content)) &&
            (forall k :: !(k in st.docs && st.docs[k].project == project && st.docs[k].state == Approved) ==>
              (k in after.index <==> k in st.index && st.index[k].project != project) &&
              (k in after.index ==> after.index[k] == st.index[k]))
  {
  }

  class ArtifactService {
    const hash: string -> string
    var artifacts: map<(string, string), Artifact>
    var nextArtifact: nat
    var provenance: seq<Provenance>
    var docs: map<nat, Doc>
    var nextDoc: nat
    var index: map<nat, Entry>

    constructor (hash: string -> string)
      ensures this.hash == hash && Artifacts() == EMPTY_STORE && Documents() == Rag(map[], 0, map[])
    {
      this.hash := hash;
      artifacts, nextArtifact, provenance := map[], 0, [];
      docs, nextDoc, index := map[], 0, map[];
    }

    ghost function Artifacts(): Store
      reads this
    {
      Store(artifacts, nextArtifact, provenance)
    }

    ghost function Documents(): Rag
      reads this
    {
      Rag(docs, nextDoc, index)
    }

    method StoreArtifact(c: StoreCall) returns (artifact: Option<Artifact>)
      modifies this`artifacts, this`nextArtifact, this`provenance
      ensures (artifact, Artifacts()) == Put(old(Artifacts()), hash, c)
      ensures artifact.None? <==> c.content == ""
      ensures artifact.None? ==> Artifacts() == old(Artifacts())
      ensures artifact.Some? ==>
                |provenance| == |old(provenance)| + 1 && old(provenance) <= provenance &&
                Last(provenance) == Provenance(c.project, artifact.value.id, c.actor, c.producer, c.note)
      ensures forall k :: k in old(artifacts) ==> k in artifacts && artifacts[k] == old(artifacts)[k]
      ensures artifact.Some? ==>
                artifacts.Keys == old(artifacts).Keys + {KeyOf(hash, c)} && artifacts[KeyOf(hash, c)] == artifact.value
      ensures artifact.Some? ==>
                var key := (c.project, hash(c.content));
                artifact.value == if key in old(artifacts) then old(artifacts)[key]
                                  else Artifact(old(nextArtifact), c.content, c.producer, c.note)
      ensures forall calls :: c.content != "" && WellStored(old(Artifacts()), hash, calls) ==>
                WellStored(Artifacts(), hash, calls + [c])
    {
      hide WellStored;
      ghost var before := Artifacts();
      forall calls | c.content != "" && WellStored(before, hash, calls)
        ensures WellStored(Put(before, hash, c).1, hash, calls + [c])
      {
        PutKeeps(before, hash, calls, c);
      }
      if c.content == "" {
        return None;
      }
      var key := (c.project, hash(c.content));
      var row;
      if key in artifacts {
        row := artifacts[key];
        assert artifacts[key := row] == artifacts;
      } else {
        row := Artifact(nextArtifact, c.content, c.producer, c.note);
        artifacts := artifacts[key := row];
        nextArtifact := nextArtifact + 1;
      }
      provenance := provenance + [Provenance(c.project, row.id, c.actor, c.producer, c.note)];
      return Some(row);
    }

    method IngestRagDocument(project: string, sourceType: string, sourceId: string, title: string, content: string,
                             state: DocState, indexFails: bool) returns (id: Option<nat>)
      modifies this`docs, this`nextDoc, this`index
      ensures Documents() == After(old(Documents()),
                                   Ingest(project, sourceType, sourceId, title, content, state, indexFails))
      ensures id.Some? ==> id.value == old(nextDoc) && id.value in docs
      ensures id.None? ==> Documents() == old(Documents())
    {
      if Strip(title) == "" || Strip(content) == "" {
        return None;
      }
      if exists k | k in docs ::
           docs[k].project == project && docs[k].sourceType == sourceType && docs[k].sourceId == sourceId {
        return None;
      }
      var doc := nextDoc;
      docs := docs[doc := Doc(project, sourceType, sourceId, Strip(title), content,
                              if state == Approved then Candidate else state, None, None)];
      nextDoc := nextDoc + 1;
      if state == Approved {
        if indexFails {
          index := index - {doc};
        } else {
          index := index[doc := EntryOf(docs[doc])];
          docs := docs[doc := docs[doc].(state := Approved, indexVersion := Some(1))];
        }
      }
      return Some(doc);
    }

    method ApproveRagDocument(project: string, id: nat, indexFails: bool) returns (ok: bool)
      modifies this`docs, this`index
      ensures Documents() == After(old(Documents()), Approve(project, id, indexFails))
      ensures ok <==> Holds(old(Documents()), project, id) && old(docs)[id].state == Candidate && !indexFails
    {
      if id !in docs || docs[id].project != project || docs[id].state != Candidate || indexFails {
        return false;
      }
      index := index[id := EntryOf(docs[id])];
      docs := docs[id := docs[id].(state := Approved, indexVersion := Some(1))];
      return true;
    }

    method SupersedeRagDocument(project: string, oldDoc: nat, newDoc: nat) returns (ok: bool)
      modifies this`docs, this`index
      ensures Documents() == After(old(Documents()), Supersede(project, oldDoc, newDoc))
      ensures ok <==> Holds(old(Documents()), project, oldDoc) && Holds(old(Documents()), project, newDoc)
    {
      if oldDoc !in docs || docs[oldDoc].project != project {
        return false;
      }
      index := index - {oldDoc};
      if newDoc !in docs || docs[newDoc].project != project {
        return false;
      }
      docs := docs[oldDoc := docs[oldDoc].(state := Superseded, supersededBy := Some(newDoc))];
      return true;
    }

    method ArchiveRagDocument(project: string, id: nat) returns (ok: bool)
      modifies this`docs, this`index
      ensures Documents() == After(old(Documents()), Archive(project, id))
      ensures ok <==> Holds(old(Documents()), project, id)
    {
      if id !in docs || docs[id].project != project {
        return false;
      }
      if id in index && index[id].project == project {
        index := index - {id};
      }
      docs := docs[id := docs[id].(state := Archived)];
      return true;
    }

    /** Clear the project's entries, then insert its approved documents one by one. */
    method RebuildRagIndex(project: string)
      modifies this`docs, this`index
      ensures Documents() == After(old(Documents()), Rebuild(project))
    {
      hide RebuiltBelow;
      hide Foreign;
      ghost var before := Documents();
      index := Foreign(index, project);
      RebuiltStart(before, project);
      for k := 0 to nextDoc
        invariant Documents() == RebuiltBelow(before, project, k)
      {
        RebuiltStep(before, project, k);
        if k in docs && docs[k].project == project && docs[k].state == Approved {
          index := index[k := EntryOf(docs[k])];
          docs := docs[k := docs[k].(indexVersion := Some(1))];
        }
      }
    }
  }

  lemma RebuiltStart(st: Rag, project: string)
    ensures RebuiltBelow(st, project, 0) == st.(index := Foreign(st.index, project))
  {
    assert VersionedBelow(st.docs, project, 0) == st.docs;
    assert Foreign(st.index, project) + EntriesBelow(st.docs, project, 0) == Foreign(st.index, project);
  }

  lemma RebuiltStep(st: Rag, project: string, n: nat)
    ensures var part := RebuiltBelow(st, project, n);
            RebuiltBelow(st, project, n + 1) ==
            if n in part.docs && Belongs(part.docs[n], project)
            then part.(index := part.index[n := EntryOf(part.docs[n])],
                       docs := part.docs[n := part.docs[n].(indexVersion := Some(1))])
            else part
  {
    hide Foreign;
    hide Belongs;
    hide VersionedBelow;
    hide EntriesBelow;
    VersionedStep(st.docs, project, n);
    EntriesStep(st.docs, project, n);
  }

  lemma VersionedStep(docs: map<nat, Doc>, project: string, n: nat)
    ensures var part := VersionedBelow(docs, project, n);
            part.Keys == docs.Keys && (n in docs ==> part[n] == docs[n]) &&
            VersionedBelow(docs, project, n + 1) ==
            if n in docs && Belongs(docs[n], project) then part[n := docs[n].(indexVersion := Some(1))] else part
  {
    hide Belongs;
  }

  lemma EntriesStep(docs: map<nat, Doc>, project: string, n: nat)
    ensures EntriesBelow(docs, project, n + 1) ==
            if n in docs && Belongs(docs[n], project) then EntriesBelow(docs, project, n)[n := EntryOf(docs[n])]
            else EntriesBelow(docs, project, n)
  {
    hide Belongs;
  }
}
