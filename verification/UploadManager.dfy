/** `UploadManager`: one pass over the dirty entries, as the code runs it when
    nothing else comes between its steps.  Each upload is proved to be a run of
    `ClientRun` events. */
module UploadManager {
  import opened Basics
  import opened ContentTiers
  import opened Names
  import opened Client
  import opened ClientRun
  import opened Durability
  import opened Db = DbManager
  import L = Listings
  import Obj = ObjectManager

  /** What Drive answers to a creation or an update. */
  datatype Answer = Accepted(info: FileInfo) | NotFound | Failed

  /** The name and parent a new file is created under: the row's own, as it is
      now, or the listed ones if there is no row any more. */
  function NewTarget(rows: map<Id, Row>, meta: CachedMeta): (r: (string, Id))
    ensures meta.id in rows ==> r == (rows[meta.id].name, rows[meta.id].parent)
    ensures meta.id !in rows ==> r == (meta.row.name, meta.row.parent)
  {
    var row := if meta.id in rows then rows[meta.id] else meta.row;
    (row.name, row.parent)
  }

  function CurrentParent(c: Client, meta: CachedMeta): Id { NewTarget(c.rows, meta).1 }

  /** The bytes sent to Drive, if the entry gets that far. */
  function SentBytes(c: Client, meta: CachedMeta): Option<Bytes> {
    if IsPending(meta.id) && IsPending(CurrentParent(c, meta)) then None else Payload(c, meta.id)
  }

  /** The client after one entry has been dealt with. */
  function Uploaded(c: Client, meta: CachedMeta, answer: Answer): Client {
    var d := GetContent(c, meta.id);
    if SentBytes(c, meta).None? || answer.Failed? then d
    else if IsPending(meta.id) then
      if answer.NotFound? then Abandon(d, meta.id, CurrentParent(c, meta))
      else CommitCreate(d, meta.id, CurrentParent(c, meta), FinalSize(answer.info, SentBytes(c, meta).value))
    else
      if answer.NotFound? then d else CommitUpdate(d, meta.id, answer.info)
  }

  function AnswerFor(answers: map<Id, Answer>, id: Id): Answer {
    if id in answers then answers[id] else Failed
  }

  function UploadedAll(c: Client, entries: seq<CachedMeta>, answers: map<Id, Answer>): Client
    decreases |entries|
  {
    if entries == [] then c
    else UploadedAll(Uploaded(c, entries[0], AnswerFor(answers, entries[0].id)), entries[1..], answers)
  }

  /** Moving a key again finds nothing left to move. */
  lemma MoveTwice(m: map<Key, Bytes>, from: Key, to: Key)
    ensures MoveKey(MoveKey(m, from, to), from, to) == MoveKey(m, from, to)
  {
  }

  /** A new file has the uploaded size if Drive names none. */
  function Sized(info: FileInfo, uploaded: Bytes): (r: FileInfo)
    ensures r.size == if info.size == 0 then |uploaded| else info.size
    ensures r == info.(size := r.size)
  {
    FinalSize(info, uploaded)
  }

  class UploadManager {
    const db: Db.DbManager
    const obj: Obj.ObjectManager

    constructor (db: Db.DbManager, obj: Obj.ObjectManager)
      requires obj.db == db
      ensures this.db == db && this.obj == obj
    {
      this.db, this.obj := db, obj;
    }

    /** The content of an entry: the small copy, else the disk file; a disk
        file with content overrides an empty small copy. */
    method LoadContent(id: Id) returns (content: Option<Bytes>)
      requires obj.db == db
      modifies obj`moka
      ensures obj.View() == GetContent(old(obj.View()), id)
      ensures content == Payload(old(obj.View()), id)
      ensures var c := old(obj.View());
              var found, onDisk := Read(c, id), Find(c.tiers.disk, CacheKey(c, id));
              && (found == Some([]) && onDisk.Some? && onDisk != Some([]) ==> content == onDisk)
              && (found == Some([]) && onDisk in {None, Some([])} ==>
                    content == if PENDING <= id then None else Some([]))
              && (found != Some([]) ==> content == found)
    {
      ghost var c := obj.View();
      var found := obj.GetContent(id);
      assert CacheKey(obj.View(), id) == CacheKey(c, id);
      if found.None? {
        found := obj.ReadFullDiskContent(id);
        if found.None? {
          return None;
        }
      }
      content := found;
      if content.value == [] {
        var onDisk := obj.ReadFullDiskContent(id);
        if onDisk.Some? && onDisk.value != [] {
          content := onDisk;
        }
        if PENDING <= id && content.value == [] {
          return None;
        }
      }
    }

    /** `upload_entry`; `answer` is what Drive says if it is asked.  A creation
        is asked for under the name and parent in `target`. */
    method UploadEntry(meta: CachedMeta, answer: Answer) returns (sent: Option<Bytes>, target: Option<(string, Id)>)
      requires obj.db == db
      modifies obj, db`rows, db`blobs
      ensures obj.View() == Uploaded(old(obj.View()), meta, answer)
      ensures sent == SentBytes(old(obj.View()), meta)
      ensures sent == if PENDING <= meta.id && PENDING <= NewTarget(old(db.rows), meta).1 then None
                      else Payload(old(obj.View()), meta.id)
      ensures target.Some? <==> sent.Some? && PENDING <= meta.id
      ensures target.Some? ==> target == Some(NewTarget(old(db.rows), meta)) && !(PENDING <= target.value.1)
      ensures target.Some? && answer.Accepted? ==>
                L.Replaced(old(obj.Space()), obj.Space(), meta.id, target.value.1, Sized(answer.info, sent.value))
      ensures target.Some? && answer.NotFound? ==>
                L.Removed(old(obj.Space()), obj.Space(), target.value.1, meta.id)
      ensures sent.Some? && target.None? && answer.Accepted? ==>
                obj.metadata == old(obj.metadata)[answer.info.id := answer.info]
      ensures sent.None? || answer.Failed? || (target.None? && answer.NotFound?) ==>
                obj.Space() == old(obj.Space()) && db.rows == old(db.rows)
    {
      target := None;
      sent := LoadContent(meta.id);
      if sent.None? {
        return;
      }
      if PENDING <= meta.id {
        target := CreateEntry(meta, sent.value, answer);
        if target.None? {
          sent := None;
        }
      } else if answer.Accepted? {
        FinishUpdate(meta.id, answer.info);
      }
    }

    /** The creation branch of `upload_entry`: the row is read again first, and
        nothing is asked for while the parent is a placeholder itself. */
    method CreateEntry(meta: CachedMeta, content: Bytes, answer: Answer) returns (target: Option<(string, Id)>)
      requires obj.db == db && IsPending(meta.id)
      modifies obj, db`rows, db`blobs
      ensures target == if PENDING <= NewTarget(old(db.rows), meta).1 then None else Some(NewTarget(old(db.rows), meta))
      ensures target.Some? && answer.Accepted? ==>
                && obj.View() == CommitCreate(old(obj.View()), meta.id, target.value.1, Sized(answer.info, content))
                && L.Replaced(old(obj.Space()), obj.Space(), meta.id, target.value.1, Sized(answer.info, content))
      ensures target.Some? && answer.NotFound? ==>
                && obj.View() == Abandon(old(obj.View()), meta.id, target.value.1)
                && L.Removed(old(obj.Space()), obj.Space(), target.value.1, meta.id)
      ensures target.None? || answer.Failed? ==> obj.View() == old(obj.View())
    {
      var row := db.GetMetadata(meta.id);
      var name, parent := meta.row.name, meta.row.parent;
      if row.Some? {
        name, parent := row.value.name, row.value.parent;
      }
      if PENDING <= parent {
        return None;
      }
      target := Some((name, parent));
      match answer
      case Accepted(info) =>
        FinishCreate(meta.id, parent, if info.size == 0 then info.(size := |content|) else info);
      case NotFound =>
        GiveUp(meta.id, parent);
      case Failed =>
    }

    /** The end of a successful creation. */
    method FinishCreate(id: Id, parent: Id, info: FileInfo)
      requires obj.db == db
      modifies obj, db`rows, db`blobs
      ensures obj.View() == CommitCreate(old(obj.View()), id, parent, info)
      ensures L.Replaced(old(obj.Space()), obj.Space(), id, parent, info)
    {
      db.FinalizeNewFile(id, info.id, info.md5);
      if info.md5.Some? && info.md5.value != "" {
        obj.MigrateCacheKey(id, info.md5.value);
      }
      obj.ReplacePendingId(id, parent, info);
    }

    /** The parent is gone: the new file is abandoned. */
    method GiveUp(id: Id, parent: Id)
      requires obj.db == db
      modifies obj, db`rows
      ensures obj.View() == Abandon(old(obj.View()), id, parent)
      ensures L.Removed(old(obj.Space()), obj.Space(), parent, id)
    {
      db.AbandonDirtyEntry(id);
      obj.RemovePendingFromDir(parent, id);
    }

    /** The end of a successful update. */
    method FinishUpdate(id: Id, info: FileInfo)
      requires obj.db == db
      modifies obj, db`rows, db`blobs
      ensures obj.View() == CommitUpdate(old(obj.View()), id, info)
      ensures obj.metadata == old(obj.metadata)[info.id := info]
    {
      ghost var c := obj.View();
      db.ClearDirtyAfterUpload(id, info.md5);
      if info.md5.Some? && info.md5.value != "" {
        db.MigrateSmallFileKey(id, info.md5.value);
        MoveTwice(c.tiers.blobs, id, info.md5.value);
        obj.MigrateCacheKey(id, info.md5.value);
      }
      obj.StoreMetadata(info);
    }

    /** `process_dirty_entries`. */
    method ProcessDirtyEntries(answers: map<Id, Answer>) returns (entries: seq<CachedMeta>)
      requires obj.db == db
      modifies obj, db`rows, db`blobs
      ensures ListsDirty(entries, old(db.rows))
      ensures obj.View() == UploadedAll(old(obj.View()), entries, answers)
    {
      entries := db.ListDirtyEntries();
      for i := 0 to |entries|
        invariant UploadedAll(obj.View(), entries[i..], answers) == UploadedAll(old(obj.View()), entries, answers)
      {
        assert entries[i..][0] == entries[i] && entries[i..][1..] == entries[i + 1..];
        var _, _ := UploadEntry(entries[i], AnswerFor(answers, entries[i].id));
      }
    }
  }

  // ── An upload is a run ──

  function AskedFor(id: Id): seq<Event> { [UploadLoad(id)] + [UploadAsk] }

  /** What follows Drive's answer. */
  function AnswerSteps(id: Id, answer: Answer): seq<Event> {
    if answer.Accepted? then [UploadSend(answer.info)] + FINALISATION
    else if answer.NotFound? && IsPending(id) then [UploadRefused] + [UploadForget]
    else [UploadFail]
  }

  /** The events that one entry amounts to. */
  function UploadSteps(w: World, meta: CachedMeta, answer: Answer): seq<Event> {
    if SentBytes(w.client, meta).None? then [ReadContent(meta.id)]
    else AskedFor(meta.id) + AnswerSteps(meta.id, answer)
  }

  /** Drive answers a creation with a new id, an update with the file's own. */
  predicate Plausible(w: World, id: Id, answer: Answer) {
    answer.Accepted? ==>
      FromDrive(answer.info) && if IsPending(id) then answer.info.id !in w.issued else answer.info.id == id
  }

  lemma AskRuns(w: World, meta: CachedMeta)
    requires w.up.Idle? && Dirty(w.client.rows, meta.id) && SentBytes(w.client, meta).Some?
    ensures IsRun(w, AskedFor(meta.id))
    ensures Run(w, AskedFor(meta.id)) ==
            w.(client := GetContent(w.client, meta.id),
               up := Asked(meta.id, SentBytes(w.client, meta).value, CurrentParent(w.client, meta)),
               outdated := StaleOverride(w.client, meta.id))
  {
    OneStep(w, UploadLoad(meta.id));
    OneMore(w, [UploadLoad(meta.id)], UploadAsk);
  }

  lemma AcceptedRuns(w: World, info: FileInfo)
    requires Legal(w, UploadSend(info))
    ensures IsRun(w, [UploadSend(info)] + FINALISATION)
    ensures var r := Run(w, [UploadSend(info)] + FINALISATION);
            && r.client == Commit(w.client, w.up.id, w.up.parent,
                                  if IsPending(w.up.id) then FinalSize(info, w.up.content) else info)
            && r.up.Idle? && r.drive == w.drive[info.id := w.up.content] && r.issued == w.issued + {info.id}
  {
    FinalisationRuns(Apply(w, UploadSend(info)));
    MoreSteps(w, UploadSend(info), FINALISATION);
  }

  lemma RefusedRuns(w: World)
    requires Legal(w, UploadRefused)
    ensures IsRun(w, [UploadRefused] + [UploadForget])
    ensures var r := Run(w, [UploadRefused] + [UploadForget]);
            r.client == Abandon(w.client, w.up.id, w.up.parent) && r.up.Idle? && r.drive == w.drive
  {
    OneStep(w, UploadRefused);
    OneMore(w, [UploadRefused], UploadForget);
  }

  lemma AcceptedIsRun(w: World, meta: CachedMeta, info: FileInfo)
    requires w.up.Idle? && Dirty(w.client.rows, meta.id) && Plausible(w, meta.id, Accepted(info))
    requires SentBytes(w.client, meta).Some?
    ensures var es := UploadSteps(w, meta, Accepted(info));
            && IsRun(w, es)
            && Run(w, es).client == Uploaded(w.client, meta, Accepted(info))
            && Run(w, es).up.Idle?
            && Run(w, es).drive == w.drive[info.id := SentBytes(w.client, meta).value]
  {
    AskRuns(w, meta);
    var asked := Run(w, AskedFor(meta.id));
    AcceptedRuns(asked, info);
    RunAppend(w, AskedFor(meta.id), [UploadSend(info)] + FINALISATION);
  }

  lemma RefusedIsRun(w: World, meta: CachedMeta, answer: Answer)
    requires w.up.Idle? && Dirty(w.client.rows, meta.id) && !answer.Accepted?
    requires SentBytes(w.client, meta).Some?
    ensures var es := UploadSteps(w, meta, answer);
            && IsRun(w, es)
            && Run(w, es).client == Uploaded(w.client, meta, answer)
            && Run(w, es).up.Idle? && Run(w, es).drive == w.drive
  {
    AskRuns(w, meta);
    var asked := Run(w, AskedFor(meta.id));
    if answer.NotFound? && IsPending(meta.id) {
      RefusedRuns(asked);
      RunAppend(w, AskedFor(meta.id), [UploadRefused] + [UploadForget]);
    } else {
      OneStep(asked, UploadFail);
      RunAppend(w, AskedFor(meta.id), [UploadFail]);
    }
  }

  /** Main result: dealing with a dirty entry is a run of the client, so what
      is proved of runs (nothing owed is lost, reads and placeholders are
      kept) holds across the uploader's code. */
  lemma UploadIsRun(w: World, meta: CachedMeta, answer: Answer)
    requires w.up.Idle? && Dirty(w.client.rows, meta.id) && Plausible(w, meta.id, answer)
    ensures IsRun(w, UploadSteps(w, meta, answer))
    ensures Run(w, UploadSteps(w, meta, answer)).client == Uploaded(w.client, meta, answer)
    ensures Run(w, UploadSteps(w, meta, answer)).up.Idle?
    ensures Run(w, UploadSteps(w, meta, answer)).drive ==
            if answer.Accepted? && SentBytes(w.client, meta).Some?
            then w.drive[answer.info.id := SentBytes(w.client, meta).value] else w.drive
  {
    if SentBytes(w.client, meta).None? {
      OneStep(w, ReadContent(meta.id));
    } else if answer.Accepted? {
      AcceptedIsRun(w, meta, answer.info);
    } else {
      RefusedIsRun(w, meta, answer);
    }
  }

  /** An accepted upload leaves its entry dirty exactly when the new file's row
      already exists, as after a change-feed poll that saw it first; no other
      entry is touched. */
  lemma EntryCleared(c: Client, meta: CachedMeta, info: FileInfo)
    requires Dirty(c.rows, meta.id) && SentBytes(c, meta).Some?
    requires FromDrive(info) && (!IsPending(meta.id) ==> info.id == meta.id)
    ensures var r := Uploaded(c, meta, Accepted(info));
            && (Dirty(r.rows, meta.id) <==> IsPending(meta.id) && info.id in c.rows)
            && (IsPending(meta.id) && info.id !in c.rows ==> info.id in r.rows && !r.rows[info.id].dirty)
            && (forall g :: g != meta.id && g != info.id ==> (Dirty(r.rows, g) <==> Dirty(c.rows, g)))
  {
  }

  // ── A whole pass is a run ──

  /** The events that a pass amounts to. */
  ghost function PassSteps(w: World, entries: seq<CachedMeta>, answers: map<Id, Answer>): seq<Event>
    decreases |entries|
  {
    if entries == [] then []
    else
      var es := UploadSteps(w, entries[0], AnswerFor(answers, entries[0].id));
      es + if IsRun(w, es) then PassSteps(Run(w, es), entries[1..], answers) else []
  }

  /** Drive's answers are plausible one after the other. */
  ghost predicate PlausiblePass(w: World, entries: seq<CachedMeta>, answers: map<Id, Answer>)
    decreases |entries|
  {
    entries == []
    || (var answer := AnswerFor(answers, entries[0].id);
        var es := UploadSteps(w, entries[0], answer);
        Plausible(w, entries[0].id, answer) && (IsRun(w, es) ==> PlausiblePass(Run(w, es), entries[1..], answers)))
  }

  /** Files still to be uploaded stay dirty and known to Drive. */
  ghost predicate Waiting(w: World, entries: seq<CachedMeta>) {
    && (forall e :: e in entries ==> Dirty(w.client.rows, e.id) && (IsPending(e.id) || e.id in w.issued))
    && (forall i, j :: 0 <= i < j < |entries| ==> entries[i].id != entries[j].id)
  }

  lemma OthersStayDirty(c: Client, meta: CachedMeta, answer: Answer, g: Id)
    requires Dirty(c.rows, g) && g != meta.id && (answer.Accepted? ==> g != answer.info.id)
    ensures Dirty(Uploaded(c, meta, answer).rows, g)
  {
  }

  lemma {:induction false} IssuedRun(w: World, es: seq<Event>)
    requires IsRun(w, es)
    ensures w.issued <= Run(w, es).issued
    decreases |es|
  {
    if es != [] {
      IssuedRun(Apply(w, es[0]), es[1..]);
    }
  }

  lemma StillWaiting(w: World, entries: seq<CachedMeta>, answer: Answer)
    requires w.up.Idle? && entries != [] && Waiting(w, entries) && Plausible(w, entries[0].id, answer)
    requires IsRun(w, UploadSteps(w, entries[0], answer))
    requires Run(w, UploadSteps(w, entries[0], answer)).client == Uploaded(w.client, entries[0], answer)
    ensures Waiting(Run(w, UploadSteps(w, entries[0], answer)), entries[1..])
  {
    var v := Run(w, UploadSteps(w, entries[0], answer));
    IssuedRun(w, UploadSteps(w, entries[0], answer));
    forall e | e in entries[1..] ensures Dirty(v.client.rows, e.id) && (IsPending(e.id) || e.id in v.issued) {
      assert e in entries && e.id != entries[0].id;
      OthersStayDirty(w.client, entries[0], answer, e.id);
    }
  }

  lemma {:induction false} EntriesAreRun(w: World, entries: seq<CachedMeta>, answers: map<Id, Answer>)
    requires w.up.Idle? && Waiting(w, entries) && PlausiblePass(w, entries, answers)
    ensures IsRun(w, PassSteps(w, entries, answers))
    ensures Run(w, PassSteps(w, entries, answers)).client == UploadedAll(w.client, entries, answers)
    ensures Run(w, PassSteps(w, entries, answers)).up.Idle?
    decreases |entries|
  {
    if entries != [] {
      var answer := AnswerFor(answers, entries[0].id);
      var es := UploadSteps(w, entries[0], answer);
      assert entries[0] in entries;
      UploadIsRun(w, entries[0], answer);
      StillWaiting(w, entries, answer);
      EntriesAreRun(Run(w, es), entries[1..], answers);
      RunAppend(w, es, PassSteps(Run(w, es), entries[1..], answers));
    }
  }

  /** Main result: a pass over the dirty rows is a run of the client, whatever
      Drive answers to each of them. */
  lemma PassIsRun(w: World, entries: seq<CachedMeta>, answers: map<Id, Answer>)
    requires w.up.Idle? && ListsDirty(entries, w.client.rows) && PlausiblePass(w, entries, answers)
    requires forall id :: Dirty(w.client.rows, id) && !IsPending(id) ==> id in w.issued
    ensures IsRun(w, PassSteps(w, entries, answers))
    ensures Run(w, PassSteps(w, entries, answers)).client == UploadedAll(w.client, entries, answers)
    ensures Run(w, PassSteps(w, entries, answers)).up.Idle?
  {
    EntriesAreRun(w, entries, answers);
  }

  // ── A pass delivers ──

  /** The bytes that a pass gets Drive to accept, by the entry's id. */
  ghost function Delivered(w: World, entries: seq<CachedMeta>, answers: map<Id, Answer>): map<Id, Bytes>
    decreases |entries|
  {
    if entries == [] then map[]
    else
      var id, answer := entries[0].id, AnswerFor(answers, entries[0].id);
      var es := UploadSteps(w, entries[0], answer);
      var rest := if IsRun(w, es) then Delivered(Run(w, es), entries[1..], answers) else map[];
      if answer.Accepted? && SentBytes(w.client, entries[0]).Some?
      then rest[id := SentBytes(w.client, entries[0]).value] else rest
  }

  lemma RefusedOwed(w: World, id: Id)
    requires Legal(w, UploadRefused) && id != w.up.id
    ensures IsRun(w, [UploadRefused] + [UploadForget])
    ensures Find(Run(w, [UploadRefused] + [UploadForget]).owed, id) == Find(w.owed, id)
  {
    OneStep(w, UploadRefused);
    OneMore(w, [UploadRefused], UploadForget);
  }

  lemma AcceptedOwed(w: World, info: FileInfo, id: Id)
    requires Legal(w, UploadSend(info)) && id != w.up.id && id != info.id
    ensures IsRun(w, [UploadSend(info)] + FINALISATION)
    ensures Find(Run(w, [UploadSend(info)] + FINALISATION).owed, id) == Find(w.owed, id)
  {
    FinalisationRuns(Apply(w, UploadSend(info)));
    MoreSteps(w, UploadSend(info), FINALISATION);
  }

  lemma OwedAnswered(w: World, answer: Answer, id: Id)
    requires w.up.Asked? && Plausible(w, w.up.id, answer)
    requires id != w.up.id && (answer.Accepted? ==> id != answer.info.id)
    ensures IsRun(w, AnswerSteps(w.up.id, answer))
    ensures Find(Run(w, AnswerSteps(w.up.id, answer)).owed, id) == Find(w.owed, id)
  {
    if answer.Accepted? {
      AcceptedOwed(w, answer.info, id);
    } else if answer.NotFound? && IsPending(w.up.id) {
      RefusedOwed(w, id);
    } else {
      OneStep(w, UploadFail);
    }
  }

  /** One entry's events leave alone what another file is owed. */
  lemma OwedElsewhere(w: World, meta: CachedMeta, answer: Answer, id: Id)
    requires w.up.Idle? && Dirty(w.client.rows, meta.id) && Plausible(w, meta.id, answer)
    requires id != meta.id && (answer.Accepted? ==> id != answer.info.id)
    ensures IsRun(w, UploadSteps(w, meta, answer))
    ensures Find(Run(w, UploadSteps(w, meta, answer)).owed, id) == Find(w.owed, id)
  {
    UploadIsRun(w, meta, answer);
    if SentBytes(w.client, meta).None? {
      OneStep(w, ReadContent(meta.id));
    } else {
      AskRuns(w, meta);
      OwedAnswered(Run(w, AskedFor(meta.id)), answer, id);
      RunAppend(w, AskedFor(meta.id), AnswerSteps(meta.id, answer));
    }
  }

  /** What is sent is what is owed. */
  lemma SendsOwed(w: World, meta: CachedMeta)
    requires Durability.Inv(w) && Dirty(w.client.rows, meta.id) && SentBytes(w.client, meta).Some? && meta.id in w.owed
    ensures SentBytes(w.client, meta).value == w.owed[meta.id]
  {
    assert CacheKey(w.client, meta.id) == meta.id;
    assert Holds(SlotOf(w.client.tiers, meta.id), w.owed[meta.id]);
  }

  /** A pass writes to Drive under no id but those its answers name. */
  lemma {:induction false} DriveElsewhere(w: World, entries: seq<CachedMeta>, answers: map<Id, Answer>, k: Id)
    requires w.up.Idle? && Waiting(w, entries) && PlausiblePass(w, entries, answers)
    requires k in w.issued && forall e :: e in entries ==> e.id != k
    ensures IsRun(w, PassSteps(w, entries, answers))
    ensures Find(Run(w, PassSteps(w, entries, answers)).drive, k) == Find(w.drive, k)
    decreases |entries|
  {
    EntriesAreRun(w, entries, answers);
    if entries != [] {
      var answer := AnswerFor(answers, entries[0].id);
      var es := UploadSteps(w, entries[0], answer);
      assert entries[0] in entries;
      UploadIsRun(w, entries[0], answer);
      StillWaiting(w, entries, answer);
      IssuedRun(w, es);
      DriveElsewhere(Run(w, es), entries[1..], answers, k);
      RunAppend(w, es, PassSteps(Run(w, es), entries[1..], answers));
    }
  }

  /** Drive holds what a pass delivered, under the ids it answered. */
  ghost predicate Holding(drive: map<Id, Bytes>, delivered: map<Id, Bytes>, answers: map<Id, Answer>) {
    forall id :: id in delivered ==>
      AnswerFor(answers, id).Accepted? && Find(drive, AnswerFor(answers, id).info.id) == Some(delivered[id])
  }

  ghost predicate IsOwed(delivered: map<Id, Bytes>, owed: map<Id, Bytes>) {
    forall id :: id in delivered && id in owed ==> delivered[id] == owed[id]
  }

  lemma NowIssued(w: World, meta: CachedMeta, info: FileInfo)
    requires w.up.Idle? && Dirty(w.client.rows, meta.id) && Plausible(w, meta.id, Accepted(info))
    requires SentBytes(w.client, meta).Some?
    ensures IsRun(w, UploadSteps(w, meta, Accepted(info)))
    ensures info.id in Run(w, UploadSteps(w, meta, Accepted(info))).issued
  {
    AskRuns(w, meta);
    AcceptedRuns(Run(w, AskedFor(meta.id)), info);
    RunAppend(w, AskedFor(meta.id), [UploadSend(info)] + FINALISATION);
  }

  lemma FirstDelivered(w: World, entries: seq<CachedMeta>, answers: map<Id, Answer>)
    requires w.up.Idle? && entries != [] && Waiting(w, entries) && PlausiblePass(w, entries, answers)
    requires AnswerFor(answers, entries[0].id).Accepted? && SentBytes(w.client, entries[0]).Some?
    ensures IsRun(w, PassSteps(w, entries, answers))
    ensures Find(Run(w, PassSteps(w, entries, answers)).drive, AnswerFor(answers, entries[0].id).info.id)
            == SentBytes(w.client, entries[0])
  {
    var answer := AnswerFor(answers, entries[0].id);
    var es := UploadSteps(w, entries[0], answer);
    assert entries[0] in entries;
    EntriesAreRun(w, entries, answers);
    UploadIsRun(w, entries[0], answer);
    StillWaiting(w, entries, answer);
    NowIssued(w, entries[0], answer.info);
    IssuedRun(w, es);
    assert forall e :: e in entries[1..] ==> e in entries && e.id != answer.info.id;
    DriveElsewhere(Run(w, es), entries[1..], answers, answer.info.id);
    RunAppend(w, es, PassSteps(Run(w, es), entries[1..], answers));
  }

  /** The rest of a pass starts where its first entry's events end. */
  lemma DeliveredRest(w: World, entries: seq<CachedMeta>, answers: map<Id, Answer>) returns (v: World)
    requires w.up.Idle? && entries != [] && Waiting(w, entries) && PlausiblePass(w, entries, answers)
    ensures var answer := AnswerFor(answers, entries[0].id);
            var es := UploadSteps(w, entries[0], answer);
            && IsRun(w, es) && v == Run(w, es)
            && v.up.Idle? && Waiting(v, entries[1..]) && PlausiblePass(v, entries[1..], answers)
            && Delivered(w, entries, answers) ==
               if answer.Accepted? && SentBytes(w.client, entries[0]).Some?
               then Delivered(v, entries[1..], answers)[entries[0].id := SentBytes(w.client, entries[0]).value]
               else Delivered(v, entries[1..], answers)
  {
    var answer := AnswerFor(answers, entries[0].id);
    assert entries[0] in entries;
    UploadIsRun(w, entries[0], answer);
    StillWaiting(w, entries, answer);
    v := Run(w, UploadSteps(w, entries[0], answer));
  }

  lemma {:induction false} DeliveredIds(w: World, entries: seq<CachedMeta>, answers: map<Id, Answer>)
    requires w.up.Idle? && Waiting(w, entries) && PlausiblePass(w, entries, answers)
    ensures forall id :: id in Delivered(w, entries, answers) ==> exists e :: e in entries && e.id == id
    decreases |entries|
  {
    if entries != [] {
      var v := DeliveredRest(w, entries, answers);
      DeliveredIds(v, entries[1..], answers);
      assert entries[0] in entries && forall e :: e in entries[1..] ==> e in entries;
    }
  }

  /** Files whose turn comes later are still owed what they were. */
  lemma OwedLater(w: World, entries: seq<CachedMeta>, answers: map<Id, Answer>, v: World, id: Id)
    requires w.up.Idle? && entries != [] && Waiting(w, entries) && PlausiblePass(w, entries, answers)
    requires IsRun(w, UploadSteps(w, entries[0], AnswerFor(answers, entries[0].id)))
    requires v == Run(w, UploadSteps(w, entries[0], AnswerFor(answers, entries[0].id)))
    requires exists e :: e in entries[1..] && e.id == id
    ensures Find(v.owed, id) == Find(w.owed, id)
  {
    var e :| e in entries[1..] && e.id == id;
    assert entries[0] in entries && e in entries;
    OwedElsewhere(w, entries[0], AnswerFor(answers, entries[0].id), id);
  }

  lemma {:induction false} DeliveredOwed(w: World, entries: seq<CachedMeta>, answers: map<Id, Answer>)
    requires w.up.Idle? && Durability.Inv(w) && Waiting(w, entries) && PlausiblePass(w, entries, answers)
    ensures IsOwed(Delivered(w, entries, answers), w.owed)
    decreases |entries|
  {
    if entries != [] {
      var v := DeliveredRest(w, entries, answers);
      assert entries[0] in entries;
      Durability.InvRun(w, UploadSteps(w, entries[0], AnswerFor(answers, entries[0].id)));
      DeliveredOwed(v, entries[1..], answers);
      DeliveredIds(v, entries[1..], answers);
      forall id | id in Delivered(v, entries[1..], answers) ensures Find(v.owed, id) == Find(w.owed, id) {
        OwedLater(w, entries, answers, v, id);
      }
      if SentBytes(w.client, entries[0]).Some? && entries[0].id in w.owed {
        SendsOwed(w, entries[0]);
      }
    }
  }

  lemma {:induction false} DeliveredHeld(w: World, entries: seq<CachedMeta>, answers: map<Id, Answer>)
    requires w.up.Idle? && Waiting(w, entries) && PlausiblePass(w, entries, answers)
    ensures IsRun(w, PassSteps(w, entries, answers))
    ensures Holding(Run(w, PassSteps(w, entries, answers)).drive, Delivered(w, entries, answers), answers)
    decreases |entries|
  {
    EntriesAreRun(w, entries, answers);
    if entries != [] {
      var v := DeliveredRest(w, entries, answers);
      DeliveredHeld(v, entries[1..], answers);
      RunAppend(w, UploadSteps(w, entries[0], AnswerFor(answers, entries[0].id)), PassSteps(v, entries[1..], answers));
      if AnswerFor(answers, entries[0].id).Accepted? && SentBytes(w.client, entries[0]).Some? {
        FirstDelivered(w, entries, answers);
      }
    }
  }

  /** Main result: after a pass Drive holds, under its final id, every file
      whose upload it accepted, and these are the bytes the file was owed. */
  lemma PassDelivers(w: World, entries: seq<CachedMeta>, answers: map<Id, Answer>)
    requires w.up.Idle? && Durability.Inv(w) && ListsDirty(entries, w.client.rows) && PlausiblePass(w, entries, answers)
    ensures IsRun(w, PassSteps(w, entries, answers))
    ensures Holding(Run(w, PassSteps(w, entries, answers)).drive, Delivered(w, entries, answers), answers)
    ensures IsOwed(Delivered(w, entries, answers), w.owed)
  {
    DeliveredHeld(w, entries, answers);
    DeliveredOwed(w, entries, answers);
  }
}
