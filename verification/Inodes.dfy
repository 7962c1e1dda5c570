/** Inode numbers stay sound over whole runs, restarts included. */
module Inodes {
  import opened Basics
  import opened ContentTiers
  import opened Names
  import opened Client
  import opened ClientRun
  import L = Listings

  /** The two maps agree and every inode handed out is below the counter. */
  ghost predicate Sound(n: Names) {
    && ROOT_ID in n.idToIno && n.idToIno[ROOT_ID] == ROOT_INO
    && (forall id :: id in n.idToIno ==>
          var i := n.idToIno[id]; ROOT_INO <= i < n.nextIno && i in n.inoToId && n.inoToId[i] == id)
    && (forall i :: i in n.inoToId ==> i < n.nextIno)
    && (forall i :: i in n.inoToId && IsPending(n.inoToId[i]) ==>
          n.inoToId[i] in n.idToIno && n.idToIno[n.inoToId[i]] == i)
  }

  // ── Restoring a mount ──

  predicate ValidRow(r: (Id, nat)) { r.1 >= ROOT_INO && r.0 != "" }

  ghost predicate DistinctIds(rows: seq<(Id, nat)>) {
    && (forall i :: 0 <= i < |rows| ==> rows[i].0 != ROOT_ID)
    && (forall i, j :: 0 <= i < j < |rows| ==> rows[i].0 != rows[j].0)
  }

  ghost predicate UniqueInodes(rows: seq<(Id, nat)>) {
    && (forall i :: 0 <= i < |rows| && ValidRow(rows[i]) ==> rows[i].1 != ROOT_INO)
    && (forall i, j :: 0 <= i < j < |rows| && ValidRow(rows[i]) && ValidRow(rows[j]) ==> rows[i].1 != rows[j].1)
  }

  predicate RowOf(rows: seq<(Id, nat)>, id: Id, ino: nat) { (id, ino) in rows && ValidRow((id, ino)) }

  /** What the restore loop has built from the rows so far. */
  ghost predicate Restored(rows: seq<(Id, nat)>, n: Names) {
    && n.nextIno > ROOT_INO
    && ROOT_ID in n.idToIno && n.idToIno[ROOT_ID] == ROOT_INO
    && ROOT_INO in n.inoToId && n.inoToId[ROOT_INO] == ROOT_ID
    && (forall r :: r in rows && ValidRow(r) ==>
          && r.0 in n.idToIno && n.idToIno[r.0] == r.1 && r.1 in n.inoToId && r.1 < n.nextIno)
    && (forall id :: id in n.idToIno && id != ROOT_ID ==> RowOf(rows, id, n.idToIno[id]))
    && (forall i :: i in n.inoToId && i != ROOT_INO ==> RowOf(rows, n.inoToId[i], i))
  }

  lemma RowsGrow(init: seq<(Id, nat)>, last: (Id, nat))
    ensures forall id, ino: nat :: RowOf(init, id, ino) ==> RowOf(init + [last], id, ino)
    ensures ValidRow(last) ==> RowOf(init + [last], last.0, last.1)
  {
    assert last in init + [last] && last == (last.0, last.1);
  }

  lemma RestoredStep(init: seq<(Id, nat)>, last: (Id, nat), n: Names)
    requires Restored(init, n) && last.0 != ROOT_ID && forall r :: r in init ==> r.0 != last.0
    ensures Restored(init + [last], RestoreRow(n, last.0, last.1))
  {
    var m, rows := RestoreRow(n, last.0, last.1), init + [last];
    RowsGrow(init, last);
    assert last.0 !in n.idToIno;
    forall r | r in rows && ValidRow(r)
      ensures r.0 in m.idToIno && m.idToIno[r.0] == r.1 && r.1 in m.inoToId && r.1 < m.nextIno
    {
      assert r == last || r in init;
    }
    forall id | id in m.idToIno && id != ROOT_ID ensures RowOf(rows, id, m.idToIno[id]) {
      assert id in n.idToIno ==> RowOf(init, id, n.idToIno[id]);
    }
    forall i | i in m.inoToId && i != ROOT_INO ensures RowOf(rows, m.inoToId[i], i) {
      assert i in n.inoToId ==> RowOf(init, n.inoToId[i], i);
    }
  }

  lemma {:induction false} RestoreFacts(rows: seq<(Id, nat)>)
    requires DistinctIds(rows)
    ensures Restored(rows, Restore(rows))
    decreases |rows|
  {
    if rows != [] {
      var init, last := rows[..|rows| - 1], rows[|rows| - 1];
      assert rows == init + [last];
      RestoreFacts(init);
      RestoredStep(init, last, Restore(init));
    }
  }

  /** Exactly when a restore is sound: the persisted inodes are pairwise
      distinct and none is the root's, in whatever order the rows arrive. */
  lemma RestoreSoundExactly(rows: seq<(Id, nat)>)
    requires DistinctIds(rows)
    ensures Sound(Restore(rows)) <==> UniqueInodes(rows)
  {
    var n := Restore(rows);
    RestoreFacts(rows);
    if UniqueInodes(rows) {
      forall r, q | r in rows && q in rows && ValidRow(r) && ValidRow(q) && r.1 == q.1
        ensures r == q && r.1 != ROOT_INO
      {
      }
      forall id | id in n.idToIno && id != ROOT_ID
        ensures n.idToIno[id] in n.inoToId && n.inoToId[n.idToIno[id]] == id && n.idToIno[id] < n.nextIno
      {
        assert RowOf(rows, id, n.idToIno[id]);
        assert RowOf(rows, n.inoToId[n.idToIno[id]], n.idToIno[id]);
      }
    }
    if Sound(n) {
      forall i | 0 <= i < |rows| && ValidRow(rows[i]) ensures n.inoToId[rows[i].1] == rows[i].0 {
        assert rows[i] in rows && n.idToIno[rows[i].0] == rows[i].1;
      }
    }
  }

  // ── Namespace operations ──

  /** Inodes of the later namespace name the same files, except that `from` may
      have become `to`; a dropped inode is never handed out again. */
  ghost predicate Follows(n: Names, m: Names, from: Id, to: Id) {
    && n.nextIno <= m.nextIno
    && forall i :: i < n.nextIno && i in m.inoToId ==>
         i in n.inoToId && m.inoToId[i] == if n.inoToId[i] == from then to else n.inoToId[i]
  }

  /** Nothing is renamed and no id loses its inode. */
  ghost predicate Extends(n: Names, m: Names) {
    Follows(n, m, "", "") && forall x :: x in n.idToIno ==> x in m.idToIno && m.idToIno[x] == n.idToIno[x]
  }

  lemma AllocExtends(n: Names, id: Id)
    requires Sound(n)
    ensures Extends(n, Alloc(n, id)) && id in Alloc(n, id).idToIno
  {
  }

  lemma AllocStaysSound(n: Names, id: Id)
    requires Sound(n)
    ensures Sound(Alloc(n, id))
  {
    var m := Alloc(n, id);
    if id !in n.idToIno {
      assert n.nextIno !in n.inoToId && m.idToIno[id] == n.nextIno && m.inoToId[n.nextIno] == id;
      assert forall x :: x in n.idToIno ==> x in m.idToIno && m.idToIno[x] == n.idToIno[x] != n.nextIno;
      assert forall i :: i in n.inoToId ==> m.inoToId[i] == n.inoToId[i] != id || !IsPending(id);
    }
  }

  lemma AllocSound(n: Names, id: Id)
    requires Sound(n)
    ensures Sound(Alloc(n, id))
    ensures Extends(n, Alloc(n, id)) && id in Alloc(n, id).idToIno
  {
    AllocStaysSound(n, id);
    AllocExtends(n, id);
  }

  /** Inode maps are the only part that matters here. */
  predicate SameInodes(n: Names, m: Names) {
    n.nextIno == m.nextIno && n.inoToId == m.inoToId && n.idToIno == m.idToIno
  }

  lemma {:induction false} RegisterSound(n: Names, parent: Id, files: seq<FileInfo>)
    requires Sound(n)
    ensures var m := RegisterAll(n, parent, files);
            Sound(m) && Extends(n, m)
    decreases |files|
  {
    if files != [] {
      var init := RegisterAll(n, parent, files[..|files| - 1]);
      RegisterSound(n, parent, files[..|files| - 1]);
      AllocSound(init, files[|files| - 1].id);
      assert SameInodes(StoreMetadata(init, files[|files| - 1]), Alloc(init, files[|files| - 1].id));
    }
  }

  lemma DropSound(n: Names, p: Id)
    requires Sound(n) && IsPending(p)
    ensures Sound(DropIno(n, p)) && Follows(n, DropIno(n, p), "", "")
  {
  }

  lemma SwapSound(n: Names, p: Id, id: Id)
    requires Sound(n) && IsPending(p) && !IsPending(id) && id != ROOT_ID
    ensures Sound(SwapIno(n, p, id)) && Follows(n, SwapIno(n, p, id), p, id)
  {
  }

  // ── Runs ──

  /** The placeholder whose row has been finalised but whose name has not, and
      the real id it is becoming. */
  function Moving(w: World): (Id, Id) {
    if w.up.Sent? && IsPending(w.up.id) && w.up.stage != Answered then (w.up.id, w.up.info.id) else ("", "")
  }

  /** Every row carries the inode that its id has in memory; while a file is
      moving, its row under the real id carries the placeholder's. */
  ghost predicate RowsKeep(rows: map<Id, Row>, n: Names, moving: (Id, Id)) {
    forall id :: id in rows ==>
      && id != "" && id != ROOT_ID
      && var owner := if id == moving.1 then moving.0 else id;
         owner in n.idToIno && rows[id].inode == n.idToIno[owner]
  }

  ghost predicate MovingSound(rows: map<Id, Row>, moving: (Id, Id)) {
    moving == ("", "") || (IsPending(moving.0) && RealId(moving.1) && moving.0 !in rows && moving.1 in rows)
  }

  ghost predicate UploadPlausible(w: World) {
    && (w.up.Sent? ==> FromDrive(w.up.info) && (!IsPending(w.up.id) ==> w.up.info.id == w.up.id))
    && ((w.up.Loaded? || w.up.Asked? || At(w, Answered)) && IsPending(w.up.id) ==> Dirty(w.client.rows, w.up.id))
    && (w.up.Refused? ==> IsPending(w.up.id) && w.up.id !in w.client.rows)
  }

  ghost predicate Inv(w: World) {
    && Sound(w.client.names) && RowsKeep(w.client.rows, w.client.names, Moving(w))
    && MovingSound(w.client.rows, Moving(w)) && UploadPlausible(w)
  }

  /** The placeholder's row is gone, but not yet its inode. */
  predicate Rowless(w: World, p: Id) { p == Moving(w).0 || (w.up.Refused? && p == w.up.id) }

  /** A real id that replaces a pending one has no row of its own yet, and the
      feed does not drop its row before the name is replaced as well.  Nothing
      is stored to a placeholder between losing its row and its inode
      (`SharedInode` shows why). */
  ghost predicate FreshIds(w: World, e: Event) {
    && (e.UploadRow? && w.up.Sent? && IsPending(w.up.id) ==> w.up.info.id !in w.client.rows)
    && (e.FeedChange? && e.change.id == Moving(w).1 ==> !Drops(w.client, e.change))
    && (e.ReleaseHandle? && e.content != [] ==> !Rowless(w, e.id))
  }

  /** The pending id whose name a step replaces, and the real id. */
  function Promoted(w: World, e: Event): (Id, Id) {
    if e.UploadNames? && w.up.Sent? && IsPending(w.up.id) then (w.up.id, w.up.info.id) else ("", "")
  }

  /** Storing a row under the inode its id has in memory. */
  lemma UpsertKeeps(rows: map<Id, Row>, n: Names, m: Names, moving: (Id, Id), id: Id, row: Row)
    requires RowsKeep(rows, n, moving) && Extends(n, m) && id != "" && id != ROOT_ID
    requires id in m.idToIno && row.inode == m.idToIno[id]
    requires id == moving.1 ==> id in rows
    ensures RowsKeep(Upsert(rows, id, row), m, moving)
  {
  }

  /** What one step within a mount does to inodes. */
  ghost predicate StepGood(w: World, e: Event)
    requires Legal(w, e)
  {
    && Inv(Apply(w, e))
    && (!e.CrashAndRestart? ==> Follows(w.client.names, Apply(w, e).client.names, Promoted(w, e).0, Promoted(w, e).1))
    && forall id :: id in w.client.rows && id in Apply(w, e).client.rows ==>
         Apply(w, e).client.rows[id].inode == w.client.rows[id].inode
  }

  lemma CreateGood(w: World, e: Event)
    requires Inv(w) && Legal(w, e) && e.CreateFile?
    ensures StepGood(w, e)
  {
    AllocSound(w.client.names, PendingId(w.nextFh));
    var m := Create(w.client.names, e.parent, PendingId(w.nextFh), e.name);
    assert SameInodes(m, Alloc(w.client.names, PendingId(w.nextFh)));
    assert Apply(w, e).client == w.client.(names := m);
    assert Inv(Apply(w, e));
  }

  lemma WrittenRows(c: Client, id: Id, content: Bytes, parent: Id, name: string)
    ensures var rows := WriteLocalDirty(c, id, content, parent, name).rows;
            && rows.Keys == c.rows.Keys + {id}
            && (forall x :: Dirty(c.rows, x) ==> Dirty(rows, x))
            && (forall x :: x in c.rows ==> rows[x].inode == c.rows[x].inode)
  {
  }

  lemma WriteGood(c: Client, moving: (Id, Id), id: Id, content: Bytes, parent: Id, name: string)
    requires Sound(c.names) && RowsKeep(c.rows, c.names, moving) && id != "" && id != ROOT_ID
    requires id == moving.1 ==> id in c.rows
    ensures var d := WriteLocalDirty(c, id, content, parent, name);
            Sound(d.names) && Extends(c.names, d.names) && RowsKeep(d.rows, d.names, moving)
  {
    var n := Resize(c.names, id, |content|);
    var m := Alloc(n, id);
    assert Sound(n);
    AllocSound(n, id);
    assert Extends(c.names, m);
    UpsertKeeps(c.rows, c.names, m, moving, id, Row(m.idToIno[id], parent, name, None, true));
  }

  /** Changing rows other than those on the move keeps the invariant. */
  lemma InvFrame(w: World, d: Client, owed: map<Id, Bytes>, outdated: bool)
    requires Inv(w) && Sound(d.names) && RowsKeep(d.rows, d.names, Moving(w))
    requires forall x :: x in w.client.rows && x == Moving(w).1 ==> x in d.rows
    requires forall x :: x in d.rows && Rowless(w, x) ==> x in w.client.rows
    requires (w.up.Loaded? || w.up.Asked? || At(w, Answered)) && Dirty(w.client.rows, w.up.id) && IsPending(w.up.id) ==>
               Dirty(d.rows, w.up.id)
    ensures Inv(w.(client := d, owed := owed, outdated := outdated))
  {
    assert Moving(w.(client := d, owed := owed, outdated := outdated)) == Moving(w);
  }

  lemma WrittenGood(w: World, d: Client, id: Id, content: Bytes, parent: Id, name: string, owed: map<Id, Bytes>,
                    outdated: bool)
    requires Inv(w) && FileId(id) && !Rowless(w, id) && d == WriteLocalDirty(w.client, id, content, parent, name)
    ensures Inv(w.(client := d, owed := owed, outdated := outdated)) && Follows(w.client.names, d.names, "", "")
    ensures forall x :: x in w.client.rows && x in d.rows ==> d.rows[x].inode == w.client.rows[x].inode
  {
    WriteGood(w.client, Moving(w), id, content, parent, name);
    WrittenRows(w.client, id, content, parent, name);
    InvFrame(w, d, owed, outdated);
  }

  /** A release is a local write or nothing. */
  function ReleasedAs(w: World, e: Event): Client
    requires e.ReleaseHandle?
  {
    var n := w.client.names;
    WriteLocalDirty(w.client, e.id, e.content,
                    if IsPending(e.id) && e.id in n.pendingParents then n.pendingParents[e.id] else e.parent,
                    if IsPending(e.id) && e.id in n.metadata then n.metadata[e.id].name else e.name)
  }

  lemma ReleaseShape(w: World, e: Event)
    requires Legal(w, e) && e.ReleaseHandle?
    ensures if IsPending(e.id) && e.content == [] then Apply(w, e) == w
            else Apply(w, e) == w.(client := ReleasedAs(w, e), owed := Owe(w.owed, e.id, e.content),
                                   outdated := w.outdated || InFlight(w, e.id))
  {
  }

  lemma ReleaseGood(w: World, e: Event)
    requires Inv(w) && Legal(w, e) && FreshIds(w, e) && e.ReleaseHandle?
    ensures StepGood(w, e)
  {
    ReleaseShape(w, e);
    if !(IsPending(e.id) && e.content == []) {
      var n := w.client.names;
      var parent := if IsPending(e.id) && e.id in n.pendingParents then n.pendingParents[e.id] else e.parent;
      var name := if IsPending(e.id) && e.id in n.metadata then n.metadata[e.id].name else e.name;
      WrittenGood(w, ReleasedAs(w, e), e.id, e.content, parent, name, Owe(w.owed, e.id, e.content),
                  w.outdated || InFlight(w, e.id));
    }
  }

  lemma ListingGood(w: World, e: Event)
    requires Inv(w) && Legal(w, e) && e.ListingArrives?
    ensures StepGood(w, e)
  {
    RegisterSound(w.client.names, e.parent, e.files);
    assert Inv(Apply(w, e));
  }

  lemma MetadataGood(w: World, e: Event)
    requires Inv(w) && Legal(w, e) && e.MetadataArrives?
    ensures StepGood(w, e)
  {
    AllocSound(w.client.names, e.info.id);
    assert Inv(Apply(w, e));
  }

  lemma RemovalGood(c: Client, moving: (Id, Id), ch: Change)
    requires Sound(c.names) && RowsKeep(c.rows, c.names, moving) && (ch.removed || ch.file.None?)
    ensures var d := ApplyChange(c, ch);
            && Sound(d.names) && Extends(c.names, d.names) && RowsKeep(d.rows, d.names, moving)
            && d.rows == c.rows - {ch.id}
  {
    assert SameInodes(ApplyChange(c, ch).names, c.names);
  }

  function ChangedRow(c: Client, ch: Change): Row
    requires ch.file.Some?
  {
    Row(Alloc(c.names, ch.id).idToIno[ch.id], "", "", ch.file.value.md5, false)
  }

  lemma ChangeShape(c: Client, ch: Change)
    requires !ch.removed && ch.file.Some? && ch.file.value.id == ch.id
    ensures SameInodes(ApplyChange(c, ch).names, Alloc(c.names, ch.id))
    ensures ApplyChange(c, ch).rows ==
            Upsert(if ContentChanged(c.rows, ch) then c.rows - {ch.id} else c.rows, ch.id, ChangedRow(c, ch))
  {
  }

  lemma ChangedRows(c: Client, ch: Change)
    requires !ch.removed && ch.file.Some?
    ensures var rows := ApplyChange(c, ch).rows;
            && rows.Keys == c.rows.Keys + {ch.id}
            && (forall x :: x != ch.id && x in c.rows ==> rows[x] == c.rows[x])
            && (!ContentChanged(c.rows, ch) && ch.id in c.rows ==> rows[ch.id].inode == c.rows[ch.id].inode)
  {
  }

  lemma ChangeGood(c: Client, moving: (Id, Id), ch: Change)
    requires Sound(c.names) && RowsKeep(c.rows, c.names, moving) && ch.id != "" && ch.id != ROOT_ID
    requires !ch.removed && ch.file.Some? && ch.file.value.id == ch.id
    requires ch.id == moving.1 ==> ch.id in c.rows && !ContentChanged(c.rows, ch)
    ensures Sound(ApplyChange(c, ch).names) && Extends(c.names, ApplyChange(c, ch).names)
    ensures RowsKeep(ApplyChange(c, ch).rows, ApplyChange(c, ch).names, moving)
  {
    var n, rows := Alloc(c.names, ch.id), if ContentChanged(c.rows, ch) then c.rows - {ch.id} else c.rows;
    ChangeShape(c, ch);
    AllocSound(c.names, ch.id);
    UpsertKeeps(rows, c.names, n, moving, ch.id, ChangedRow(c, ch));
  }

  lemma FeedGone(w: World, ch: Change)
    requires Inv(w) && Legal(w, FeedChange(ch)) && FreshIds(w, FeedChange(ch)) && (ch.removed || ch.file.None?)
    ensures StepGood(w, FeedChange(ch))
  {
    RemovalGood(w.client, Moving(w), ch);
    assert Inv(Apply(w, FeedChange(ch)));
  }

  /** A row that a change drops and writes again gets its inode back. */
  lemma KeptInodes(c: Client, moving: (Id, Id), ch: Change)
    requires RowsKeep(c.rows, c.names, moving) && RowsKeep(ApplyChange(c, ch).rows, ApplyChange(c, ch).names, moving)
    requires Extends(c.names, ApplyChange(c, ch).names)
    ensures var d := ApplyChange(c, ch);
            forall x :: x in c.rows && x in d.rows ==> d.rows[x].inode == c.rows[x].inode
  {
  }

  lemma ChangedGood(w: World, ch: Change, owed: map<Id, Bytes>, outdated: bool)
    requires Inv(w) && Legal(w, FeedChange(ch)) && FreshIds(w, FeedChange(ch)) && !ch.removed && ch.file.Some?
    ensures var d := ApplyChange(w.client, ch);
            && Inv(w.(client := d, owed := owed, outdated := outdated)) && Follows(w.client.names, d.names, "", "")
            && forall x :: x in w.client.rows && x in d.rows ==> d.rows[x].inode == w.client.rows[x].inode
  {
    ChangeGood(w.client, Moving(w), ch);
    ChangedRows(w.client, ch);
    InvFrame(w, ApplyChange(w.client, ch), owed, outdated);
    KeptInodes(w.client, Moving(w), ch);
  }

  lemma FeedUpdated(w: World, ch: Change)
    requires Inv(w) && Legal(w, FeedChange(ch)) && FreshIds(w, FeedChange(ch)) && !ch.removed && ch.file.Some?
    ensures StepGood(w, FeedChange(ch))
  {
    var r := Apply(w, FeedChange(ch));
    ChangedGood(w, ch, r.owed, r.outdated);
    assert r == w.(client := ApplyChange(w.client, ch), owed := r.owed, outdated := r.outdated);
  }

  lemma FeedGood(w: World, ch: Change)
    requires Inv(w) && Legal(w, FeedChange(ch)) && FreshIds(w, FeedChange(ch))
    ensures StepGood(w, FeedChange(ch))
  {
    if ch.removed || ch.file.None? {
      FeedGone(w, ch);
    } else {
      FeedUpdated(w, ch);
    }
  }

  /** Finalising a creation's row hands the placeholder's inode to the real id. */
  lemma FinalizeGood(rows: map<Id, Row>, n: Names, p: Id, id: Id, md5: Option<string>)
    requires RowsKeep(rows, n, ("", "")) && p in rows && id !in rows && id != "" && id != ROOT_ID && p != id
    ensures var r := FinalizeRows(rows, p, id, md5);
            && RowsKeep(r, n, (p, id)) && p !in r && id in r && r[id].inode == rows[p].inode
            && forall x :: x in r && x in rows ==> r[x] == rows[x]
  {
  }

  lemma RowGood(w: World)
    requires Inv(w) && Legal(w, UploadRow) && FreshIds(w, UploadRow)
    ensures StepGood(w, UploadRow)
  {
    var r := Apply(w, UploadRow);
    assert r.client.names == w.client.names;
    if IsPending(w.up.id) {
      FinalizeGood(w.client.rows, w.client.names, w.up.id, w.up.info.id, w.up.info.md5);
      assert Moving(r) == (w.up.id, w.up.info.id);
      assert r.client.rows == FinalizeRows(w.client.rows, w.up.id, w.up.info.id, w.up.info.md5);
    } else {
      assert r.client.rows == ClearDirty(w.client.rows, w.up.id, w.up.info.md5) && Moving(r) == ("", "");
    }
    assert Inv(r);
  }

  /** Replacing the name hands over the inode in memory as well. */
  lemma SwapKeepsRows(rows: map<Id, Row>, n: Names, p: Id, id: Id)
    requires RowsKeep(rows, n, (p, id)) && p !in rows && id in rows && p != id
    ensures RowsKeep(rows, SwapIno(n, p, id), ("", ""))
  {
  }

  lemma ReplacedInodes(n: Names, p: Id, parent: Id, info: FileInfo)
    ensures SameInodes(ReplacePending(n, p, parent, info), SwapIno(n, p, info.id))
  {
  }

  lemma InodesDecide(n: Names, m: Names, rows: map<Id, Row>)
    requires SameInodes(m, n) && Sound(n) && RowsKeep(rows, n, ("", ""))
    ensures Sound(m) && RowsKeep(rows, m, ("", ""))
  {
  }

  /** Ending a finalisation that leaves rows as they are. */
  lemma FinishedGood(w: World, n: Names)
    requires Inv(w) && At(w, ContentDone) && Sound(n) && RowsKeep(w.client.rows, n, ("", ""))
    ensures Inv(w.(client := w.client.(names := n), up := Idle))
  {
  }

  lemma ReplacedGood(w: World)
    requires Inv(w) && Legal(w, UploadNames) && IsPending(w.up.id)
    ensures StepGood(w, UploadNames)
  {
    var n, m := w.client.names, ReplacePending(w.client.names, w.up.id, w.up.parent, w.up.info);
    SwapSound(n, w.up.id, w.up.info.id);
    SwapKeepsRows(w.client.rows, n, w.up.id, w.up.info.id);
    ReplacedInodes(n, w.up.id, w.up.parent, w.up.info);
    InodesDecide(SwapIno(n, w.up.id, w.up.info.id), m, w.client.rows);
    FinishedGood(w, m);
    assert Apply(w, UploadNames) == w.(client := w.client.(names := m), up := Idle);
  }

  lemma UpdatedGood(w: World)
    requires Inv(w) && Legal(w, UploadNames) && !IsPending(w.up.id)
    ensures StepGood(w, UploadNames)
  {
    var n, r := w.client.names, Apply(w, UploadNames);
    AllocSound(n, w.up.info.id);
    assert r.client == w.client.(names := StoreMetadata(n, w.up.info)) && r.up.Idle?;
    assert SameInodes(r.client.names, Alloc(n, w.up.info.id));
    assert Inv(r);
  }

  lemma NamesGood(w: World)
    requires Inv(w) && Legal(w, UploadNames)
    ensures StepGood(w, UploadNames)
  {
    if IsPending(w.up.id) {
      ReplacedGood(w);
    } else {
      UpdatedGood(w);
    }
  }

  lemma RefusedGood(w: World)
    requires Inv(w) && Legal(w, UploadRefused)
    ensures StepGood(w, UploadRefused)
  {
    var r := Apply(w, UploadRefused);
    assert r.client.names == w.client.names && r.client.rows == w.client.rows - {w.up.id};
    assert Inv(r);
  }

  lemma ForgetGood(w: World)
    requires Inv(w) && Legal(w, UploadForget)
    ensures StepGood(w, UploadForget)
  {
    var r := Apply(w, UploadForget);
    DropSound(w.client.names, w.up.id);
    assert SameInodes(r.client.names, DropIno(w.client.names, w.up.id));
    assert r.client.rows == w.client.rows && r.up.Idle?;
    assert Inv(r);
  }

  /** The rows of a run always restore to the inodes they carry. */
  lemma RestoreRegains(rows: map<Id, Row>, n: Names, moving: (Id, Id), order: seq<(Id, nat)>)
    requires Sound(n) && RowsKeep(rows, n, moving) && MovingSound(rows, moving) && Enumerates(order, rows)
    ensures Sound(Restore(order)) && RowsKeep(rows, Restore(order), ("", ""))
  {
    forall i | 0 <= i < |order|
      ensures ValidRow(order[i]) && order[i].0 != ROOT_ID && order[i].1 in n.inoToId
      ensures n.inoToId[order[i].1] == if order[i].0 == moving.1 then moving.0 else order[i].0
    {
      assert order[i].0 in rows;
    }
    assert UniqueInodes(order);
    RestoreSoundExactly(order);
    RestoreFacts(order);
    forall id | id in rows
      ensures id in Restore(order).idToIno && Restore(order).idToIno[id] == rows[id].inode
    {
      var i :| 0 <= i < |order| && order[i].0 == id;
      assert order[i] in order;
    }
  }

  lemma RestartGood(w: World, order: seq<(Id, nat)>)
    requires Inv(w) && Enumerates(order, w.client.rows)
    ensures StepGood(w, CrashAndRestart(order))
  {
    RestoreRegains(w.client.rows, w.client.names, Moving(w), order);
    assert Inv(Apply(w, CrashAndRestart(order)));
  }

  lemma TiersGood(w: World, e: Event)
    requires Inv(w) && Legal(w, e)
    requires e.OpenHandle? || e.Flush? || e.DownloadArrives? || e.ReadContent? || e.RamEviction? || e.DiskEviction?
             || e.Invalidate? || e.Delete?
    ensures StepGood(w, e)
  {
    var r := Apply(w, e);
    assert SameInodes(r.client.names, w.client.names) && r.client.rows == w.client.rows && r.up == w.up;
    assert Moving(r) == Moving(w);
    assert Inv(r);
  }

  lemma UploadGood(w: World, e: Event)
    requires Inv(w) && Legal(w, e)
    requires e.UploadLoad? || e.UploadAsk? || e.UploadSend? || e.UploadFail? || e.UploadBlob? || e.UploadContent?
    ensures StepGood(w, e)
  {
    var r := Apply(w, e);
    assert r.client.names == w.client.names && r.client.rows == w.client.rows && Moving(r) == Moving(w);
    assert Inv(r);
  }

  lemma RenamedRows(c: Client, from: Id, to: Id, p: Id, name: string)
    ensures var d := Rename(c, from, to, p, name);
            && SameInodes(d.names, c.names) && d.rows.Keys == c.rows.Keys
            && forall x :: x in c.rows ==> d.rows[x].inode == c.rows[x].inode && d.rows[x].dirty == c.rows[x].dirty
  {
  }

  lemma RenameGood(w: World, e: Event)
    requires Inv(w) && Legal(w, e) && e.RenamePlaceholder?
    ensures StepGood(w, e)
  {
    var d := Rename(w.client, e.from, e.to, e.id, e.name);
    RenamedRows(w.client, e.from, e.to, e.id, e.name);
    InvFrame(w, d, w.owed, w.outdated);
    assert Apply(w, e) == w.(client := d, owed := w.owed, outdated := w.outdated);
  }

  lemma Step(w: World, e: Event)
    requires Inv(w) && Legal(w, e) && FreshIds(w, e)
    ensures StepGood(w, e)
  {
    if e.CreateFile? {
      CreateGood(w, e);
    } else if e.ReleaseHandle? {
      ReleaseGood(w, e);
    } else if e.ListingArrives? {
      ListingGood(w, e);
    } else if e.MetadataArrives? {
      MetadataGood(w, e);
    } else if e.FeedChange? {
      FeedGood(w, e.change);
    } else if e.UploadRow? {
      RowGood(w);
    } else if e.UploadNames? {
      NamesGood(w);
    } else if e.UploadRefused? {
      RefusedGood(w);
    } else if e.UploadForget? {
      ForgetGood(w);
    } else if e.CrashAndRestart? {
      RestartGood(w, e.rowOrder);
    } else if e.RenamePlaceholder? {
      RenameGood(w, e);
    } else if e.OpenHandle? || e.Flush? || e.DownloadArrives? || e.ReadContent? || e.RamEviction? || e.DiskEviction?
              || e.Invalidate? || e.Delete? {
      TiersGood(w, e);
    } else {
      UploadGood(w, e);
    }
  }

  /** A file that a listing brings can be reached by its inode, and has the
      metadata that arrived. */
  lemma ListedInodesLead(w: World, e: Event)
    requires Inv(w) && Legal(w, e) && e.ListingArrives?
    ensures var n := Apply(w, e).client.names;
            forall i: nat :: i < |e.files| ==>
              var id := e.files[i].id;
              && id in n.idToIno && n.idToIno[id] in n.inoToId && n.inoToId[n.idToIno[id]] == id
              && (L.LastOf(e.files, i) ==> id in n.metadata && n.metadata[id] == e.files[i])
  {
    ListingGood(w, e);
    L.ListingRegisters(w.client.names, e.parent, e.files, e.order);
  }

  ghost predicate FreshRun(w: World, es: seq<Event>)
    requires IsRun(w, es)
    decreases |es|
  {
    es == [] || (FreshIds(w, es[0]) && FreshRun(Apply(w, es[0]), es[1..]))
  }

  lemma {:induction false} InvRun(w: World, es: seq<Event>)
    requires Inv(w) && IsRun(w, es) && FreshRun(w, es)
    ensures Inv(Run(w, es))
    decreases |es|
  {
    if es != [] {
      Step(w, es[0]);
      InvRun(Apply(w, es[0]), es[1..]);
    }
  }

  /** Main result: over any run with any number of restarts the inode maps are
      sound and every row carries its id's inode, or, between the calls that
      replace a placeholder, the placeholder's. */
  lemma InodesSound(ramMax: nat, drive: map<Id, Bytes>, es: seq<Event>)
    requires IsRun(FirstStart(ramMax, drive), es) && FreshRun(FirstStart(ramMax, drive), es)
    ensures var w := Run(FirstStart(ramMax, drive), es);
            Sound(w.client.names) && RowsKeep(w.client.rows, w.client.names, Moving(w))
  {
    InvRun(FirstStart(ramMax, drive), es);
  }

  // ── Stores to a placeholder that is losing its inode ──

  lemma SharedRows(w: World, e: Event)
    requires Inv(w) && Legal(w, e) && e.ReleaseHandle? && e.content != [] && e.id == Moving(w).0
    ensures var rows := Apply(w, e).client.rows;
            e.id in rows && Moving(w).1 in rows && rows[e.id].inode == rows[Moving(w).1].inode >= ROOT_INO
  {
    ReleaseShape(w, e);
    AllocSound(Resize(w.client.names, e.id, |e.content|), e.id);
  }

  lemma SharedUnsound(rows: map<Id, Row>, order: seq<(Id, nat)>, a: Id, b: Id)
    requires Enumerates(order, rows) && ROOT_ID !in rows && a != b && a != "" && b != ""
    requires a in rows && b in rows && rows[a].inode == rows[b].inode >= ROOT_INO
    ensures !Sound(Restore(order))
  {
    var i :| 0 <= i < |order| && order[i].0 == a;
    var j :| 0 <= j < |order| && order[j].0 == b;
    assert ValidRow(order[i]) && ValidRow(order[j]) && i != j && order[i].1 == order[j].1;
    RestoreSoundExactly(order);
  }

  /** A release to a placeholder whose row has been finalised gives its new row
      the inode that the real id's row has.  A remount after it is sound
      exactly when the release was empty and skipped. */
  lemma SharedInode(w: World, e: Event, order: seq<(Id, nat)>)
    requires Inv(w) && Legal(w, e) && e.ReleaseHandle? && e.id == Moving(w).0
    requires Enumerates(order, Apply(w, e).client.rows)
    ensures Sound(Restore(order)) <==> e.content == []
  {
    if e.content == [] {
      RestoreRegains(w.client.rows, w.client.names, Moving(w), order);
    } else {
      SharedRows(w, e);
      var rows := Apply(w, e).client.rows;
      assert rows.Keys == w.client.rows.Keys + {e.id};
      SharedUnsound(rows, order, e.id, Moving(w).1);
    }
  }

  /** A release after Drive has refused the placeholder makes a row whose inode
      and metadata go with the placeholder. */
  lemma RowWithoutInode(w: World, e: Event)
    requires Inv(w) && Legal(w, e) && e.ReleaseHandle? && w.up.Refused? && e.id == w.up.id
    ensures Legal(Apply(w, e), UploadForget)
    ensures var c := Apply(Apply(w, e), UploadForget).client;
            && e.id !in c.names.idToIno && e.id !in c.names.metadata
            && (e.id in c.rows <==> e.content != [])
  {
    ReleaseShape(w, e);
  }

  /** Nothing is finalised or refused, and nothing arrives from the feed. */
  predicate AllEarly(es: seq<Event>) {
    forall e :: e in es ==> !e.UploadRow? && !e.UploadRefused? && !e.FeedChange?
  }

  lemma EarlyStep(w: World, e: Event)
    requires Legal(w, e) && !e.UploadRow? && !e.UploadRefused? && !e.FeedChange?
    requires !w.up.Refused? && (w.up.Sent? ==> At(w, Answered))
    ensures FreshIds(w, e)
    ensures var r := Apply(w, e); !r.up.Refused? && (r.up.Sent? ==> At(r, Answered))
  {
  }

  lemma {:induction false} EarlyRun(w: World, es: seq<Event>)
    requires Inv(w) && IsRun(w, es) && AllEarly(es)
    requires !w.up.Refused? && (w.up.Sent? ==> At(w, Answered))
    ensures FreshRun(w, es) && Inv(Run(w, es))
    decreases |es|
  {
    if es != [] {
      assert es[0] in es && forall e :: e in es[1..] ==> e in es;
      EarlyStep(w, es[0]);
      Step(w, es[0]);
      EarlyRun(Apply(w, es[0]), es[1..]);
    }
  }

  // ── Inodes over time ──

  /** The id under which the namespace knows a file after a step. */
  function NamedStep(w: World, e: Event, id: Id): Id {
    if e.UploadNames? && w.up.Sent? && w.up.id == id && IsPending(id) then w.up.info.id else id
  }

  ghost function Named(w: World, es: seq<Event>, id: Id): Id
    requires IsRun(w, es)
    decreases |es|
  {
    if es == [] then id else Named(Apply(w, es[0]), es[1..], NamedStep(w, es[0], id))
  }

  lemma FollowsOneStep(w: World, e: Event)
    requires Inv(w) && Legal(w, e) && StepGood(w, e) && !e.CrashAndRestart?
    ensures var n, m := w.client.names, Apply(w, e).client.names;
            && n.nextIno <= m.nextIno
            && forall i :: i < n.nextIno && i in m.inoToId ==>
                 i in n.inoToId && m.inoToId[i] == NamedStep(w, e, n.inoToId[i])
  {
  }

  /** Main result: within a mount, an inode that still names a file names the
      one it named before, or the real file that its placeholder became. */
  lemma {:induction false} InodesStable(w: World, es: seq<Event>)
    requires Inv(w) && IsRun(w, es) && FreshRun(w, es)
    requires forall e :: e in es ==> !e.CrashAndRestart?
    ensures w.client.names.nextIno <= Run(w, es).client.names.nextIno
    ensures forall i :: i < w.client.names.nextIno && i in Run(w, es).client.names.inoToId ==>
              i in w.client.names.inoToId
              && Run(w, es).client.names.inoToId[i] == Named(w, es, w.client.names.inoToId[i])
    decreases |es|
  {
    if es != [] {
      var v := Apply(w, es[0]);
      Step(w, es[0]);
      FollowsOneStep(w, es[0]);
      assert forall e :: e in es[1..] ==> e in es;
      InodesStable(v, es[1..]);
    }
  }

  /** The file has a row in every state, under the id it goes on with. */
  ghost predicate AlwaysHasRow(w: World, es: seq<Event>, id: Id)
    requires IsRun(w, es)
    decreases |es|
  {
    id in w.client.rows && (es == [] || AlwaysHasRow(Apply(w, es[0]), es[1..], FollowStep(w, es[0], id)))
  }

  /** A promotion hands the row's inode to the real id; nothing else changes
      the inode of a row. */
  lemma RowFollows(w: World, e: Event, id: Id)
    requires Inv(w) && Legal(w, e) && FreshIds(w, e) && id in w.client.rows
    requires FollowStep(w, e, id) in Apply(w, e).client.rows
    ensures Apply(w, e).client.rows[FollowStep(w, e, id)].inode == w.client.rows[id].inode
  {
    if FollowStep(w, e, id) == id {
      Step(w, e);
    } else {
      FinalizeGood(w.client.rows, w.client.names, id, w.up.info.id, w.up.info.md5);
      assert Apply(w, e).client.rows == FinalizeRows(w.client.rows, id, w.up.info.id, w.up.info.md5);
    }
  }

  /** Main result: a file that keeps a row keeps its inode, through its
      promotion from placeholder to real file and across any number of crashes
      and remounts, in the table always and in memory except between the calls
      that replace its placeholder. */
  lemma {:induction false} InodeSurvivesRemounts(w: World, es: seq<Event>, id: Id)
    requires Inv(w) && IsRun(w, es) && FreshRun(w, es) && AlwaysHasRow(w, es, id)
    ensures var c, f := Run(w, es).client, Follow(w, es, id);
            && f in c.rows && c.rows[f].inode == w.client.rows[id].inode
            && (f != Moving(Run(w, es)).1 ==> f in c.names.idToIno && c.names.idToIno[f] == w.client.rows[id].inode)
    decreases |es|
  {
    if es != [] {
      var f := FollowStep(w, es[0], id);
      Step(w, es[0]);
      assert f in Apply(w, es[0]).client.rows;
      RowFollows(w, es[0], id);
      InodeSurvivesRemounts(Apply(w, es[0]), es[1..], f);
    }
  }
}
