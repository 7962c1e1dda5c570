/** `DbManager`: the SQLite tables, with each statement taken to succeed. */
module DbManager {
  import opened Basics
  import opened ContentTiers
  import opened Names
  import opened Client

  /** A row returned by a query, with its primary key. */
  datatype CachedMeta = CachedMeta(id: Id, row: Row)

  /** The dirty rows of the table, each once, in some order. */
  ghost predicate ListsDirty(entries: seq<CachedMeta>, rows: map<Id, Row>) {
    && (forall e :: e in entries <==> Dirty(rows, e.id) && e.row == rows[e.id])
    && (forall i, j :: 0 <= i < j < |entries| ==> entries[i].id != entries[j].id)
  }

  class DbManager {
    var rows: map<Id, Row>
    var blobs: map<Key, Bytes>
    var token: Option<nat>

    constructor ()
      ensures rows == map[] && blobs == map[] && token == None
    {
      rows, blobs, token := map[], map[], None;
    }

    // ── Metadata rows ──

    /** The upsert leaves the inode of an existing row alone. */
    method StoreMetadata(id: Id, inode: nat, parent: Id, name: string, md5: Option<string>, dirty: bool)
      modifies this`rows
      ensures rows == Upsert(old(rows), id, Row(inode, parent, name, md5, dirty))
      ensures var kept := if id in old(rows) then old(rows)[id].inode else inode;
              rows == old(rows)[id := Row(kept, parent, name, md5, dirty)]
    {
      if id in rows {
        rows := rows[id := rows[id].(parent := parent, name := name, md5 := md5, dirty := dirty)];
      } else {
        rows := rows[id := Row(inode, parent, name, md5, dirty)];
      }
    }

    method GetMetadata(id: Id) returns (row: Option<Row>)
      ensures row == if id in rows then Some(rows[id]) else None
    {
      row := if id in rows then Some(rows[id]) else None;
    }

    method ListDirtyEntries() returns (entries: seq<CachedMeta>)
      ensures ListsDirty(entries, rows)
    {
      entries := [];
      var ids := rows.Keys;
      while ids != {}
        invariant ids <= rows.Keys
        invariant forall e :: e in entries <==> e.id !in ids && Dirty(rows, e.id) && e.row == rows[e.id]
        invariant forall i, j :: 0 <= i < j < |entries| ==> entries[i].id != entries[j].id
        decreases ids
      {
        var id :| id in ids;
        assert forall e :: e in entries ==> e.id != id;
        if rows[id].dirty {
          entries := entries + [CachedMeta(id, rows[id])];
        }
        ids := ids - {id};
      }
    }

    method LoadInodeMap() returns (order: seq<(Id, nat)>)
      ensures Enumerates(order, rows)
    {
      order := [];
      var ids := rows.Keys;
      while ids != {}
        invariant ids <= rows.Keys
        invariant forall i :: 0 <= i < |order| ==>
                    order[i].0 in rows && order[i].0 !in ids && order[i].1 == rows[order[i].0].inode
        invariant forall i, j :: 0 <= i < j < |order| ==> order[i].0 != order[j].0
        invariant forall id :: id in rows && id !in ids ==> exists i :: 0 <= i < |order| && order[i].0 == id
        decreases ids
      {
        var id :| id in ids;
        ghost var before := order;
        order := order + [(id, rows[id].inode)];
        ids := ids - {id};
        forall k | k in rows && k !in ids ensures exists i :: 0 <= i < |order| && order[i].0 == k {
          if k == id {
            assert order[|before|].0 == id;
          } else {
            var i :| 0 <= i < |before| && before[i].0 == k;
            assert order[i].0 == k;
          }
        }
      }
    }

    method ClearDirtyAfterUpload(id: Id, md5: Option<string>)
      modifies this`rows
      ensures rows == ClearDirty(old(rows), id, md5)
      ensures rows.Keys == old(rows).Keys && forall x :: x in rows && x != id ==> rows[x] == old(rows)[x]
      ensures id in rows ==> rows[id] == old(rows)[id].(dirty := false, md5 := md5)
    {
      if id in rows {
        rows := rows[id := rows[id].(dirty := false, md5 := md5)];
      }
    }

    /** Two updates of a primary key; each fails silently if the new key is
        taken. */
    method FinalizeNewFile(pending: Id, id: Id, md5: Option<string>)
      modifies this`rows, this`blobs
      ensures rows == FinalizeRows(old(rows), pending, id, md5)
      ensures rows == if pending in old(rows) && id !in old(rows)
                      then (old(rows) - {pending})[id := old(rows)[pending].(dirty := false, md5 := md5)]
                      else old(rows)
      ensures blobs == FinalizeBlobs(old(blobs), pending, id, md5)
      ensures var key := match md5 case Some(m) => m case None => id;
              blobs == if pending in old(blobs) && key !in old(blobs)
                       then (old(blobs) - {pending})[key := old(blobs)[pending]] else old(blobs)
    {
      if pending in rows && id !in rows {
        var row := rows[pending].(dirty := false, md5 := md5);
        rows := (rows - {pending})[id := row];
      }
      var key := if md5.Some? then md5.value else id;
      if pending in blobs && key !in blobs {
        var data := blobs[pending];
        blobs := (blobs - {pending})[key := data];
      }
    }

    method AbandonDirtyEntry(id: Id)
      modifies this`rows
      ensures rows == if Dirty(old(rows), id) then old(rows) - {id} else old(rows)
    {
      if id in rows && rows[id].dirty {
        rows := rows - {id};
      }
    }

    method RemoveEntry(id: Id)
      modifies this`rows, this`blobs
      ensures rows == old(rows) - {id} && blobs == old(blobs) - {id}
    {
      rows := rows - {id};
      blobs := blobs - {id};
    }

    // ── Small files ──

    method StoreSmallFile(key: Key, data: Bytes)
      modifies this`blobs
      ensures blobs == old(blobs)[key := data]
    {
      blobs := blobs[key := data];
    }

    method DeleteSmallFile(key: Key)
      modifies this`blobs
      ensures blobs == old(blobs) - {key}
    {
      blobs := blobs - {key};
    }

    method MigrateSmallFileKey(from: Key, to: Key)
      modifies this`blobs
      ensures blobs == MoveKey(old(blobs), from, to)
      ensures blobs == if from in old(blobs) && from != to then (old(blobs) - {from})[to := old(blobs)[from]]
                       else old(blobs)
    {
      if from == to {
        return;
      }
      if from in blobs {
        blobs := blobs[to := blobs[from]];
        blobs := blobs - {from};
      }
    }

    method SetSyncToken(position: nat)
      modifies this`token
      ensures token == Some(position)
    {
      token := Some(position);
    }

    // ── Garbage collection ──

    /** `run_gc` over the content directory. */
    method RunGc(disk: map<Key, Bytes>) returns (kept: map<Key, Bytes>)
      ensures kept == Collect(rows, disk)
      ensures forall k :: k in kept <==>
                && k in disk
                && (|| (4 <= |k| && k[|k| - 4..] == ".tmp")
                    || (k != "" && exists id :: id in rows && rows[id].md5 == Some(k))
                    || (k in rows && rows[k].dirty))
      ensures forall k :: k in kept ==> kept[k] == disk[k]
    {
      var protected := ProtectedKeys();
      kept := disk;
      var names := disk.Keys;
      while names != {}
        invariant names <= disk.Keys
        invariant kept == map k | k in disk && (k in names || GcKeeps(rows, k)) :: disk[k]
        decreases names
      {
        var name :| name in names;
        names := names - {name};
        if EndsWith(name, ".tmp") {
          continue;
        }
        if name !in protected {
          kept := kept - {name};
        }
      }
    }

    /** The two queries of `run_gc`: checksums in use, and dirty ids. */
    method ProtectedKeys() returns (protected: set<Key>)
      ensures forall k :: k in protected <==>
                (k != "" && exists id :: id in rows && rows[id].md5 == Some(k)) || Dirty(rows, k)
    {
      protected := {};
      var ids := rows.Keys;
      while ids != {}
        invariant ids <= rows.Keys
        invariant forall k :: k in protected <==>
                    || (k != "" && exists id :: id in rows && id !in ids && rows[id].md5 == Some(k))
                    || (Dirty(rows, k) && k !in ids)
        decreases ids
      {
        var id :| id in ids;
        ids := ids - {id};
        if rows[id].md5.Some? && rows[id].md5.value != "" {
          protected := protected + {rows[id].md5.value};
        }
        if rows[id].dirty {
          protected := protected + {id};
        }
      }
    }
  }
}
