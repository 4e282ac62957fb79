/** The browser's task store (an IndexedDB object store keyed by `clientId`)
    and the helpers of public/app.js that read and write it. Each helper is
    one atomic update of the key-to-row map: a function states the new map,
    and a method of `TaskDb` performs the update in place. */
module LocalStore {
  import opened Tasks

  type Rows = map<ClientId, Task>

  /** The store's key path: every row lies under its own `clientId`. */
  ghost predicate Keyed(rows: Rows)
  {
    forall k | k in rows :: rows[k].clientId == Some(k)
  }

  /** A row carries a server id exactly when its key is `s:<id>`, and then
      the two agree. */
  ghost predicate TaggedRow(k: ClientId, t: Task)
  {
    t.id == (if k.Server? then Some(k.id) else None)
  }

  ghost predicate Tagged(rows: Rows)
  {
    forall k | k in rows :: TaggedRow(k, rows[k])
  }

  /** With tagged rows, no two rows mirror the same server task. */
  lemma OneRowPerServerId(rows: Rows, k1: ClientId, k2: ClientId)
    requires Tagged(rows) && k1 in rows && k2 in rows
    requires rows[k1].id.Some? && rows[k1].id == rows[k2].id
    ensures k1 == k2
  {
  }

  /** `store.put(t)`: the row lands under its own key; no other row changes. */
  function Put(rows: Rows, t: Task): (r: Rows)
    requires t.clientId.Some?
    ensures r.Keys == rows.Keys + {t.clientId.value} && r[t.clientId.value] == t
    ensures forall k | k in rows && k != t.clientId.value :: r[k] == rows[k]
  {
    rows[t.clientId.value := t]
  }

  /** A put keeps the store keyed, and tagged when the new row is. */
  lemma PutKeepsShape(rows: Rows, t: Task)
    requires t.clientId.Some?
    ensures Keyed(rows) ==> Keyed(Put(rows, t))
    ensures Tagged(rows) && TaggedRow(t.clientId.value, t) ==> Tagged(Put(rows, t))
  {
  }

  /** `store.delete(k)`. */
  function Remove(rows: Rows, k: ClientId): (r: Rows)
    ensures r.Keys == rows.Keys - {k}
    ensures forall k' | k' in r :: r[k'] == rows[k']
  {
    rows - {k}
  }

  // ---------------------------------------------------------------- saveTaskLocal

  /** The key `saveTaskLocal` files a task under: its own, or `l:<now>`. */
  function SavedKey(task: Task, now: int): ClientId
  {
    if task.clientId.Some? then task.clientId.value else Local(now)
  }

  /** The row `saveTaskLocal` writes: keyed, marked dirty, and stamped with
      `now` unless it already has a creation time. */
  function Saved(task: Task, now: int): (t: Task)
    ensures t.clientId == Some(SavedKey(task, now)) && t.dirty
    ensures task.clientId.None? ==> t.clientId == Some(Local(now)) && t.localId == t.clientId
    ensures task.clientId.Some? ==> t.localId == task.localId
    ensures task.createdAt != 0 ==> t.createdAt == task.createdAt
    ensures task.createdAt == 0 ==> t.createdAt == now
    ensures t.(clientId := task.clientId, localId := task.localId, dirty := task.dirty,
               createdAt := task.createdAt) == task
  {
    var keyed := if task.clientId.Some? then task
                 else task.(clientId := Some(Local(now)), localId := Some(Local(now)));
    keyed.(dirty := true, createdAt := if task.createdAt != 0 then task.createdAt else now)
  }

  /** `saveTaskLocal(task)` on the store. */
  function SaveLocal(rows: Rows, task: Task, now: int): Rows
  {
    Put(rows, Saved(task, now))
  }

  /** A task saved without a key takes the fresh key `l:<now>`; if a row
      already has that key (two saves within one millisecond) it is
      overwritten, otherwise every earlier row survives. */
  lemma SaveLocalFreshKey(rows: Rows, task: Task, now: int)
    requires task.clientId.None?
    ensures var r := SaveLocal(rows, task, now);
      && Local(now) in r && r[Local(now)].dirty && r[Local(now)].localId == Some(Local(now))
      && (Local(now) !in rows ==> |r| == |rows| + 1 && forall k | k in rows :: r[k] == rows[k])
  {
  }

  // ---------------------------------------------------------------- putTaskLocalNoDirty

  /** `putTaskLocalNoDirty(t)`: writes the row with `dirty` cleared. */
  function PutClean(rows: Rows, t: Task): (r: Rows)
    requires t.clientId.Some?
    ensures t.clientId.value in r && !r[t.clientId.value].dirty
    ensures r[t.clientId.value].(dirty := t.dirty) == t
    ensures forall k | k in rows && k != t.clientId.value :: k in r && r[k] == rows[k]
    ensures forall k | k in r && k != t.clientId.value :: k in rows
  {
    Put(rows, t.(dirty := false))
  }

  // ---------------------------------------------------------------- deleteTaskLocal

  /** `deleteTaskLocal(k)`: a row with an `s:` key becomes a tombstone
      (deleted and dirty, every other field kept); a row with an `l:` key is
      purged; a missing key changes nothing. */
  function DeleteLocal(rows: Rows, k: ClientId): (r: Rows)
    ensures k !in rows ==> r == rows
    ensures k in rows && k.Server? ==>
      && k in r && r[k].deleted && r[k].dirty
      && r[k].(deleted := rows[k].deleted, dirty := rows[k].dirty) == rows[k]
    ensures k in rows && k.Local? ==> k !in r
    ensures forall k' | k' != k :: (k' in r <==> k' in rows) && (k' in r ==> r[k'] == rows[k'])
  {
    if k !in rows then rows
    else if k.Server? then rows[k := rows[k].(deleted := true, dirty := true)]
    else Remove(rows, k)
  }

  /** Deleting keeps the store keyed and tagged: a tombstone keeps its key and id. */
  lemma DeleteLocalKeepsShape(rows: Rows, k: ClientId)
    ensures Keyed(rows) ==> Keyed(DeleteLocal(rows, k))
    ensures Tagged(rows) ==> Tagged(DeleteLocal(rows, k))
  {
  }

  // ---------------------------------------------------------------- replaceLocalWithServer

  /** The row that mirrors a server task: keyed `s:<id>`, clean, with no
      local id, every server field kept. */
  function Mirror(st: ServerTask): (t: Task)
    ensures t.clientId == Some(Server(IdOf(st))) && !t.dirty && t.localId.None?
    ensures TaggedRow(Server(IdOf(st)), t)
    ensures t.(clientId := st.clientId, dirty := st.dirty, localId := st.localId) == st
  {
    st.(clientId := Some(Server(IdOf(st))), dirty := false, localId := None)
  }

  /** `replaceLocalWithServer(old, st)`: the old key is gone, `s:<id>` holds
      the mirror of `st`, and no other row changes. */
  function ReplaceWithServer(rows: Rows, oldKey: ClientId, st: ServerTask): (r: Rows)
    ensures Server(IdOf(st)) in r && r[Server(IdOf(st))] == Mirror(st)
    ensures oldKey != Server(IdOf(st)) ==> oldKey !in r
    ensures r.Keys == rows.Keys - {oldKey} + {Server(IdOf(st))}
    ensures forall k | k in rows && k != oldKey && k != Server(IdOf(st)) :: r[k] == rows[k]
  {
    Put(Remove(rows, oldKey), Mirror(st))
  }

  /** The swap keeps the store keyed and tagged: the mirror lies under
      `s:<id>` and carries that id. */
  lemma ReplaceKeepsShape(rows: Rows, oldKey: ClientId, st: ServerTask)
    ensures Keyed(rows) ==> Keyed(ReplaceWithServer(rows, oldKey, st))
    ensures Tagged(rows) ==> Tagged(ReplaceWithServer(rows, oldKey, st))
  {
  }

  // ---------------------------------------------------------------- checkbox edit

  /** The checkbox handler writes back the row it rendered, with the new
      completed flag and marked dirty. */
  function CheckboxEdit(rows: Rows, t: Task, checked: bool): (r: Rows)
    requires t.clientId.Some?
    ensures t.clientId.value in r && r[t.clientId.value].completed == checked
    ensures r[t.clientId.value].dirty
    ensures forall k | k != t.clientId.value :: (k in r <==> k in rows) && (k in r ==> r[k] == rows[k])
    ensures t.clientId.value in rows && rows[t.clientId.value] == t ==>
      r[t.clientId.value] == rows[t.clientId.value].(completed := checked, dirty := true)
  {
    Put(rows, t.(completed := checked, dirty := true))
  }

  /** A tombstone stays a tombstone through a checkbox edit and stays dirty. */
  lemma CheckboxKeepsTombstone(rows: Rows, k: ClientId, checked: bool)
    requires k in rows && rows[k].clientId == Some(k) && rows[k].deleted
    ensures var r := CheckboxEdit(rows, rows[k], checked); r[k].deleted && r[k].dirty
  {
  }

  // ---------------------------------------------------------------- getAllTasksLocal

  /** `s` lists rows of the store, each under a different key. */
  ghost predicate Snapshot(s: seq<Task>, rows: Rows)
  {
    && (forall i | 0 <= i < |s| ::
          s[i].clientId.Some? && s[i].clientId.value in rows && rows[s[i].clientId.value] == s[i])
    && (forall i, j | 0 <= i < j < |s| :: s[i].clientId != s[j].clientId)
  }

  /** `s` lists every row of the store once. */
  ghost predicate Lists(s: seq<Task>, rows: Rows)
  {
    && Snapshot(s, rows)
    && (forall k | k in rows :: exists i | 0 <= i < |s| :: s[i].clientId == Some(k))
  }

  /** `s` lists, once each, exactly the rows under `keys`. */
  ghost predicate ListsKeys(s: seq<Task>, rows: Rows, keys: set<ClientId>)
  {
    && Snapshot(s, rows)
    && (forall i | 0 <= i < |s| :: s[i].clientId.value in keys)
    && (forall k | k in keys :: exists i | 0 <= i < |s| :: s[i].clientId == Some(k))
  }

  lemma ListsOneMore(s: seq<Task>, rows: Rows, keys: set<ClientId>, k: ClientId)
    requires ListsKeys(s, rows, keys)
    requires k in rows && rows[k].clientId == Some(k) && k !in keys
    ensures ListsKeys(s + [rows[k]], rows, keys + {k})
  {
    var s' := s + [rows[k]];
    forall k' | k' in keys + {k}
      ensures exists i | 0 <= i < |s'| :: s'[i].clientId == Some(k')
    {
      if k' == k {
        assert s'[|s|].clientId == Some(k');
      } else {
        var i :| 0 <= i < |s| && s[i].clientId == Some(k');
        assert s'[i] == s[i];
      }
    }
  }

  /** Newest first: creation times never increase along `s`. */
  ghost predicate NewestFirst(s: seq<Task>)
  {
    forall i, j | 0 <= i < j < |s| :: s[i].createdAt >= s[j].createdAt
  }

  /** One turn of the listing loop: appending a newest row of those not yet
      listed keeps the listing newest first and ahead of the rest. */
  lemma TakeNewest(s: seq<Task>, rows: Rows, left: set<ClientId>, k: ClientId)
    requires Keyed(rows) && left <= rows.Keys
    requires ListsKeys(s, rows, rows.Keys - left) && NewestFirst(s)
    requires forall i, k' | 0 <= i < |s| && k' in left :: s[i].createdAt >= rows[k'].createdAt
    requires k in left && forall k' | k' in left :: rows[k'].createdAt <= rows[k].createdAt
    ensures ListsKeys(s + [rows[k]], rows, rows.Keys - (left - {k}))
    ensures NewestFirst(s + [rows[k]])
    ensures forall i, k' | 0 <= i < |s| + 1 && k' in left - {k} :: (s + [rows[k]])[i].createdAt >= rows[k'].createdAt
  {
    ListsOneMore(s, rows, rows.Keys - left, k);
    assert rows.Keys - left + {k} == rows.Keys - (left - {k});
    AppendNewest(s, rows, left, k);
  }

  lemma AppendNewest(s: seq<Task>, rows: Rows, left: set<ClientId>, k: ClientId)
    requires left <= rows.Keys && NewestFirst(s)
    requires forall i, k' | 0 <= i < |s| && k' in left :: s[i].createdAt >= rows[k'].createdAt
    requires k in left && forall k' | k' in left :: rows[k'].createdAt <= rows[k].createdAt
    ensures NewestFirst(s + [rows[k]])
    ensures forall i, k' | 0 <= i < |s| + 1 && k' in left - {k} :: (s + [rows[k]])[i].createdAt >= rows[k'].createdAt
  {
    var s' := s + [rows[k]];
    forall i, j | 0 <= i < j < |s'|
      ensures s'[i].createdAt >= s'[j].createdAt
    {
      if j < |s| {
        assert s'[i] == s[i] && s'[j] == s[j];
      } else {
        assert s'[i] == s[i] && s'[j] == rows[k];
      }
    }
    forall i, k' | 0 <= i < |s'| && k' in left - {k}
      ensures s'[i].createdAt >= rows[k'].createdAt
    {
      if i < |s| {
        assert s'[i] == s[i];
      }
    }
  }

  /** Some key of a non-empty set holds a row created no earlier than any other. */
  lemma {:induction false} NewestExists(keys: set<ClientId>, rows: Rows)
    requires keys != {} && keys <= rows.Keys
    ensures exists k | k in keys :: forall k' | k' in keys :: rows[k'].createdAt <= rows[k].createdAt
    decreases keys
  {
    var x :| x in keys;
    if keys != {x} {
      NewestExists(keys - {x}, rows);
      var m :| m in keys - {x} && forall k' | k' in keys - {x} :: rows[k'].createdAt <= rows[m].createdAt;
      if rows[x].createdAt <= rows[m].createdAt {
        assert forall k' | k' in keys :: rows[k'].createdAt <= rows[m].createdAt;
      } else {
        assert forall k' | k' in keys :: rows[k'].createdAt <= rows[x].createdAt;
      }
    } else {
      assert forall k' | k' in keys :: k' == x;
    }
  }

  class TaskDb {
    var rows: Rows

    ghost predicate Valid()
      reads this
    {
      Keyed(rows)
    }

    constructor ()
      ensures rows == map[] && Valid()
    {
      rows := map[];
    }

    /** `saveTaskLocal(task)`; answers the row as stored (the source gives
        the caller's object its new key in place). */
    method SaveTaskLocal(task: Task, now: int) returns (stored: Task)
      modifies this
      ensures stored == Saved(task, now) && rows == SaveLocal(old(rows), task, now)
      ensures old(Valid()) ==> Valid()
    {
      var t := task;
      if t.clientId.None? {
        t := t.(clientId := Some(Local(now)));
        t := t.(localId := t.clientId);
      }
      t := t.(dirty := true);
      t := t.(createdAt := if t.createdAt != 0 then t.createdAt else now);
      rows := rows[t.clientId.value := t];
      stored := t;
    }

    /** `putTaskLocalNoDirty(t)`. */
    method PutTaskLocalNoDirty(t: Task)
      requires t.clientId.Some?
      modifies this
      ensures rows == PutClean(old(rows), t)
      ensures old(Valid()) ==> Valid()
    {
      var clean := t.(dirty := false);
      rows := rows[clean.clientId.value := clean];
    }

    /** `store.delete(k)` as phase 2 of the sync issues it. */
    method DeleteRow(k: ClientId)
      modifies this
      ensures rows == Remove(old(rows), k)
      ensures old(Valid()) ==> Valid()
    {
      rows := rows - {k};
    }

    /** `deleteTaskLocal(k)`. */
    method DeleteTaskLocal(k: ClientId)
      modifies this
      ensures rows == DeleteLocal(old(rows), k)
      ensures old(Valid()) ==> Valid()
    {
      if k !in rows {
        return;
      }
      var t := rows[k];
      if k.Server? {
        t := t.(deleted := true, dirty := true);
        rows := rows[k := t];
      } else {
        rows := rows - {k};
      }
    }

    /** `replaceLocalWithServer(oldKey, st)`. */
    method ReplaceLocalWithServer(oldKey: ClientId, st: ServerTask)
      modifies this
      ensures rows == ReplaceWithServer(old(rows), oldKey, st)
      ensures old(Valid()) ==> Valid()
    {
      rows := rows - {oldKey};
      var key := Server(IdOf(st));
      var row := st.(clientId := Some(key), dirty := false, localId := None);
      rows := rows[key := row];
    }

    /** The checkbox `change` handler's store write for the rendered row `t`. */
    method CheckboxChanged(t: Task, checked: bool)
      requires t.clientId.Some?
      modifies this
      ensures rows == CheckboxEdit(old(rows), t, checked)
      ensures old(Valid()) ==> Valid()
    {
      var edited := t.(completed := checked);
      edited := edited.(dirty := true);
      rows := rows[edited.clientId.value := edited];
    }

    /** `getAllTasksLocal()`: every row once, newest first. Rows created at
        the same time come in an order this model leaves open. */
    method GetAllTasksLocal() returns (s: seq<Task>)
      requires Valid()
      ensures Lists(s, rows) && NewestFirst(s)
    {
      s := [];
      var left := rows.Keys;
      while left != {}
        invariant left <= rows.Keys
        invariant ListsKeys(s, rows, rows.Keys - left)
        invariant NewestFirst(s)
        invariant forall i, k | 0 <= i < |s| && k in left :: s[i].createdAt >= rows[k].createdAt
        decreases left
      {
        NewestExists(left, rows);
        var k :| k in left && forall k' | k' in left :: rows[k'].createdAt <= rows[k].createdAt;
        TakeNewest(s, rows, left, k);
        s := s + [rows[k]];
        left := left - {k};
      }
    }
  }
}
