/** `syncPendingTasks` of public/app.js: three phases over snapshots of the
    browser store. Phase 1 posts every `l:` row that is not a tombstone and
    replaces it by the server's task; phase 2 sends the deletions and edits
    of `s:` rows; phase 3 pulls the server's list and upserts it. A request
    that throws in phase 1 or 2 is re-thrown and ends the whole sync; the
    pull swallows its errors.

    Each phase is specified by a function of the store it starts from, the
    snapshot it iterates and the outcomes of the requests it made (one per
    record it sends); the method below is proved to follow them. */
module Sync {
  import opened Tasks
  import opened Api
  import opened LocalStore
  import opened Remote
  import Server

  /** The store after a phase, and whether the phase threw. */
  datatype Phase = Phase(rows: Rows, threw: bool)

  predicate Created(o: Outcome)
  {
    o.Resolved? && o.reply.One?
  }

  // ================================================================ phase 1

  /** Phase 1 posts a row that is not a tombstone and has an `l:` key. */
  predicate PushesCreate(t: Task)
  {
    !t.deleted && t.clientId.Some? && t.clientId.value.Local?
  }

  /** How many rows of `ts` phase 1 posts. */
  function Creating(ts: seq<Task>): nat
    decreases |ts|
  {
    if ts == [] then 0
    else Creating(ts[..|ts| - 1]) + (if PushesCreate(ts[|ts| - 1]) then 1 else 0)
  }

  /** Phase 1 on one posted row: a throw ends the sync; an answer with
      `ok` and a `task` replaces the row; any other answer leaves it. */
  function CreateStep(rows: Rows, t: Task, o: Outcome): Phase
    requires PushesCreate(t)
  {
    match o
    case Throw => Phase(rows, true)
    case Resolved(reply) =>
      if reply.One? then Phase(ReplaceWithServer(rows, t.clientId.value, reply.task), false)
      else Phase(rows, false)
  }

  /** Phase 1 over the snapshot `ts`, the posted rows meeting `outs` in order. */
  function PushCreates(rows: Rows, ts: seq<Task>, outs: seq<Outcome>): Phase
    requires |outs| == Creating(ts)
    decreases |ts|
  {
    if ts == [] then Phase(rows, false)
    else
      var n := Creating(ts[..|ts| - 1]);
      var prev := PushCreates(rows, ts[..|ts| - 1], outs[..n]);
      if prev.threw || !PushesCreate(ts[|ts| - 1]) then prev
      else CreateStep(prev.rows, ts[|ts| - 1], outs[n])
  }

  /** Phase 1 keeps every row under its own key and tagged with its id. */
  lemma {:induction false} PushCreatesKeepsShape(rows: Rows, ts: seq<Task>, outs: seq<Outcome>)
    requires |outs| == Creating(ts)
    ensures Keyed(rows) ==> Keyed(PushCreates(rows, ts, outs).rows)
    ensures Tagged(rows) ==> Tagged(PushCreates(rows, ts, outs).rows)
    decreases |ts|
  {
    if ts != [] {
      var n := Creating(ts[..|ts| - 1]);
      PushCreatesKeepsShape(rows, ts[..|ts| - 1], outs[..n]);
      var prev := PushCreates(rows, ts[..|ts| - 1], outs[..n]);
      if !prev.threw && PushesCreate(ts[|ts| - 1]) && Created(outs[n]) {
        ReplaceKeepsShape(prev.rows, ts[|ts| - 1].clientId.value, outs[n].reply.task);
      }
    }
  }

  /** The `l:` keys phase 1 replaced. */
  function Replaced(ts: seq<Task>, outs: seq<Outcome>): set<ClientId>
    requires |outs| == Creating(ts)
    decreases |ts|
  {
    if ts == [] then {}
    else
      var n := Creating(ts[..|ts| - 1]);
      Replaced(ts[..|ts| - 1], outs[..n])
        + (if PushesCreate(ts[|ts| - 1]) && Created(outs[n]) then {ts[|ts| - 1].clientId.value} else {})
  }

  /** The `s:` keys phase 1 wrote, one per server task it was answered with. */
  function Written(ts: seq<Task>, outs: seq<Outcome>): set<ClientId>
    requires |outs| == Creating(ts)
    decreases |ts|
  {
    if ts == [] then {}
    else
      var n := Creating(ts[..|ts| - 1]);
      Written(ts[..|ts| - 1], outs[..n])
        + (if PushesCreate(ts[|ts| - 1]) && Created(outs[n]) then {Server(IdOf(outs[n].reply.task))} else {})
  }

  lemma SnapshotPrefix(s: seq<Task>, rows: Rows, m: nat)
    requires Snapshot(s, rows) && m <= |s|
    ensures Snapshot(s[..m], rows)
  {
  }

  lemma {:induction false} CreatingConcat(a: seq<Task>, b: seq<Task>)
    ensures Creating(a + b) == Creating(a) + Creating(b)
    decreases |b|
  {
    if b == [] {
      assert a + b == a;
    } else {
      var b' := b[..|b| - 1];
      assert (a + b)[..|a + b| - 1] == a + b';
      assert (a + b)[|a + b| - 1] == b[|b| - 1];
      CreatingConcat(a, b');
    }
  }

  /** Once a request of phase 1 has thrown, no later record is sent or
      changed: whatever follows in the snapshot, the result is the same. */
  lemma {:induction false} CreatesThrowAborts(rows: Rows, ts: seq<Task>, outs: seq<Outcome>,
                                              more: seq<Task>, moreOuts: seq<Outcome>)
    requires |outs| == Creating(ts) && |moreOuts| == Creating(more)
    requires PushCreates(rows, ts, outs).threw
    ensures |outs + moreOuts| == Creating(ts + more)
    ensures PushCreates(rows, ts + more, outs + moreOuts) == PushCreates(rows, ts, outs)
    decreases |more|
  {
    CreatingConcat(ts, more);
    if more == [] {
      assert ts + more == ts && outs + moreOuts == outs;
    } else {
      var m := more[..|more| - 1];
      var k := Creating(m);
      CreatingConcat(ts, m);
      CreatesThrowAborts(rows, ts, outs, m, moreOuts[..k]);
      assert (ts + more)[..|ts + more| - 1] == ts + m;
      assert (outs + moreOuts)[..Creating(ts + m)] == outs + moreOuts[..k];
    }
  }

  /** What phase 1 does when it does not throw: an `l:` row is removed when
      its post was answered with a task and otherwise kept unchanged; an
      `s:` row changes only if a create answer carried its id; every key it
      writes holds a clean mirror under its own key. */
  lemma PushCreatesEffect(rows: Rows, ts: seq<Task>, outs: seq<Outcome>)
    requires |outs| == Creating(ts) && Snapshot(ts, rows)
    ensures forall k | k in Replaced(ts, outs) ::
      exists i | 0 <= i < |ts| :: PushesCreate(ts[i]) && ts[i].clientId == Some(k)
    ensures var p := PushCreates(rows, ts, outs);
      !p.threw ==>
        && (forall k: ClientId | k.Local? :: k in p.rows <==> k in rows && k !in Replaced(ts, outs))
        && (forall k: ClientId | k.Local? && k in p.rows :: p.rows[k] == rows[k])
        && (forall k: ClientId | k.Server? && k in rows && k !in Written(ts, outs) :: k in p.rows && p.rows[k] == rows[k])
        && (forall k: ClientId | k.Server? && k in p.rows :: k in rows || k in Written(ts, outs))
        && (forall k | k in Written(ts, outs) ::
              k.Server? && k in p.rows && p.rows[k].clientId == Some(k) && !p.rows[k].dirty)
  {
    ReplacedPosted(ts, outs);
    PushCreatesLocal(rows, ts, outs);
    PushCreatesServer(rows, ts, outs);
    PushCreatesWrites(rows, ts, outs);
  }

  /** Every key phase 1 replaced is the key of a row it posted. */
  lemma {:induction false} ReplacedPosted(ts: seq<Task>, outs: seq<Outcome>)
    requires |outs| == Creating(ts)
    ensures forall k | k in Replaced(ts, outs) ::
      exists i | 0 <= i < |ts| :: PushesCreate(ts[i]) && ts[i].clientId == Some(k)
    decreases |ts|
  {
    if ts != [] {
      var init := ts[..|ts| - 1];
      var n := Creating(init);
      ReplacedPosted(init, outs[..n]);
      forall k | k in Replaced(ts, outs)
        ensures exists i | 0 <= i < |ts| :: PushesCreate(ts[i]) && ts[i].clientId == Some(k)
      {
        if k in Replaced(init, outs[..n]) {
          var i :| 0 <= i < |init| && PushesCreate(init[i]) && init[i].clientId == Some(k);
          assert ts[i] == init[i];
        } else {
          assert PushesCreate(ts[|ts| - 1]) && ts[|ts| - 1].clientId == Some(k);
        }
      }
    }
  }

  /** Phase 1 removes the `l:` rows it replaced and leaves every other one. */
  lemma {:induction false} PushCreatesLocal(rows: Rows, ts: seq<Task>, outs: seq<Outcome>)
    requires |outs| == Creating(ts) && Snapshot(ts, rows)
    ensures var p := PushCreates(rows, ts, outs);
      !p.threw ==>
        && (forall k: ClientId | k.Local? :: k in p.rows <==> k in rows && k !in Replaced(ts, outs))
        && (forall k: ClientId | k.Local? && k in p.rows :: p.rows[k] == rows[k])
    decreases |ts|
  {
    if ts != [] {
      var init := ts[..|ts| - 1];
      var n := Creating(init);
      var t := ts[|ts| - 1];
      SnapshotPrefix(ts, rows, |ts| - 1);
      PushCreatesLocal(rows, init, outs[..n]);
      if PushesCreate(t) {
        ReplacedPosted(init, outs[..n]);
        var kt := t.clientId.value;
        forall k | k in Replaced(init, outs[..n])
          ensures k != kt
        {
          var i :| 0 <= i < |init| && PushesCreate(init[i]) && init[i].clientId == Some(k);
          assert ts[i] == init[i];
        }
      }
    }
  }

  /** Phase 1 touches an `s:` row only to store a task it was answered with. */
  lemma {:induction false} PushCreatesServer(rows: Rows, ts: seq<Task>, outs: seq<Outcome>)
    requires |outs| == Creating(ts)
    ensures var p := PushCreates(rows, ts, outs);
      !p.threw ==>
        && (forall k: ClientId | k.Server? && k in rows && k !in Written(ts, outs) :: k in p.rows && p.rows[k] == rows[k])
        && (forall k: ClientId | k.Server? && k in p.rows :: k in rows || k in Written(ts, outs))
    decreases |ts|
  {
    if ts != [] {
      var init := ts[..|ts| - 1];
      PushCreatesServer(rows, init, outs[..Creating(init)]);
    }
  }

  /** Each task phase 1 was answered with is stored clean under its own key. */
  lemma {:induction false} PushCreatesWrites(rows: Rows, ts: seq<Task>, outs: seq<Outcome>)
    requires |outs| == Creating(ts)
    ensures var p := PushCreates(rows, ts, outs);
      !p.threw ==>
        forall k | k in Written(ts, outs) ::
          k.Server? && k in p.rows && p.rows[k].clientId == Some(k) && !p.rows[k].dirty
    decreases |ts|
  {
    if ts != [] {
      var init := ts[..|ts| - 1];
      PushCreatesWrites(rows, init, outs[..Creating(init)]);
    }
  }

  /** When every post is answered with a task, phase 1 does not throw and
      leaves no `l:` row that is not a tombstone. */
  lemma {:induction false} CreatesDrain(rows: Rows, ts: seq<Task>, outs: seq<Outcome>)
    requires |outs| == Creating(ts) && Lists(ts, rows) && Keyed(rows)
    requires forall i | 0 <= i < |outs| :: Created(outs[i])
    ensures var p := PushCreates(rows, ts, outs);
      !p.threw && forall k | k in p.rows :: !PushesCreate(p.rows[k])
  {
    AllCreatedReplaces(rows, ts, outs);
    PushCreatesEffect(rows, ts, outs);
  }

  lemma {:induction false} AllCreatedReplaces(rows: Rows, ts: seq<Task>, outs: seq<Outcome>)
    requires |outs| == Creating(ts)
    requires forall i | 0 <= i < |outs| :: Created(outs[i])
    ensures !PushCreates(rows, ts, outs).threw
    ensures forall i | 0 <= i < |ts| && PushesCreate(ts[i]) :: ts[i].clientId.value in Replaced(ts, outs)
    decreases |ts|
  {
    if ts != [] {
      var init := ts[..|ts| - 1];
      var n := Creating(init);
      AllCreatedReplaces(rows, init, outs[..n]);
      forall i | 0 <= i < |ts| && PushesCreate(ts[i])
        ensures ts[i].clientId.value in Replaced(ts, outs)
      {
        if i < |ts| - 1 {
          assert init[i] == ts[i];
        }
      }
    }
  }

  // ================================================================ phase 2

  /** Phase 2 sends a row with an `s:` key that is a tombstone or dirty. */
  predicate PushesChange(t: Task)
  {
    t.clientId.Some? && t.clientId.value.Server? && (t.deleted || t.dirty)
  }

  function Changing(ts: seq<Task>): nat
    decreases |ts|
  {
    if ts == [] then 0
    else Changing(ts[..|ts| - 1]) + (if PushesChange(ts[|ts| - 1]) then 1 else 0)
  }

  /** The request phase 2 sends for a row: `DELETE` for a tombstone, `PUT`
      of the whole row otherwise, both addressed to the id of its key. */
  function ChangeRequest(t: Task): Request
    requires PushesChange(t)
  {
    if t.deleted then DeleteTask(t.clientId.value.id)
    else UpdateTask(t.clientId.value.id, AsPatch(t))
  }

  /** Phase 2 on one sent row: a throw ends the sync; any answer at all,
      whatever its status, purges a tombstone or stores the row clean. */
  function ChangeStep(rows: Rows, t: Task, o: Outcome): Phase
    requires PushesChange(t)
  {
    if o.Throw? then Phase(rows, true)
    else if t.deleted then Phase(Remove(rows, t.clientId.value), false)
    else Phase(PutClean(rows, t), false)
  }

  function PushChanges(rows: Rows, ts: seq<Task>, outs: seq<Outcome>): Phase
    requires |outs| == Changing(ts)
    decreases |ts|
  {
    if ts == [] then Phase(rows, false)
    else
      var n := Changing(ts[..|ts| - 1]);
      var prev := PushChanges(rows, ts[..|ts| - 1], outs[..n]);
      if prev.threw || !PushesChange(ts[|ts| - 1]) then prev
      else ChangeStep(prev.rows, ts[|ts| - 1], outs[n])
  }

  /** Phase 2 keeps every row under its own key and tagged with its id. */
  lemma {:induction false} PushChangesKeepsShape(rows: Rows, ts: seq<Task>, outs: seq<Outcome>)
    requires |outs| == Changing(ts) && Snapshot(ts, rows)
    ensures Keyed(rows) ==> Keyed(PushChanges(rows, ts, outs).rows)
    ensures Tagged(rows) ==> Tagged(PushChanges(rows, ts, outs).rows)
    decreases |ts|
  {
    if ts != [] {
      SnapshotPrefix(ts, rows, |ts| - 1);
      var n := Changing(ts[..|ts| - 1]);
      PushChangesKeepsShape(rows, ts[..|ts| - 1], outs[..n]);
      var prev := PushChanges(rows, ts[..|ts| - 1], outs[..n]);
      var t := ts[|ts| - 1];
      if !prev.threw && PushesChange(t) && !t.deleted {
        PutKeepsShape(prev.rows, t.(dirty := false));
      }
    }
  }

  /** The keys of a snapshot. */
  function KeysOf(ts: seq<Task>): set<ClientId>
    decreases |ts|
  {
    if ts == [] then {}
    else KeysOf(ts[..|ts| - 1]) + (if ts[|ts| - 1].clientId.Some? then {ts[|ts| - 1].clientId.value} else {})
  }

  lemma {:induction false} ChangingConcat(a: seq<Task>, b: seq<Task>)
    ensures Changing(a + b) == Changing(a) + Changing(b)
    decreases |b|
  {
    if b == [] {
      assert a + b == a;
    } else {
      var b' := b[..|b| - 1];
      assert (a + b)[..|a + b| - 1] == a + b';
      assert (a + b)[|a + b| - 1] == b[|b| - 1];
      ChangingConcat(a, b');
    }
  }

  /** Once a request of phase 2 has thrown, no later record is sent or changed. */
  lemma {:induction false} ChangesThrowAborts(rows: Rows, ts: seq<Task>, outs: seq<Outcome>,
                                              more: seq<Task>, moreOuts: seq<Outcome>)
    requires |outs| == Changing(ts) && |moreOuts| == Changing(more)
    requires PushChanges(rows, ts, outs).threw
    ensures |outs + moreOuts| == Changing(ts + more)
    ensures PushChanges(rows, ts + more, outs + moreOuts) == PushChanges(rows, ts, outs)
    decreases |more|
  {
    ChangingConcat(ts, more);
    if more == [] {
      assert ts + more == ts && outs + moreOuts == outs;
    } else {
      var m := more[..|more| - 1];
      var k := Changing(m);
      ChangingConcat(ts, m);
      ChangesThrowAborts(rows, ts, outs, m, moreOuts[..k]);
      assert (ts + more)[..|ts + more| - 1] == ts + m;
      assert (outs + moreOuts)[..Changing(ts + m)] == outs + moreOuts[..k];
    }
  }

  /** What phase 2 does when it does not throw: each tombstone it saw is
      purged, each dirty `s:` row it saw is stored clean, and every other
      row (clean ones, `l:` ones, ones it did not see) is left as it was.
      It never adds a key. */
  lemma PushChangesEffect(rows: Rows, ts: seq<Task>, outs: seq<Outcome>)
    requires |outs| == Changing(ts) && Snapshot(ts, rows)
    ensures var p := PushChanges(rows, ts, outs);
      !p.threw ==>
        && (forall i | 0 <= i < |ts| && PushesChange(ts[i]) && ts[i].deleted ::
              ts[i].clientId.value !in p.rows)
        && (forall i | 0 <= i < |ts| && PushesChange(ts[i]) && !ts[i].deleted ::
              ts[i].clientId.value in p.rows && p.rows[ts[i].clientId.value] == ts[i].(dirty := false))
        && (forall k | k in rows && (k !in KeysOf(ts) || !PushesChange(rows[k])) ::
              k in p.rows && p.rows[k] == rows[k])
        && (forall k | k in p.rows :: k in rows)
  {
    PushChangesWrites(rows, ts, outs);
    PushChangesKeeps(rows, ts, outs);
  }

  /** Phase 2 leaves every row it does not send as it was, and adds no key. */
  lemma {:induction false} PushChangesKeeps(rows: Rows, ts: seq<Task>, outs: seq<Outcome>)
    requires |outs| == Changing(ts) && Snapshot(ts, rows)
    ensures var p := PushChanges(rows, ts, outs);
      && (forall k | k in rows && (k !in KeysOf(ts) || !PushesChange(rows[k])) ::
            k in p.rows && p.rows[k] == rows[k])
      && (forall k | k in p.rows :: k in rows)
    decreases |ts|
  {
    if ts != [] {
      var init := ts[..|ts| - 1];
      SnapshotPrefix(ts, rows, |ts| - 1);
      PushChangesKeeps(rows, init, outs[..Changing(init)]);
    }
  }

  /** When phase 2 does not throw, each row it sent is purged or stored clean. */
  lemma {:induction false} PushChangesWrites(rows: Rows, ts: seq<Task>, outs: seq<Outcome>)
    requires |outs| == Changing(ts) && Snapshot(ts, rows)
    ensures var p := PushChanges(rows, ts, outs);
      !p.threw ==>
        && (forall i | 0 <= i < |ts| && PushesChange(ts[i]) && ts[i].deleted ::
              ts[i].clientId.value !in p.rows)
        && (forall i | 0 <= i < |ts| && PushesChange(ts[i]) && !ts[i].deleted ::
              ts[i].clientId.value in p.rows && p.rows[ts[i].clientId.value] == ts[i].(dirty := false))
    decreases |ts|
  {
    if ts != [] {
      var init := ts[..|ts| - 1];
      var n := Changing(init);
      var t := ts[|ts| - 1];
      SnapshotPrefix(ts, rows, |ts| - 1);
      PushChangesWrites(rows, init, outs[..n]);
      var p := PushChanges(rows, ts, outs);
      if !p.threw {
        forall i | 0 <= i < |ts| - 1
          ensures ts[i].clientId != t.clientId && init[i] == ts[i]
        {
        }
      }
    }
  }

  /** When phase 2 does not throw and saw the whole store, no `s:` row is
      left dirty or a tombstone. */
  lemma ChangesDrain(rows: Rows, ts: seq<Task>, outs: seq<Outcome>)
    requires |outs| == Changing(ts) && Lists(ts, rows) && Keyed(rows)
    ensures var p := PushChanges(rows, ts, outs);
      !p.threw ==> forall k | k in p.rows && k.Server? :: !p.rows[k].dirty && !p.rows[k].deleted
  {
    PushChangesEffect(rows, ts, outs);
    var p := PushChanges(rows, ts, outs);
    if !p.threw {
      forall k | k in p.rows && k.Server?
        ensures !p.rows[k].dirty && !p.rows[k].deleted
      {
        if PushesChange(rows[k]) {
          var i :| 0 <= i < |ts| && ts[i].clientId == Some(k);
          assert ts[i] == rows[k];
        }
      }
    }
  }

  // ================================================================ phase 3

  /** The row phase 3 stores for a pulled task: the task, keyed `s:<id>`,
      clean. Every other field, `deleted` included, is the server's. */
  function Pulled(st: ServerTask): (t: Task)
    ensures t.clientId == Some(Server(IdOf(st))) && !t.dirty
    ensures TaggedRow(Server(IdOf(st)), t)
    ensures t.(clientId := st.clientId, dirty := st.dirty) == st
  {
    st.(clientId := Some(Server(IdOf(st))), dirty := false)
  }

  /** The pulled tasks written one after the other. */
  function Upsert(rows: Rows, ts: seq<ServerTask>): Rows
    decreases |ts|
  {
    if ts == [] then rows
    else PutClean(Upsert(rows, ts[..|ts| - 1]), Pulled(ts[|ts| - 1]))
  }

  /** The pull keeps every row under its own key and tagged with its id. */
  lemma {:induction false} UpsertKeepsShape(rows: Rows, ts: seq<ServerTask>)
    ensures Keyed(rows) ==> Keyed(Upsert(rows, ts))
    ensures Tagged(rows) ==> Tagged(Upsert(rows, ts))
    decreases |ts|
  {
    if ts != [] {
      UpsertKeepsShape(rows, ts[..|ts| - 1]);
      PutKeepsShape(Upsert(rows, ts[..|ts| - 1]), Pulled(ts[|ts| - 1]));
    }
  }

  /** The keys the pull writes. */
  function PulledKeys(ts: seq<ServerTask>): set<ClientId>
    decreases |ts|
  {
    if ts == [] then {} else PulledKeys(ts[..|ts| - 1]) + {Server(IdOf(ts[|ts| - 1]))}
  }

  /** Phase 3: a throw, an answer with `ok` false, or one without a task
      list changes nothing; a list is upserted. */
  function Pull(rows: Rows, o: Outcome): Rows
  {
    if o.Resolved? && o.reply.Listed? then Upsert(rows, o.reply.tasks) else rows
  }

  ghost predicate NoneDeleted(ts: seq<ServerTask>)
  {
    forall i | 0 <= i < |ts| :: !ts[i].deleted
  }

  /** Every pulled id is among the pulled keys, and those keys are `s:` keys. */
  lemma {:induction false} PulledKeysCover(ts: seq<ServerTask>)
    ensures forall i | 0 <= i < |ts| :: Server(IdOf(ts[i])) in PulledKeys(ts)
    ensures forall k | k in PulledKeys(ts) :: k.Server?
    decreases |ts|
  {
    if ts != [] {
      var init := ts[..|ts| - 1];
      PulledKeysCover(init);
      assert forall i | 0 <= i < |ts| - 1 :: ts[i] == init[i];
    }
  }

  /** The pull never removes a row, and leaves every row whose id the server
      did not send unchanged (`l:` rows included). */
  lemma {:induction false} UpsertKeeps(rows: Rows, ts: seq<ServerTask>)
    ensures var r := Upsert(rows, ts);
      && rows.Keys <= r.Keys
      && (forall k | k in r :: k in rows || k in PulledKeys(ts))
      && (forall k | k in rows && k !in PulledKeys(ts) :: r[k] == rows[k])
    decreases |ts|
  {
    if ts != [] {
      UpsertKeeps(rows, ts[..|ts| - 1]);
    }
  }

  /** The pull stores a clean row under every key it writes, and a row that
      is a tombstone only when some pulled task carries `deleted`. */
  lemma {:induction false} UpsertWrites(rows: Rows, ts: seq<ServerTask>)
    ensures var r := Upsert(rows, ts);
      forall k | k in PulledKeys(ts) ::
        && k in r && r[k].clientId == Some(k) && !r[k].dirty
        && (NoneDeleted(ts) ==> !r[k].deleted)
    decreases |ts|
  {
    if ts != [] {
      var init := ts[..|ts| - 1];
      UpsertWrites(rows, init);
      assert NoneDeleted(ts) ==> NoneDeleted(init) by {
        assert forall i | 0 <= i < |ts| - 1 :: ts[i] == init[i];
      }
    }
  }

  /** With pairwise distinct ids, each pulled task is stored exactly as pulled. */
  lemma {:induction false} UpsertMirrors(rows: Rows, ts: seq<ServerTask>)
    requires forall i, j | 0 <= i < j < |ts| :: IdOf(ts[i]) != IdOf(ts[j])
    ensures forall i | 0 <= i < |ts| ::
      Server(IdOf(ts[i])) in Upsert(rows, ts) && Upsert(rows, ts)[Server(IdOf(ts[i]))] == Pulled(ts[i])
    decreases |ts|
  {
    if ts != [] {
      var init := ts[..|ts| - 1];
      UpsertMirrors(rows, init);
      forall i | 0 <= i < |ts| - 1
        ensures ts[i] == init[i]
      {
      }
    }
  }

  /** The pull overlays the pulled rows on the store. */
  lemma {:induction false} UpsertOverlays(rows: Rows, ts: seq<ServerTask>)
    ensures Upsert(rows, ts) == rows + Upsert(map[], ts)
    decreases |ts|
  {
    if ts != [] {
      UpsertOverlays(rows, ts[..|ts| - 1]);
    }
  }

  /** Pulling the same list twice gives what pulling it once gave. */
  lemma UpsertIdempotent(rows: Rows, ts: seq<ServerTask>)
    ensures Upsert(Upsert(rows, ts), ts) == Upsert(rows, ts)
  {
    UpsertOverlays(rows, ts);
    UpsertOverlays(Upsert(rows, ts), ts);
    var u := Upsert(map[], ts);
    assert (rows + u) + u == rows + u;
  }

  // ================================================================ the whole sync

  /** What one sync saw: the snapshot of phase 1, the outcomes of its posts
      and how many records it examined; the same for phase 2; and the
      outcome of the pull. */
  datatype Run = Run(
    all: seq<Task>, created: seq<Outcome>, createsSeen: nat,
    afterCreate: seq<Task>, changed: seq<Outcome>, changesSeen: nat,
    pulled: Outcome)

  predicate Shaped(run: Run)
  {
    && run.createsSeen <= |run.all| && |run.created| == Creating(run.all[..run.createsSeen])
    && run.changesSeen <= |run.afterCreate| && |run.changed| == Changing(run.afterCreate[..run.changesSeen])
  }

  function AfterCreates(rows0: Rows, run: Run): Phase
    requires Shaped(run)
  {
    PushCreates(rows0, run.all[..run.createsSeen], run.created)
  }

  function AfterChanges(rows0: Rows, run: Run): Phase
    requires Shaped(run)
  {
    PushChanges(AfterCreates(rows0, run).rows, run.afterCreate[..run.changesSeen], run.changed)
  }

  /** The store after the sync and whether it threw: a throw in phase 1 or 2
      ends it there; otherwise the pull follows. */
  function SyncOf(rows0: Rows, run: Run): Phase
    requires Shaped(run)
  {
    var p1 := AfterCreates(rows0, run);
    if p1.threw then p1
    else
      var p2 := AfterChanges(rows0, run);
      if p2.threw then p2
      else Phase(Pull(p2.rows, run.pulled), false)
  }

  /** `run` is one the sync can make from `rows0`: each phase walks a
      newest-first listing of the whole store as the phase begins; a phase
      that throws stops at the record whose request threw; a phase that does
      not throw examines every record. */
  ghost predicate Fits(rows0: Rows, run: Run)
  {
    && Shaped(run)
    && Lists(run.all, rows0) && NewestFirst(run.all)
    && var p1 := AfterCreates(rows0, run);
    && (p1.threw ==>
          && 0 < run.createsSeen && PushesCreate(run.all[run.createsSeen - 1])
          && |run.created| > 0 && run.created[|run.created| - 1] == Throw)
    && (!p1.threw ==>
          && run.createsSeen == |run.all|
          && Lists(run.afterCreate, p1.rows) && NewestFirst(run.afterCreate)
          && var p2 := AfterChanges(rows0, run);
          && (p2.threw ==>
                && 0 < run.changesSeen && PushesChange(run.afterCreate[run.changesSeen - 1])
                && |run.changed| > 0 && run.changed[|run.changed| - 1] == Throw)
          && (!p2.threw ==> run.changesSeen == |run.afterCreate|))
  }

  /** Every pulled task is stored as pulled. */
  ghost predicate Mirrors(rows: Rows, ts: seq<ServerTask>)
  {
    forall i | 0 <= i < |ts| :: Server(IdOf(ts[i])) in rows && rows[Server(IdOf(ts[i]))] == Pulled(ts[i])
  }

  /** Every row phase 1 would post has a title. */
  ghost predicate Titled(rows: Rows)
  {
    forall k | k in rows && PushesCreate(rows[k]) :: rows[k].title != ""
  }

  /** The sync keeps the store keyed and tagged. */
  lemma SyncKeepsShape(rows0: Rows, run: Run)
    requires Fits(rows0, run) && Keyed(rows0)
    ensures Keyed(SyncOf(rows0, run).rows)
    ensures Tagged(rows0) ==> Tagged(SyncOf(rows0, run).rows)
  {
    var p1 := AfterCreates(rows0, run);
    PushCreatesKeepsShape(rows0, run.all[..run.createsSeen], run.created);
    if !p1.threw {
      SnapshotPrefix(run.afterCreate, p1.rows, run.changesSeen);
      PushChangesKeepsShape(p1.rows, run.afterCreate[..run.changesSeen], run.changed);
      var p2 := AfterChanges(rows0, run);
      if !p2.threw && run.pulled.Resolved? && run.pulled.reply.Listed? {
        UpsertKeepsShape(p2.rows, run.pulled.reply.tasks);
      }
    }
  }

  /** When the sync returns normally, the pull found no unsynced edit: every
      `s:` row is clean and no tombstone is left when phase 3 begins, so the
      rows it overwrites hold nothing the server has not acknowledged. */
  lemma PullFindsNoPendingEdit(rows0: Rows, run: Run)
    requires Fits(rows0, run) && Keyed(rows0)
    requires !SyncOf(rows0, run).threw
    ensures var p2 := AfterChanges(rows0, run);
      forall k | k in p2.rows && k.Server? :: !p2.rows[k].dirty && !p2.rows[k].deleted
  {
    var p1 := AfterCreates(rows0, run);
    assert run.afterCreate[..run.changesSeen] == run.afterCreate;
    ChangesDrain(p1.rows, run.afterCreate, run.changed);
  }

  /** When every post is answered with a task and the sync returns
      normally, no `l:` row that is not a tombstone is left, and no `s:` row
      is dirty; an `s:` tombstone can only come back from a pulled task that
      carries `deleted`. */
  lemma SyncSettles(rows0: Rows, run: Run)
    requires Fits(rows0, run) && Keyed(rows0)
    requires forall i | 0 <= i < |run.created| :: Created(run.created[i])
    requires !SyncOf(rows0, run).threw
    ensures var r := SyncOf(rows0, run).rows;
      && (forall k | k in r :: !PushesCreate(r[k]))
      && (forall k | k in r && k.Server? :: !r[k].dirty)
      && (run.pulled.Resolved? && run.pulled.reply.Listed? && NoneDeleted(run.pulled.reply.tasks) ==>
            forall k | k in r && k.Server? :: !r[k].deleted)
  {
    PhasesSettle(rows0, run);
    PullSettles(AfterChanges(rows0, run).rows, run.pulled);
  }

  /** When every post is answered with a task and neither push phase
      throws, the pull begins with no row left to post or send. */
  lemma PhasesSettle(rows0: Rows, run: Run)
    requires Fits(rows0, run) && Keyed(rows0)
    requires forall i | 0 <= i < |run.created| :: Created(run.created[i])
    requires !SyncOf(rows0, run).threw
    ensures var r := AfterChanges(rows0, run).rows;
      && (forall k | k in r :: !PushesCreate(r[k]))
      && (forall k | k in r && k.Server? :: !r[k].dirty && !r[k].deleted)
  {
    assert run.all[..run.createsSeen] == run.all;
    CreatesDrain(rows0, run.all, run.created);
    PushCreatesKeepsShape(rows0, run.all, run.created);
    assert run.afterCreate[..run.changesSeen] == run.afterCreate;
    ChangesSettle(AfterCreates(rows0, run).rows, run.afterCreate, run.changed);
  }

  /** Phase 2 over the whole of a store with no row to post, when it does
      not throw, leaves no row to post or send. */
  lemma ChangesSettle(rows: Rows, ts: seq<Task>, outs: seq<Outcome>)
    requires |outs| == Changing(ts) && Lists(ts, rows) && Keyed(rows)
    requires forall k | k in rows :: !PushesCreate(rows[k])
    requires !PushChanges(rows, ts, outs).threw
    ensures var r := PushChanges(rows, ts, outs).rows;
      && (forall k | k in r :: !PushesCreate(r[k]))
      && (forall k | k in r && k.Server? :: !r[k].dirty && !r[k].deleted)
  {
    PushChangesKeeps(rows, ts, outs);
    PushChangesKeepsShape(rows, ts, outs);
    ChangesDrain(rows, ts, outs);
    var r := PushChanges(rows, ts, outs).rows;
    forall k | k in r
      ensures !PushesCreate(r[k])
    {
      if k.Local? {
        assert rows[k].clientId == Some(k);
        assert r[k] == rows[k];
      } else {
        assert r[k].clientId == Some(k);
      }
    }
  }

  /** A pull into a store with no row to post or send leaves none, and
      leaves no `s:` tombstone unless a pulled task carries `deleted`. */
  lemma PullSettles(rows: Rows, o: Outcome)
    requires forall k | k in rows :: !PushesCreate(rows[k])
    requires forall k | k in rows && k.Server? :: !rows[k].dirty && !rows[k].deleted
    ensures var r := Pull(rows, o);
      && (forall k | k in r :: !PushesCreate(r[k]))
      && (forall k | k in r && k.Server? :: !r[k].dirty)
      && (o.Resolved? && o.reply.Listed? && NoneDeleted(o.reply.tasks) ==>
            forall k | k in r && k.Server? :: !r[k].deleted)
  {
    if o.Resolved? && o.reply.Listed? {
      UpsertKeeps(rows, o.reply.tasks);
      UpsertWrites(rows, o.reply.tasks);
      PulledKeysCover(o.reply.tasks);
    }
  }

  /** When the pull brings a list with distinct ids, the store ends with
      each of those tasks under `s:<id>`, clean, exactly as pulled. */
  lemma SyncMirrors(rows0: Rows, run: Run, ts: seq<ServerTask>)
    requires Shaped(run) && !SyncOf(rows0, run).threw
    requires run.pulled == Resolved(Listed(ts))
    requires forall i, j | 0 <= i < j < |ts| :: IdOf(ts[i]) != IdOf(ts[j])
    ensures Mirrors(SyncOf(rows0, run).rows, ts)
  {
    UpsertMirrors(AfterChanges(rows0, run).rows, ts);
  }

  /** A store with nothing to post or send goes through phases 1 and 2
      unchanged, without a single request. */
  lemma {:induction false} NothingPending(rows: Rows, ts: seq<Task>)
    requires Snapshot(ts, rows)
    requires forall k | k in rows :: !PushesCreate(rows[k]) && !PushesChange(rows[k])
    ensures Creating(ts) == 0 && PushCreates(rows, ts, []) == Phase(rows, false)
    ensures Changing(ts) == 0 && PushChanges(rows, ts, []) == Phase(rows, false)
    decreases |ts|
  {
    if ts != [] {
      SnapshotPrefix(ts, rows, |ts| - 1);
      NothingPending(rows, ts[..|ts| - 1]);
    }
  }

  /** A sync from a store with nothing to post or send only pulls. */
  lemma QuietSync(rows: Rows, run: Run)
    requires Fits(rows, run)
    requires forall k | k in rows :: !PushesCreate(rows[k]) && !PushesChange(rows[k])
    ensures SyncOf(rows, run) == Phase(Pull(rows, run.pulled), false)
  {
    NothingPending(rows, run.all);
    SnapshotPrefix(run.all, rows, run.createsSeen);
    NothingPending(rows, run.all[..run.createsSeen]);
    assert AfterCreates(rows, run) == Phase(rows, false);
    NothingPending(rows, run.afterCreate);
    SnapshotPrefix(run.afterCreate, rows, run.changesSeen);
    NothingPending(rows, run.afterCreate[..run.changesSeen]);
  }

  /** A second sync right after a complete one, with every post answered
      with a task and the same pulled list free of tombstones, leaves the
      store as the first sync left it. */
  lemma SyncIdempotent(rows0: Rows, run1: Run, run2: Run)
    requires Keyed(rows0) && Fits(rows0, run1)
    requires forall i | 0 <= i < |run1.created| :: Created(run1.created[i])
    requires !SyncOf(rows0, run1).threw
    requires run1.pulled.Resolved? && run1.pulled.reply.Listed? && NoneDeleted(run1.pulled.reply.tasks)
    requires Fits(SyncOf(rows0, run1).rows, run2) && run2.pulled == run1.pulled
    ensures SyncOf(SyncOf(rows0, run1).rows, run2) == SyncOf(rows0, run1)
  {
    var r1 := SyncOf(rows0, run1).rows;
    SyncSettles(rows0, run1);
    SyncKeepsShape(rows0, run1);
    QuietSync(r1, run2);
    UpsertIdempotent(AfterChanges(rows0, run1).rows, run1.pulled.reply.tasks);
  }

  // ================================================================ the method

  // ---------------------------------------------------------------- one record at a time

  lemma PushCreatesSend(rows: Rows, ts: seq<Task>, outs: seq<Outcome>, i: nat, o: Outcome)
    requires i < |ts| && PushesCreate(ts[i]) && |outs| == Creating(ts[..i])
    requires !PushCreates(rows, ts[..i], outs).threw
    ensures |outs + [o]| == Creating(ts[..i + 1])
    ensures PushCreates(rows, ts[..i + 1], outs + [o])
         == CreateStep(PushCreates(rows, ts[..i], outs).rows, ts[i], o)
  {
    assert ts[..i + 1][..i] == ts[..i];
    assert (outs + [o])[..|outs|] == outs;
  }

  lemma PushCreatesSkip(rows: Rows, ts: seq<Task>, outs: seq<Outcome>, i: nat)
    requires i < |ts| && !PushesCreate(ts[i]) && |outs| == Creating(ts[..i])
    ensures |outs| == Creating(ts[..i + 1])
    ensures PushCreates(rows, ts[..i + 1], outs) == PushCreates(rows, ts[..i], outs)
  {
    assert ts[..i + 1][..i] == ts[..i];
    assert outs[..|outs|] == outs;
  }

  lemma PushChangesSend(rows: Rows, ts: seq<Task>, outs: seq<Outcome>, i: nat, o: Outcome)
    requires i < |ts| && PushesChange(ts[i]) && |outs| == Changing(ts[..i])
    requires !PushChanges(rows, ts[..i], outs).threw
    ensures |outs + [o]| == Changing(ts[..i + 1])
    ensures PushChanges(rows, ts[..i + 1], outs + [o])
         == ChangeStep(PushChanges(rows, ts[..i], outs).rows, ts[i], o)
  {
    assert ts[..i + 1][..i] == ts[..i];
    assert (outs + [o])[..|outs|] == outs;
  }

  lemma PushChangesSkip(rows: Rows, ts: seq<Task>, outs: seq<Outcome>, i: nat)
    requires i < |ts| && !PushesChange(ts[i]) && |outs| == Changing(ts[..i])
    ensures |outs| == Changing(ts[..i + 1])
    ensures PushChanges(rows, ts[..i + 1], outs) == PushChanges(rows, ts[..i], outs)
  {
    assert ts[..i + 1][..i] == ts[..i];
    assert outs[..|outs|] == outs;
  }

  // ---------------------------------------------------------------- the method

  /** The body of the phase 1 loop for one row it posts: `POST /api/tasks`
      with the row, then, on an answer with a task, the swap of the `l:` row
      for the server's. */
  method SendCreate(db: TaskDb, net: Network, t: Task) returns (o: Outcome)
    requires PushesCreate(t)
    modifies db, net, net.server
    ensures CreateStep(old(db.rows), t, o) == Phase(db.rows, o.Throw?)
    ensures old(net.Reliable() && net.server.Valid()) && t.title != "" ==>
      Created(o) && net.Reliable() && net.server.Valid()
  {
    o := net.Fetch(CreateTask(AsPatch(t)));
    if o.Resolved? && o.reply.One? {
      db.ReplaceLocalWithServer(t.clientId.value, o.reply.task);
    }
  }

  /** The loop of phase 1 has gone through the first `i` rows of `all`,
      meeting the outcomes `created`, and reached `p`. */
  ghost predicate CreatesSoFar(rows0: Rows, all: seq<Task>, i: int, created: seq<Outcome>, p: Phase)
  {
    0 <= i <= |all| && |created| == Creating(all[..i]) && PushCreates(rows0, all[..i], created) == p
  }

  /** Phase 1 ran over `all` as its loop can: it stopped at the row whose
      post threw, or went through every row. */
  ghost predicate CreatesRan(rows0: Rows, all: seq<Task>, created: seq<Outcome>, seen: int, p: Phase)
  {
    && CreatesSoFar(rows0, all, seen, created, p)
    && (p.threw ==> 0 < seen && PushesCreate(all[seen - 1]) && |created| > 0 && created[|created| - 1] == Throw)
    && (!p.threw ==> seen == |all|)
  }

  ghost predicate AllCreated(outs: seq<Outcome>)
  {
    forall j | 0 <= j < |outs| :: Created(outs[j])
  }

  /** The loop of phase 2 has gone through the first `j` rows of
      `afterCreate`, meeting the outcomes `changed`, and reached `p`. */
  ghost predicate ChangesSoFar(rows1: Rows, afterCreate: seq<Task>, j: int, changed: seq<Outcome>, p: Phase)
  {
    0 <= j <= |afterCreate| && |changed| == Changing(afterCreate[..j]) && PushChanges(rows1, afterCreate[..j], changed) == p
  }

  /** Phase 2 ran over `afterCreate` as its loop can: it stopped at the row
      whose request threw, or went through every row. */
  ghost predicate ChangesRan(rows1: Rows, afterCreate: seq<Task>, changed: seq<Outcome>, seen: int, p: Phase)
  {
    && ChangesSoFar(rows1, afterCreate, seen, changed, p)
    && (p.threw ==>
          0 < seen && PushesChange(afterCreate[seen - 1]) && |changed| > 0 && changed[|changed| - 1] == Throw)
    && (!p.threw ==> seen == |afterCreate|)
  }

  /** One turn of the phase 1 loop: the row at `i` is posted when it is an
      `l:` row that is not a tombstone, and skipped otherwise. */
  method CreateTurn(db: TaskDb, net: Network, ghost rows0: Rows, all: seq<Task>,
                    ghost created: seq<Outcome>, i: nat, ghost good: bool)
    returns (stop: bool, ghost created': seq<Outcome>)
    requires i < |all| && Snapshot(all, rows0)
    requires CreatesSoFar(rows0, all, i, created, Phase(db.rows, false))
    requires good ==> net.Reliable() && net.server.Valid() && Titled(rows0) && AllCreated(created)
    modifies db, net, net.server
    ensures CreatesSoFar(rows0, all, i + 1, created', Phase(db.rows, stop))
    ensures stop ==> PushesCreate(all[i]) && |created'| > 0 && created'[|created'| - 1] == Throw
    ensures good ==> !stop && net.Reliable() && net.server.Valid() && AllCreated(created')
  {
    var t := all[i];
    if !t.deleted && t.clientId.value.Local? {
      assert good ==> t.title != "" by {
        assert rows0[t.clientId.value] == t;
      }
      var o := SendCreate(db, net, t);
      PushCreatesSend(rows0, all, created, i, o);
      stop, created' := o.Throw?, created + [o];
    } else {
      PushCreatesSkip(rows0, all, created, i);
      stop, created' := false, created;
    }
  }

  /** Phase 1 of `syncPendingTasks`: posts, in the order of `all`, each row
      that is not a tombstone and has an `l:` key, and stops at the first
      request that throws. */
  method CreatePhase(db: TaskDb, net: Network, all: seq<Task>)
    returns (threw: bool, ghost created: seq<Outcome>, ghost seen: nat)
    requires db.Valid() && Snapshot(all, db.rows)
    modifies db, net, net.server
    ensures db.Valid()
    ensures CreatesRan(old(db.rows), all, created, seen, Phase(db.rows, threw))
    ensures old(net.Reliable() && net.server.Valid() && Titled(db.rows)) ==>
      && !threw && net.Reliable() && net.server.Valid() && AllCreated(created)
  {
    ghost var rows0 := db.rows;
    ghost var good := net.Reliable() && net.server.Valid() && Titled(db.rows);
    created := [];
    var i := 0;
    while i < |all|
      invariant CreatesSoFar(rows0, all, i, created, Phase(db.rows, false))
      invariant good ==> net.Reliable() && net.server.Valid() && AllCreated(created)
    {
      var stop, created' := CreateTurn(db, net, rows0, all, created, i, good);
      created := created';
      if stop {
        threw, seen := true, i + 1;
        PushCreatesKeepsShape(rows0, all[..seen], created);
        return;
      }
      i := i + 1;
    }
    threw, seen := false, |all|;
    PushCreatesKeepsShape(rows0, all[..seen], created);
  }

  /** The body of the phase 2 loop for one row it sends: `DELETE` and the
      purge of a tombstone, or `PUT` and the clean copy of a dirty row. */
  method SendChange(db: TaskDb, net: Network, t: Task) returns (o: Outcome)
    requires PushesChange(t)
    modifies db, net, net.server
    ensures ChangeStep(old(db.rows), t, o) == Phase(db.rows, o.Throw?)
    ensures old(net.Reliable() && net.server.Valid()) && t.id == Some(t.clientId.value.id) ==>
      o.Resolved? && net.Reliable() && net.server.Valid()
  {
    o := net.Fetch(ChangeRequest(t));
    if o.Resolved? {
      if t.deleted {
        db.DeleteRow(t.clientId.value);
      } else {
        db.PutTaskLocalNoDirty(t);
      }
    }
  }

  /** One turn of the phase 2 loop: the row at `j` is sent when it is an
      `s:` row that is a tombstone or dirty, and skipped otherwise. */
  method ChangeTurn(db: TaskDb, net: Network, ghost rows1: Rows, afterCreate: seq<Task>,
                    ghost changed: seq<Outcome>, j: nat, ghost good: bool)
    returns (stop: bool, ghost changed': seq<Outcome>)
    requires j < |afterCreate| && Snapshot(afterCreate, rows1)
    requires ChangesSoFar(rows1, afterCreate, j, changed, Phase(db.rows, false))
    requires good ==> net.Reliable() && net.server.Valid() && Tagged(rows1)
    modifies db, net, net.server
    ensures ChangesSoFar(rows1, afterCreate, j + 1, changed', Phase(db.rows, stop))
    ensures stop ==> PushesChange(afterCreate[j]) && |changed'| > 0 && changed'[|changed'| - 1] == Throw
    ensures good ==> !stop && net.Reliable() && net.server.Valid()
  {
    var t := afterCreate[j];
    if t.clientId.value.Server? && (t.deleted || t.dirty) {
      assert good ==> t.id == Some(t.clientId.value.id) by {
        assert rows1[t.clientId.value] == t;
      }
      var o := SendChange(db, net, t);
      PushChangesSend(rows1, afterCreate, changed, j, o);
      stop, changed' := o.Throw?, changed + [o];
    } else {
      PushChangesSkip(rows1, afterCreate, changed, j);
      stop, changed' := false, changed;
    }
  }

  /** Phase 2 of `syncPendingTasks`: for each row of `afterCreate` with an
      `s:` key, sends `DELETE` for a tombstone or `PUT` for a dirty row, and
      stops at the first request that throws. */
  method ChangePhase(db: TaskDb, net: Network, afterCreate: seq<Task>)
    returns (threw: bool, ghost changed: seq<Outcome>, ghost seen: nat)
    requires db.Valid() && Snapshot(afterCreate, db.rows)
    modifies db, net, net.server
    ensures db.Valid()
    ensures ChangesRan(old(db.rows), afterCreate, changed, seen, Phase(db.rows, threw))
    ensures old(net.Reliable() && net.server.Valid() && Tagged(db.rows)) ==>
      !threw && net.Reliable() && net.server.Valid()
  {
    ghost var rows1 := db.rows;
    ghost var good := net.Reliable() && net.server.Valid() && Tagged(db.rows);
    changed := [];
    var j := 0;
    while j < |afterCreate|
      invariant ChangesSoFar(rows1, afterCreate, j, changed, Phase(db.rows, false))
      invariant good ==> net.Reliable() && net.server.Valid()
    {
      var stop, changed' := ChangeTurn(db, net, rows1, afterCreate, changed, j, good);
      changed := changed';
      if stop {
        threw, seen := true, j + 1;
        SnapshotPrefix(afterCreate, rows1, seen);
        PushChangesKeepsShape(rows1, afterCreate[..seen], changed);
        return;
      }
      j := j + 1;
    }
    threw, seen := false, |afterCreate|;
    SnapshotPrefix(afterCreate, rows1, seen);
    PushChangesKeepsShape(rows1, afterCreate[..seen], changed);
  }

  /** One turn of the upsert loop: storing the next task clean under its
      `s:` key extends the upsert by that task. */
  lemma UpsertOneMore(rows: Rows, tasks: seq<ServerTask>, k: nat)
    requires k < |tasks|
    ensures Upsert(rows, tasks[..k + 1])
         == PutClean(Upsert(rows, tasks[..k]), tasks[k].(clientId := Some(Server(IdOf(tasks[k])))))
  {
    assert tasks[..k + 1][..k] == tasks[..k];
    var st := tasks[k];
    assert st.(clientId := Some(Server(IdOf(st)))).(dirty := false) == Pulled(st);
  }

  /** The upsert loop of phase 3: each task of `tasks`, in order, stored
      clean under `s:<id>` with `putTaskLocalNoDirty`. */
  method UpsertAll(db: TaskDb, tasks: seq<ServerTask>)
    modifies db
    ensures db.rows == Upsert(old(db.rows), tasks)
  {
    ghost var rows2 := db.rows;
    var k := 0;
    while k < |tasks|
      invariant 0 <= k <= |tasks|
      invariant db.rows == Upsert(rows2, tasks[..k])
    {
      var st := tasks[k];
      UpsertOneMore(rows2, tasks, k);
      db.PutTaskLocalNoDirty(st.(clientId := Some(Server(IdOf(st)))));
      k := k + 1;
    }
    assert tasks[..|tasks|] == tasks;
  }

  /** Phase 3 of `syncPendingTasks`: `GET /api/tasks` and, when the answer
      carries a task list, the upsert of every task clean under `s:<id>`. */
  method PullPhase(db: TaskDb, net: Network) returns (o: Outcome)
    requires db.Valid()
    modifies db, net, net.server
    ensures db.Valid()
    ensures db.rows == Pull(old(db.rows), o)
    ensures unchanged(net.server)
    ensures old(net.Reliable()) ==> o == Resolved(Listed(net.server.tasks))
  {
    o := net.Fetch(ListTasks);
    if o.Resolved? && o.reply.Listed? {
      UpsertKeepsShape(db.rows, o.reply.tasks);
      UpsertAll(db, o.reply.tasks);
    }
  }

  // ---------------------------------------------------------------- the three ways a sync ends

  lemma CreatesStopped(rows0: Rows, all: seq<Task>, created: seq<Outcome>, seen: nat, rows: Rows)
    requires Lists(all, rows0) && NewestFirst(all)
    requires CreatesRan(rows0, all, created, seen, Phase(rows, true))
    ensures var run := Run(all, created, seen, [], [], 0, Throw);
      Shaped(run) && Fits(rows0, run) && SyncOf(rows0, run) == Phase(rows, true)
  {
  }

  lemma ChangesStopped(rows0: Rows, all: seq<Task>, created: seq<Outcome>, rows1: Rows,
                       afterCreate: seq<Task>, changed: seq<Outcome>, seen: nat, rows: Rows)
    requires Lists(all, rows0) && NewestFirst(all)
    requires CreatesRan(rows0, all, created, |all|, Phase(rows1, false))
    requires Lists(afterCreate, rows1) && NewestFirst(afterCreate)
    requires ChangesRan(rows1, afterCreate, changed, seen, Phase(rows, true))
    ensures var run := Run(all, created, |all|, afterCreate, changed, seen, Throw);
      Shaped(run) && Fits(rows0, run) && SyncOf(rows0, run) == Phase(rows, true)
  {
    assert all[..|all|] == all;
  }

  lemma Completed(rows0: Rows, all: seq<Task>, created: seq<Outcome>, rows1: Rows,
                  afterCreate: seq<Task>, changed: seq<Outcome>, rows2: Rows, o: Outcome)
    requires Lists(all, rows0) && NewestFirst(all)
    requires CreatesRan(rows0, all, created, |all|, Phase(rows1, false))
    requires Lists(afterCreate, rows1) && NewestFirst(afterCreate)
    requires ChangesRan(rows1, afterCreate, changed, |afterCreate|, Phase(rows2, false))
    ensures var run := Run(all, created, |all|, afterCreate, changed, |afterCreate|, o);
      Shaped(run) && Fits(rows0, run) && SyncOf(rows0, run) == Phase(Pull(rows2, o), false)
  {
    assert all[..|all|] == all;
    assert afterCreate[..|afterCreate|] == afterCreate;
  }

  /** The body of `syncPendingTasks()` once the browser is online: the three
      phases, each stopping the sync when a request throws. */
  method SyncOnline(db: TaskDb, net: Network) returns (threw: bool, ghost run: Run)
    requires db.Valid()
    modifies db, net, net.server
    ensures db.Valid()
    ensures Shaped(run) && Fits(old(db.rows), run) && SyncOf(old(db.rows), run) == Phase(db.rows, threw)
    ensures old(net.Reliable() && net.server.Valid() && Tagged(db.rows) && Titled(db.rows)) ==>
      && !threw && net.server.Valid()
      && (forall j | 0 <= j < |run.created| :: Created(run.created[j]))
      && run.pulled == Resolved(Listed(net.server.tasks))
  {
    ghost var rows0 := db.rows;
    var all := db.GetAllTasksLocal();
    var threw1, created, seen1 := CreatePhase(db, net, all);
    if threw1 {
      CreatesStopped(rows0, all, created, seen1, db.rows);
      threw := true;
      run := Run(all, created, seen1, [], [], 0, Throw);
    } else {
      PushCreatesKeepsShape(rows0, all[..seen1], created);
      threw, run := SyncAfterCreates(db, net, rows0, all, created);
    }
  }

  /** Phases 2 and 3, once phase 1 has gone through the listing `all` of
      the store `rows0` without a throw. */
  method SyncAfterCreates(db: TaskDb, net: Network, ghost rows0: Rows, ghost all: seq<Task>,
                          ghost created: seq<Outcome>)
    returns (threw: bool, ghost run: Run)
    requires db.Valid()
    requires Lists(all, rows0) && NewestFirst(all)
    requires CreatesRan(rows0, all, created, |all|, Phase(db.rows, false))
    modifies db, net, net.server
    ensures db.Valid()
    ensures Shaped(run) && Fits(rows0, run) && SyncOf(rows0, run) == Phase(db.rows, threw)
    ensures run.all == all && run.created == created
    ensures old(net.Reliable() && net.server.Valid() && Tagged(db.rows)) ==>
      && !threw && net.server.Valid()
      && run.pulled == Resolved(Listed(net.server.tasks))
  {
    ghost var rows1 := db.rows;
    var afterCreate := db.GetAllTasksLocal();
    var threw2, changed, seen2 := ChangePhase(db, net, afterCreate);
    if threw2 {
      ChangesStopped(rows0, all, created, rows1, afterCreate, changed, seen2, db.rows);
      threw := true;
      run := Run(all, created, |all|, afterCreate, changed, seen2, Throw);
      return;
    }
    ghost var rows2 := db.rows;
    var o := PullPhase(db, net);
    Completed(rows0, all, created, rows1, afterCreate, changed, rows2, o);
    threw := false;
    run := Run(all, created, |all|, afterCreate, changed, seen2, o);
  }

  /** `syncPendingTasks()`. `online` is `navigator.onLine`; `threw` says the
      call ends by throwing. */
  method SyncPendingTasks(db: TaskDb, net: Network, online: bool) returns (threw: bool, ghost run: Run)
    requires db.Valid()
    modifies db, net, net.server
    ensures db.Valid()
    ensures !online ==> threw && db.rows == old(db.rows) && unchanged(net, net.server)
    ensures online ==> Shaped(run) && Fits(old(db.rows), run) && SyncOf(old(db.rows), run) == Phase(db.rows, threw)
    ensures online && old(net.Reliable() && net.server.Valid() && Tagged(db.rows) && Titled(db.rows)) ==>
      && !threw
      && (forall k | k in db.rows :: !PushesCreate(db.rows[k]))
      && (forall k | k in db.rows && k.Server? :: !db.rows[k].dirty)
      && Mirrors(db.rows, net.server.tasks)
  {
    if !online {
      threw := true;
      run := Run([], [], 0, [], [], 0, Throw);
      return;
    }
    ghost var rows0 := db.rows;
    ghost var good := net.Reliable() && net.server.Valid() && Tagged(db.rows) && Titled(db.rows);
    threw, run := SyncOnline(db, net);
    if good {
      SyncSettles(rows0, run);
      SyncMirrors(rows0, run, net.server.tasks);
    }
  }
}
