/** The in-memory task list behind the API of server.js: the `TASKS` array,
    the `NEXT_ID` counter and the handlers of `/api/tasks` and `/api/sync`. */
module Server {
  import opened Tasks
  import opened Api

  /** Title given by `POST /api/sync` to a task that arrives without one. */
  const Untitled: string := "Sin título"

  /** Every id is below the next id to hand out, and no two tasks share one. */
  ghost predicate IdsFresh(tasks: seq<ServerTask>, nextId: int)
  {
    && (forall i | 0 <= i < |tasks| :: IdOf(tasks[i]) < nextId)
    && (forall i, j | 0 <= i < j < |tasks| :: IdOf(tasks[i]) != IdOf(tasks[j]))
  }

  /** The two sample tasks the server starts with, created one and two hours
      before `now`. */
  function Seed(now: int): (r: seq<ServerTask>)
    ensures |r| == 2 && IdOf(r[0]) == 1 && IdOf(r[1]) == 2
    ensures IdsFresh(r, |r| + 1)
  {
    [ Task(None, Some(1), "Comprar leche", "Leche entera 1L", false, None, None,
           now - 3600000, false, false, None),
      Task(None, Some(2), "Enviar reporte", "Enviar reporte semanal", false, None, None,
           now - 7200000, false, false, None) ]
  }

  /** The task both create handlers build: the given id and title, the
      body's description or `''`, its completed flag or `false`, its location
      or null, its photo or null (an empty photo is null too), created `now`. */
  function Fresh(id: int, title: string, body: Patch, now: int): (t: ServerTask)
    ensures IdOf(t) == id && t.title == title && t.createdAt == now
    ensures t.description == (if body.description.Some? then body.description.value else "")
    ensures t.completed <==> body.completed == Some(true)
    ensures t.location.Some? <==> body.location.Some? && body.location.value.Some?
    ensures body.location.Some? && body.location.value.Some? ==> t.location == body.location.value
    ensures t.photo.Some? <==> body.photo.Some? && Truthy(body.photo.value)
    ensures body.photo.Some? && Truthy(body.photo.value) ==> t.photo == body.photo.value
    ensures t.clientId.None? && !t.dirty && !t.deleted && t.localId.None?
  {
    var photo := Pick(body.photo, None);
    Task(None, Some(id), title, Pick(body.description, ""), Pick(body.completed, false),
         Pick(body.location, None), if Truthy(photo) then photo else None,
         now, false, false, None)
  }

  /** `TASKS.find(x => x.id === id)`, as an index: the first task with that id. */
  function FindTask(tasks: seq<ServerTask>, id: int): (r: Option<nat>)
    ensures r.Some? ==> r.value < |tasks| && IdOf(tasks[r.value]) == id
    ensures r.Some? ==> forall j | 0 <= j < r.value :: IdOf(tasks[j]) != id
    ensures r.None? <==> forall j | 0 <= j < |tasks| :: IdOf(tasks[j]) != id
  {
    if tasks == [] then None
    else if IdOf(tasks[0]) == id then Some(0)
    else match FindTask(tasks[1..], id)
      case None => None
      case Some(i) => Some(i + 1)
  }

  /** `TASKS.filter(x => x.id !== id)`. */
  function Without(tasks: seq<ServerTask>, id: int): (r: seq<ServerTask>)
    ensures |r| <= |tasks|
  {
    if tasks == [] then []
    else (if IdOf(tasks[0]) == id then [] else [tasks[0]]) + Without(tasks[1..], id)
  }

  /** The filter keeps exactly the tasks whose id differs. */
  lemma {:induction false} WithoutMembers(tasks: seq<ServerTask>, id: int)
    ensures forall t | t in Without(tasks, id) :: t in tasks && IdOf(t) != id
    ensures forall t | t in tasks && IdOf(t) != id :: t in Without(tasks, id)
  {
    if tasks != [] {
      WithoutMembers(tasks[1..], id);
      assert tasks == [tasks[0]] + tasks[1..];
    }
  }

  /** Filtering keeps the surviving tasks in their original order: it
      distributes over concatenation. */
  lemma {:induction false} WithoutConcat(a: seq<ServerTask>, b: seq<ServerTask>, id: int)
    ensures Without(a + b, id) == Without(a, id) + Without(b, id)
  {
    if a != [] {
      assert (a + b)[0] == a[0];
      assert (a + b)[1..] == a[1..] + b;
      WithoutConcat(a[1..], b, id);
    } else {
      assert a + b == b;
    }
  }

  /** The list shrinks exactly when some task carries the id. */
  lemma {:induction false} WithoutShrinks(tasks: seq<ServerTask>, id: int)
    ensures |Without(tasks, id)| < |tasks| <==> FindTask(tasks, id).Some?
    ensures FindTask(tasks, id).None? ==> Without(tasks, id) == tasks
  {
    if tasks != [] {
      WithoutShrinks(tasks[1..], id);
      assert tasks == [tasks[0]] + tasks[1..];
    }
  }

  /** A second delete of the same id changes nothing. */
  lemma {:induction false} WithoutIdempotent(tasks: seq<ServerTask>, id: int)
    ensures Without(Without(tasks, id), id) == Without(tasks, id)
  {
    var r := Without(tasks, id);
    WithoutMembers(tasks, id);
    assert FindTask(r, id).None?;
    WithoutShrinks(r, id);
  }

  /** Removing tasks keeps ids distinct and below the counter. */
  lemma {:induction false} WithoutKeepsFresh(tasks: seq<ServerTask>, nextId: int, id: int)
    requires IdsFresh(tasks, nextId)
    ensures IdsFresh(Without(tasks, id), nextId)
  {
    if tasks != [] {
      var tail := tasks[1..];
      var rest := Without(tail, id);
      WithoutKeepsFresh(tail, nextId, id);
      if IdOf(tasks[0]) != id {
        WithoutMembers(tail, id);
        var r := [tasks[0]] + rest;
        forall j | 0 <= j < |rest|
          ensures IdOf(rest[j]) != IdOf(tasks[0])
        {
          assert rest[j] in tail;
          var m :| 0 <= m < |tail| && tail[m] == rest[j];
          assert tasks[m + 1] == rest[j];
        }
        forall i, j | 0 <= i < j < |r|
          ensures IdOf(r[i]) != IdOf(r[j])
        {
          assert r[j] == rest[j - 1];
          if i > 0 {
            assert r[i] == rest[i - 1];
          }
        }
        assert Without(tasks, id) == r;
      }
    }
  }

  /** The state `POST /api/sync` accumulates: the task list and counter,
      positions in the list of the `created` and `updated` answers (the
      answer lists hold references, so they show each task as it is when
      the answer is sent), and the id mapping. */
  datatype Batch = Batch(
    tasks: seq<ServerTask>,
    nextId: int,
    created: seq<nat>,
    updated: seq<nat>,
    mapping: seq<Mapping>)
  {
    ghost predicate Indexed()
    {
      && (forall i | 0 <= i < |created| :: created[i] < |tasks|)
      && (forall i | 0 <= i < |updated| :: updated[i] < |tasks|)
    }
  }

  /** An incoming task with a truthy `_localId` and a falsy `id` is created. */
  predicate CreatesTask(p: Patch)
  {
    p.localId.Some? && p.localId.value.Some? && (p.id.None? || p.id == Some(0))
  }

  /** An incoming task with a truthy `id` is merged into the task with that id. */
  predicate UpdatesTask(p: Patch)
  {
    p.id.Some? && p.id.value != 0
  }

  /** One turn of the `forEach` of `POST /api/sync`. */
  function BatchStep(b: Batch, p: Patch, now: int): Batch
  {
    if CreatesTask(p) then
      var t := Fresh(b.nextId, if Truthy(p.title) then p.title.value else Untitled, p, now);
      Batch(b.tasks + [t], b.nextId + 1, b.created + [|b.tasks|], b.updated,
            b.mapping + [Mapping(p.localId.value.value, b.nextId)])
    else if UpdatesTask(p) then
      match FindTask(b.tasks, p.id.value)
      case None => b
      case Some(i) =>
        var t: ServerTask := Merge(b.tasks[i], p);
        Batch(b.tasks[i := t], b.nextId, b.created, b.updated + [i], b.mapping)
    else b
  }

  /** A task to create is appended with the counter as id and the title or
      the default one, and gets a mapping entry; any other task keeps the
      number of tasks and every id, and one that matches no task changes
      nothing. */
  lemma StepFacts(b: Batch, p: Patch, now: int)
    ensures var r := BatchStep(b, p, now);
      && (CreatesTask(p) ==>
            && |r.tasks| == |b.tasks| + 1 && r.tasks[..|b.tasks|] == b.tasks
            && IdOf(r.tasks[|b.tasks|]) == b.nextId && r.nextId == b.nextId + 1
            && r.tasks[|b.tasks|].title == (if Truthy(p.title) then p.title.value else Untitled)
            && r.created == b.created + [|b.tasks|] && r.updated == b.updated
            && r.mapping == b.mapping + [Mapping(p.localId.value.value, b.nextId)])
      && (!CreatesTask(p) ==>
            && |r.tasks| == |b.tasks| && r.nextId == b.nextId
            && r.created == b.created && r.mapping == b.mapping
            && (forall i | 0 <= i < |b.tasks| :: IdOf(r.tasks[i]) == IdOf(b.tasks[i])))
      && (!CreatesTask(p) && (!UpdatesTask(p) || FindTask(b.tasks, p.id.value).None?) ==> r == b)
      && (b.Indexed() ==> r.Indexed())
  {
  }

  /** The batch after the first `|incoming|` turns. */
  function Batched(start: Batch, incoming: seq<Patch>, now: int): Batch
    decreases |incoming|
  {
    if incoming == [] then start
    else BatchStep(Batched(start, incoming[..|incoming| - 1], now), incoming[|incoming| - 1], now)
  }

  function CountCreates(incoming: seq<Patch>): nat
    decreases |incoming|
  {
    if incoming == [] then 0
    else CountCreates(incoming[..|incoming| - 1]) + (if CreatesTask(incoming[|incoming| - 1]) then 1 else 0)
  }

  /** What `POST /api/sync` promises: one new task and one mapping entry per
      incoming task to create, numbered from the old counter on and appended
      after the old tasks; merges keep every id. */
  lemma {:induction false} BatchedFacts(tasks: seq<ServerTask>, nextId: int, incoming: seq<Patch>, now: int)
    ensures var b := Batched(Batch(tasks, nextId, [], [], []), incoming, now);
      && b.Indexed()
      && |b.created| == |b.mapping| == CountCreates(incoming)
      && b.nextId == nextId + CountCreates(incoming)
      && |b.tasks| == |tasks| + CountCreates(incoming)
      && (forall i | 0 <= i < |tasks| :: IdOf(b.tasks[i]) == IdOf(tasks[i]))
      && (forall i | 0 <= i < |b.mapping| ::
            && b.mapping[i].serverId == nextId + i
            && b.created[i] == |tasks| + i
            && IdOf(b.tasks[b.created[i]]) == nextId + i)
  {
    if incoming != [] {
      var init := incoming[..|incoming| - 1];
      BatchedFacts(tasks, nextId, init, now);
      var a := Batched(Batch(tasks, nextId, [], [], []), init, now);
      var p := incoming[|incoming| - 1];
      var b := BatchStep(a, p, now);
      StepFacts(a, p, now);
      if CreatesTask(p) {
        assert forall i | 0 <= i < |a.tasks| :: b.tasks[i] == a.tasks[i];
      }
    }
  }

  /** One turn of `POST /api/sync` keeps ids distinct and below the counter. */
  lemma StepKeepsFresh(b: Batch, p: Patch, now: int)
    requires IdsFresh(b.tasks, b.nextId)
    ensures IdsFresh(BatchStep(b, p, now).tasks, BatchStep(b, p, now).nextId)
  {
    var r := BatchStep(b, p, now);
    StepFacts(b, p, now);
    if CreatesTask(p) {
      assert forall i | 0 <= i < |b.tasks| :: r.tasks[i] == b.tasks[i];
    }
  }

  /** `POST /api/sync` keeps ids distinct and below the counter. */
  lemma {:induction false} BatchedKeepsFresh(start: Batch, incoming: seq<Patch>, now: int)
    requires IdsFresh(start.tasks, start.nextId)
    ensures IdsFresh(Batched(start, incoming, now).tasks, Batched(start, incoming, now).nextId)
    decreases |incoming|
  {
    if incoming != [] {
      BatchedKeepsFresh(start, incoming[..|incoming| - 1], now);
      StepKeepsFresh(Batched(start, incoming[..|incoming| - 1], now), incoming[|incoming| - 1], now);
    }
  }

  /** The tasks at the given positions, as the answer serialises them. */
  function At(tasks: seq<ServerTask>, positions: seq<nat>): (r: seq<ServerTask>)
    requires forall i | 0 <= i < |positions| :: positions[i] < |tasks|
    ensures |r| == |positions| && forall i | 0 <= i < |r| :: r[i] == tasks[positions[i]]
  {
    seq(|positions|, i requires 0 <= i < |positions| => tasks[positions[i]])
  }

  class TaskApi {
    var tasks: seq<ServerTask>
    var nextId: int

    ghost predicate Valid()
      reads this
    {
      IdsFresh(tasks, nextId)
    }

    constructor (now: int)
      ensures tasks == Seed(now) && nextId == 3 && Valid()
    {
      var seed := Seed(now);
      tasks := seed;
      nextId := |seed| + 1;
    }

    /** `GET /api/tasks`. */
    method List() returns (r: Reply)
      ensures r == Listed(tasks)
    {
      r := Listed(tasks);
    }

    /** `POST /api/tasks`: refuses a missing or empty title with 400;
        otherwise appends one task numbered with the counter. */
    method Create(body: Patch, now: int) returns (r: Reply)
      modifies this
      ensures !Truthy(body.title) ==>
        r == Failed(400, "title required") && tasks == old(tasks) && nextId == old(nextId)
      ensures Truthy(body.title) ==>
        && tasks == old(tasks) + [Fresh(old(nextId), body.title.value, body, now)]
        && nextId == old(nextId) + 1
        && r == One(tasks[|tasks| - 1])
      ensures old(Valid()) ==> Valid()
    {
      if !Truthy(body.title) {
        return Failed(400, "title required");
      }
      var task := Fresh(nextId, body.title.value, body, now);
      nextId := nextId + 1;
      tasks := tasks + [task];
      r := One(task);
    }

    /** `PUT /api/tasks/:id`: 404 for an unknown id; otherwise merges the
        body over the first task with that id. */
    method Update(id: int, body: Patch) returns (r: Reply)
      modifies this
      ensures nextId == old(nextId) && |tasks| == |old(tasks)|
      ensures FindTask(old(tasks), id).None? ==> r == Failed(404, "not found") && tasks == old(tasks)
      ensures FindTask(old(tasks), id).Some? ==>
        var i := FindTask(old(tasks), id).value;
        && tasks == old(tasks)[i := Merge(old(tasks)[i], body)]
        && r == One(tasks[i])
      ensures old(Valid()) && (body.id.None? || body.id == Some(id)) ==> Valid()
    {
      var found := FindTask(tasks, id);
      if found.None? {
        return Failed(404, "not found");
      }
      var i := found.value;
      var t: ServerTask := Merge(tasks[i], body);
      tasks := tasks[i := t];
      r := One(t);
    }

    /** `DELETE /api/tasks/:id`: drops every task with the id and reports
        whether the list shrank. */
    method Delete(id: int) returns (r: Reply)
      modifies this
      ensures tasks == Without(old(tasks), id) && nextId == old(nextId)
      ensures r == Removed(|tasks| != |old(tasks)|)
      ensures r.deleted <==> FindTask(old(tasks), id).Some?
      ensures old(Valid()) ==> Valid()
    {
      var before := |tasks|;
      if Valid() {
        WithoutKeepsFresh(tasks, nextId, id);
      }
      WithoutShrinks(tasks, id);
      tasks := Without(tasks, id);
      r := Removed(|tasks| != before);
    }

    /** One turn of the `forEach` of `POST /api/sync`, on the answer lists
        built so far. */
    method Absorb(task: Patch, now: int, created: seq<nat>, updated: seq<nat>, mapping: seq<Mapping>)
      returns (created': seq<nat>, updated': seq<nat>, mapping': seq<Mapping>)
      modifies this
      ensures Batch(tasks, nextId, created', updated', mapping')
           == BatchStep(Batch(old(tasks), old(nextId), created, updated, mapping), task, now)
    {
      created', updated', mapping' := created, updated, mapping;
      if CreatesTask(task) {
        var title := if Truthy(task.title) then task.title.value else Untitled;
        var newTask := Fresh(nextId, title, task, now);
        tasks := tasks + [newTask];
        created' := created + [|tasks| - 1];
        mapping' := mapping + [Mapping(task.localId.value.value, nextId)];
        nextId := nextId + 1;
      } else if UpdatesTask(task) {
        var found := FindTask(tasks, task.id.value);
        if found.Some? {
          var i := found.value;
          var t: ServerTask := Merge(tasks[i], task);
          tasks := tasks[i := t];
          updated' := updated + [i];
        }
      }
    }

    /** `POST /api/sync`: creates the incoming tasks that only have a local
        id, merges those with an id into the matching task, and answers with
        the created and updated tasks and the local-to-server id mapping. */
    method SyncBatch(incoming: seq<Patch>, now: int) returns (r: Reply)
      modifies this
      ensures var b := Batched(Batch(old(tasks), old(nextId), [], [], []), incoming, now);
        && b.Indexed()
        && tasks == b.tasks && nextId == b.nextId
        && r == Synced(At(b.tasks, b.created), At(b.tasks, b.updated), b.mapping)
      ensures old(Valid()) ==> Valid()
    {
      var start := Batch(tasks, nextId, [], [], []);
      var created: seq<nat> := [];
      var updated: seq<nat> := [];
      var mapping: seq<Mapping> := [];
      var k := 0;
      while k < |incoming|
        invariant 0 <= k <= |incoming|
        invariant Batch(tasks, nextId, created, updated, mapping) == Batched(start, incoming[..k], now)
      {
        assert incoming[..k + 1][..k] == incoming[..k];
        created, updated, mapping := Absorb(incoming[k], now, created, updated, mapping);
        k := k + 1;
      }
      assert incoming[..k] == incoming;
      BatchedFacts(start.tasks, start.nextId, incoming, now);
      if IdsFresh(start.tasks, start.nextId) {
        BatchedKeepsFresh(start, incoming, now);
      }
      r := Synced(At(tasks, created), At(tasks, updated), mapping);
    }
  }

  /** Deleting the same id twice: the second call changes nothing and
      reports `deleted: false`. */
  method DeleteTwice(api: TaskApi, id: int) returns (first: Reply, second: Reply)
    modifies api
    ensures api.tasks == Without(old(api.tasks), id)
    ensures second == Removed(false)
  {
    first := api.Delete(id);
    second := api.Delete(id);
    WithoutIdempotent(old(api.tasks), id);
  }
}
