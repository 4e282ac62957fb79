/** Task records as they travel between the browser's store and the server.

    A task is a JavaScript object whose keys come and go: the browser adds
    `clientId`, `dirty`, `deleted` and `_localId`, the server adds `id`, and
    `Object.assign` copies whatever keys a JSON body carries. One datatype,
    `Task`, stands for such an object on both sides; a missing boolean key
    reads as `false`, a missing or null optional key as `None`, and a
    missing `createdAt` as `0` (the store treats both as falsy). */
module Tasks {

  datatype Option<T> = None | Some(value: T)

  /** Primary key of the browser store: `l:<token>` for a task the server
      has not created yet, `s:<id>` for a mirror of server task `id`. */
  datatype ClientId = Local(token: int) | Server(id: int)

  datatype Location = Location(lat: real, lon: real)

  datatype Task = Task(
    clientId: Option<ClientId>,
    id: Option<int>,
    title: string,
    description: string,
    completed: bool,
    location: Option<Location>,
    photo: Option<string>,
    createdAt: int,
    dirty: bool,
    deleted: bool,
    localId: Option<ClientId>)

  /** A task as the server keeps and sends it: it always has a numeric id. */
  type ServerTask = t: Task | t.id.Some?
    witness Task(None, Some(0), "", "", false, None, None, 0, false, false, None)

  function IdOf(t: ServerTask): int
  {
    t.id.value
  }

  /** A JSON request body: `None` is a key the body does not carry. */
  datatype Patch = Patch(
    clientId: Option<ClientId>,
    id: Option<int>,
    title: Option<string>,
    description: Option<string>,
    completed: Option<bool>,
    location: Option<Option<Location>>,
    photo: Option<Option<string>>,
    createdAt: Option<int>,
    dirty: Option<bool>,
    deleted: Option<bool>,
    localId: Option<Option<ClientId>>)

  /** JavaScript truthiness of an optional string key. */
  predicate Truthy(s: Option<string>)
  {
    s.Some? && s.value != ""
  }

  function Pick<T>(given: Option<T>, kept: T): T
  {
    if given.Some? then given.value else kept
  }

  /** `Object.assign(t, body)`: every key the body carries overwrites the
      task's, every other key is kept. */
  function Merge(t: Task, body: Patch): (r: Task)
    ensures r.id == (if body.id.Some? then body.id else t.id)
    ensures body.id.None? || body.id == t.id ==> r.id == t.id
  {
    Task(
      if body.clientId.Some? then body.clientId else t.clientId,
      if body.id.Some? then body.id else t.id,
      Pick(body.title, t.title),
      Pick(body.description, t.description),
      Pick(body.completed, t.completed),
      Pick(body.location, t.location),
      Pick(body.photo, t.photo),
      Pick(body.createdAt, t.createdAt),
      Pick(body.dirty, t.dirty),
      Pick(body.deleted, t.deleted),
      Pick(body.localId, t.localId))
  }

  /** `JSON.stringify(t)` of a stored row, as the browser sends it. */
  function AsPatch(t: Task): Patch
  {
    Patch(t.clientId, t.id, Some(t.title), Some(t.description), Some(t.completed),
          Some(t.location), Some(t.photo), Some(t.createdAt), Some(t.dirty),
          Some(t.deleted), Some(t.localId))
  }

  /** Merging the body of a whole row that carries its key and id makes the
      target equal to that row, whatever the target held before. */
  lemma MergeWholeRow(t: Task, row: Task)
    requires row.clientId.Some? && row.id.Some?
    ensures Merge(t, AsPatch(row)) == row
  {
  }
}
