/** The JSON requests and answers of the task API in server.js. */
module Api {
  import opened Tasks

  /** One entry of the `mapping` list of `POST /api/sync`. */
  datatype Mapping = Mapping(localId: ClientId, serverId: int)

  /** The answer bodies the API sends. Every shape but `Failed` has `ok: true`. */
  datatype Reply =
    | Listed(tasks: seq<ServerTask>)
    | One(task: ServerTask)
    | Removed(deleted: bool)
    | Synced(created: seq<ServerTask>, updated: seq<ServerTask>, mapping: seq<Mapping>)
    | Failed(status: int, error: string)

  /** The requests the browser issues. */
  datatype Request =
    | ListTasks
    | CreateTask(body: Patch)
    | UpdateTask(id: int, body: Patch)
    | DeleteTask(id: int)
}
