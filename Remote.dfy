/** The network between the browser and server.js. Each `fetch` either
    throws (no answer reaches the browser) or resolves with the JSON answer
    of the server's handler. A schedule says, call by call, whether the
    request is lost before the server sees it, delivered, or answered by the
    server while the answer is lost on the way back. */
module Remote {
  import opened Tasks
  import opened Api
  import opened Server

  /** What awaiting `fetch` and then `res.json()` gives the browser. */
  datatype Outcome = Throw | Resolved(reply: Reply)

  datatype Delivery = Deliver | LoseRequest | LoseResponse

  /** A request that cannot change a task's id: a body with no `id` key, or
      the same id as the address. */
  predicate KeepsIds(req: Request)
  {
    req.UpdateTask? ==> req.body.id.None? || req.body.id == Some(req.id)
  }

  class Network {
    const server: TaskApi
    /** Deliveries still to come; once the schedule is used up, every call
        is delivered. */
    var schedule: seq<Delivery>
    /** The server's `Date.now()`, one tick per request. */
    var clock: int

    constructor (server: TaskApi, schedule: seq<Delivery>, clock: int)
      ensures this.server == server && this.schedule == schedule && this.clock == clock
    {
      this.server := server;
      this.schedule := schedule;
      this.clock := clock;
    }

    /** Every call from now on is delivered. */
    ghost predicate Reliable()
      reads this
    {
      forall i | 0 <= i < |schedule| :: schedule[i] == Deliver
    }

    function Next(): Delivery
      reads this
    {
      if schedule == [] then Deliver else schedule[0]
    }

    method Fetch(req: Request) returns (o: Outcome)
      modifies this, server
      ensures schedule == (if old(schedule) == [] then [] else old(schedule)[1..])
      ensures clock == old(clock) + 1
      ensures old(Reliable()) ==> Reliable()
      ensures old(Next()) == LoseRequest ==> o == Throw && unchanged(server)
      ensures old(Next()) == LoseResponse ==> o == Throw
      ensures old(Next()) == Deliver ==> o.Resolved?
      ensures req.ListTasks? ==> unchanged(server)
      ensures req.ListTasks? && o.Resolved? ==> o.reply == Listed(server.tasks)
      ensures req.CreateTask? && Truthy(req.body.title) && o.Resolved? ==> o.reply.One?
      ensures old(server.Valid()) && KeepsIds(req) ==> server.Valid()
    {
      var delivery := Next();
      if schedule != [] {
        schedule := schedule[1..];
      }
      var now := clock;
      clock := clock + 1;
      if delivery == LoseRequest {
        return Throw;
      }
      var reply: Reply;
      match req {
        case ListTasks => reply := server.List();
        case CreateTask(body) => reply := server.Create(body, now);
        case UpdateTask(id, body) => reply := server.Update(id, body);
        case DeleteTask(id) => reply := server.Delete(id);
      }
      if delivery == LoseResponse {
        return Throw;
      }
      o := Resolved(reply);
    }
  }
}
