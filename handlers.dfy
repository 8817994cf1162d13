/**
 * The two request handlers of main.go, `handleTasksHandler` (route `/tasks`)
 * and `handleTaskById` (route `/tasks/{id}`), over the task store. A reply is
 * kept as its status code and an abstract body; headers, JSON text and the
 * router in front of the handlers are not part of this model.
 */
module Handlers {
  import opened Wrappers
  import opened Tasks
  import opened Store

  /** The request method a handler dispatches on. */
  datatype Verb = Get | Post | Put | Delete | Options | Other(name: string)

  /** What the handler writes as the response body. */
  datatype Body =
    | NoBody
    | TaskJson(task: Task)
    | TaskListJson(tasks: seq<Task>)
    | Text(text: string)

  /** A reply, or a request whose handler panicked so that no reply is sent. */
  datatype Response = Reply(status: int, body: Body) | Aborted

  const StatusOK := 200
  const StatusNoContent := 204
  const StatusNotFound := 404
  const StatusInternalServerError := 500

  const ErrorText := "Sorry! An error occurred"
  const NotFoundText := "Not Found!"

  /**
   * `handleTasksHandler`. `body` is the outcome of decoding the request body
   * and `newId` the id generated for a new task; both are used by POST only.
   */
  method HandleTasks(store: TaskStore, verb: Verb, body: Option<Task>, newId: string)
    returns (resp: Response)
    requires verb == Post ==> newId != "" && !HasId(store.tasks, newId)
    modifies store
    ensures verb == Options ==> resp == Reply(StatusOK, NoBody) && store.tasks == old(store.tasks)
    ensures verb == Get ==>
      resp == Reply(StatusOK, TaskListJson(old(store.tasks))) && store.tasks == old(store.tasks)
    ensures verb == Post && body.None? ==>
      resp == Reply(StatusInternalServerError, Text(ErrorText)) && store.tasks == old(store.tasks)
    ensures verb == Post && body.Some? ==>
      var t := Task(body.value.name, newId);
      resp == Reply(StatusOK, TaskJson(t)) && store.tasks == old(store.tasks) + [t]
    ensures verb !in {Options, Get, Post} ==>
      resp == Reply(StatusNotFound, Text(NotFoundText)) && store.tasks == old(store.tasks)
    ensures old(store.Valid()) ==> store.Valid()
  {
    if verb == Options {
      return Reply(StatusOK, NoBody);
    }
    if verb == Post {
      var created := store.Create(body, newId);
      if created.None? {
        return Reply(StatusInternalServerError, Text(ErrorText));
      }
      resp := Reply(StatusOK, TaskJson(created.value));
    } else if verb == Get {
      var all := store.List();
      resp := Reply(StatusOK, TaskListJson(all));
    } else {
      resp := Reply(StatusNotFound, Text(NotFoundText));
    }
  }

  /**
   * `handleTaskById` for the path id `id`. `body` is the outcome of decoding
   * the request body, used by PUT only. A method with no branch of its own
   * writes nothing, which the HTTP server sends as an empty 200 reply.
   */
  method HandleTaskById(store: TaskStore, verb: Verb, id: string, body: Option<Task>)
    returns (resp: Response)
    modifies store
    ensures verb == Options ==> resp == Reply(StatusOK, NoBody) && store.tasks == old(store.tasks)
    ensures verb == Get ==>
      resp == Reply(StatusOK, TaskJson(Lookup(old(store.tasks), id).0)) &&
      store.tasks == old(store.tasks)
    ensures verb == Put && body.None? ==>
      resp == Reply(StatusInternalServerError, Text(ErrorText)) && store.tasks == old(store.tasks)
    ensures verb == Put && body.Some? && old(store.tasks) == [] ==>
      resp == Aborted && store.tasks == old(store.tasks)
    ensures verb == Put && body.Some? && old(store.tasks) != [] ==>
      var i := Lookup(old(store.tasks), id).1;
      i < |old(store.tasks)| &&
      store.tasks == RenameAt(old(store.tasks), i, body.value.name) &&
      resp == Reply(StatusOK, TaskJson(store.tasks[i]))
    ensures verb == Delete ==>
      resp == Reply(StatusNoContent, NoBody) && store.tasks == Without(old(store.tasks), id)
    ensures verb !in {Options, Get, Put, Delete} ==>
      resp == Reply(StatusOK, NoBody) && store.tasks == old(store.tasks)
    ensures old(store.Valid()) ==> store.Valid()
  {
    if verb == Options {
      return Reply(StatusOK, NoBody);
    }
    if verb == Get {
      var task, _ := store.GetTaskById(id);
      resp := Reply(StatusOK, TaskJson(task));
    } else if verb == Put {
      var outcome := store.Update(id, body);
      match outcome
      case DecodeFailed => resp := Reply(StatusInternalServerError, Text(ErrorText));
      case IndexOutOfRange => resp := Aborted;
      case Updated(t) => resp := Reply(StatusOK, TaskJson(t));
    } else if verb == Delete {
      store.Delete(id);
      resp := Reply(StatusNoContent, NoBody);
    } else {
      resp := Reply(StatusOK, NoBody);
    }
  }

  /**
   * A client session on a fresh store: create "A", list, rename it to "B" by
   * its id, delete it, list again. The replies are the ones the service
   * documents for this sequence, and the store ends empty.
   */
  method Session(id: string) returns (replies: seq<Response>, final: seq<Task>)
    requires id != ""
    ensures replies == [
      Reply(StatusOK, TaskJson(Task("A", id))),
      Reply(StatusOK, TaskListJson([Task("A", id)])),
      Reply(StatusOK, TaskJson(Task("B", id))),
      Reply(StatusNoContent, NoBody),
      Reply(StatusOK, TaskListJson([]))]
    ensures final == []
  {
    var store := new TaskStore();
    var r1 := HandleTasks(store, Post, Some(Task("A", "")), id);
    var r2 := HandleTasks(store, Get, None, "");
    assert store.tasks == [Task("A", id)];
    assert Lookup(store.tasks, id).1 == 0 by {
      assert HasId(store.tasks, id) by { assert store.tasks[0].id == id; }
    }
    var r3 := HandleTaskById(store, Put, id, Some(Task("B", "")));
    assert store.tasks == [Task("B", id)];
    var r4 := HandleTaskById(store, Delete, id, None);
    assert store.tasks == [] by {
      assert [Task("B", id)][1..] == [];
    }
    var r5 := HandleTasks(store, Get, None, "");
    replies := [r1, r2, r3, r4, r5];
    final := store.tasks;
  }

  /**
   * The aliasing defect seen from a client: with one task "A" stored under
   * `known`, a PUT naming another id renames "A" and replies with it, and the
   * same PUT on an empty store gets no reply at all.
   */
  method MissedPut(known: string, other: string) returns (missed: Response, onEmpty: Response)
    requires known != "" && other != known
    ensures missed == Reply(StatusOK, TaskJson(Task("B", known)))
    ensures onEmpty == Aborted
  {
    var store := new TaskStore();
    var _ := HandleTasks(store, Post, Some(Task("A", "")), known);
    assert !HasId(store.tasks, other) by {
      assert store.tasks == [Task("A", known)];
    }
    missed := HandleTaskById(store, Put, other, Some(Task("B", "")));
    var empty := new TaskStore();
    onEmpty := HandleTaskById(empty, Put, other, Some(Task("B", "")));
  }
}
