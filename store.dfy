/**
 * The process-wide task collection (the global slice `tasks` of main.go) as an
 * object whose methods are the store-changing parts of the HTTP handlers.
 */
module Store {
  import opened Wrappers
  import opened Tasks

  /** What the update part of `PUT /tasks/{id}` ends in. */
  datatype UpdateOutcome =
    | Updated(task: Task)    // the name was written; the slot as it now reads
    | DecodeFailed           // the body did not decode; nothing was written
    | IndexOutOfRange        // the lookup missed on an empty collection and `tasks[0]` panics

  class TaskStore {
    /** The collection, in insertion order. */
    var tasks: seq<Task>

    /** Every id is non-empty and no two tasks share an id. */
    ghost predicate Valid()
      reads this
    {
      WellFormed(tasks)
    }

    /** The collection starts empty when the process starts. */
    constructor ()
      ensures tasks == [] && Valid()
    {
      tasks := [];
    }

    /** `GET /tasks`: the whole collection, unchanged. */
    method List() returns (r: seq<Task>)
      ensures r == tasks
    {
      r := tasks;
    }

    /**
     * `getTaskById`: a forward scan that stops at the first task with id `id`
     * and returns it with its index; on a miss, the zero task and index 0.
     */
    method GetTaskById(id: string) returns (task: Task, index: nat)
      ensures (task, index) == Lookup(tasks, id)
      ensures HasId(tasks, id) ==>
        index < |tasks| && task == tasks[index] && task.id == id &&
        forall j :: 0 <= j < index ==> tasks[j].id != id
      ensures !HasId(tasks, id) ==> task == ZeroTask && index == 0
    {
      index := 0;
      while index < |tasks|
        invariant index <= |tasks|
        invariant forall j :: 0 <= j < index ==> tasks[j].id != id
      {
        if tasks[index].id == id {
          task := tasks[index];
          return;
        }
        index := index + 1;
      }
      task, index := ZeroTask, 0;
    }

    /**
     * The store part of `POST /tasks`. `body` is the decoded request body and
     * `newId` the freshly generated id, which replaces any id the client sent.
     * A body that does not decode leaves the collection as it was.
     */
    method Create(body: Option<Task>, newId: string) returns (created: Option<Task>)
      requires newId != "" && !HasId(tasks, newId)
      modifies this
      ensures body.None? ==> created.None? && tasks == old(tasks)
      ensures body.Some? ==>
        created == Some(Task(body.value.name, newId)) &&
        tasks == old(tasks) + [created.value]
      ensures old(Valid()) ==> Valid()
    {
      if body.None? {
        return None;
      }
      var t := body.value.(id := newId);
      tasks := tasks + [t];
      created := Some(t);
      if old(Valid()) {
        AppendWellFormed(old(tasks), t);
      }
    }

    /**
     * The store part of `PUT /tasks/{id}`: look the id up first, then decode
     * the body, then overwrite the name at the index the lookup returned. On a
     * miss that index is 0, so a non-empty collection has its first task
     * renamed and an empty one makes the write go out of range.
     */
    method Update(id: string, body: Option<Task>) returns (outcome: UpdateOutcome)
      modifies this
      ensures body.None? ==> outcome == DecodeFailed && tasks == old(tasks)
      ensures body.Some? && old(tasks) == [] ==>
        outcome == IndexOutOfRange && tasks == old(tasks)
      ensures body.Some? && old(tasks) != [] ==>
        var i := Lookup(old(tasks), id).1;
        i < |old(tasks)| &&
        tasks == RenameAt(old(tasks), i, body.value.name) &&
        outcome == Updated(tasks[i])
      ensures old(Valid()) ==> Valid()
    {
      var _, index := GetTaskById(id);
      if body.None? {
        return DecodeFailed;
      }
      if index >= |tasks| {
        return IndexOutOfRange;
      }
      tasks := tasks[index := tasks[index].(name := body.value.name)];
      outcome := Updated(tasks[index]);
      if old(Valid()) {
        RenameWellFormed(old(tasks), index, body.value.name);
      }
    }

    /**
     * The store part of `DELETE /tasks/{id}`: keep, in order, every task whose
     * id is not `id`, compacting them into the new collection.
     */
    method Delete(id: string)
      modifies this
      ensures tasks == Without(old(tasks), id)
      ensures old(Valid()) ==> Valid()
    {
      var kept: seq<Task> := [];
      var i := 0;
      while i < |tasks|
        invariant i <= |tasks| && tasks == old(tasks)
        invariant kept == Without(tasks[..i], id)
      {
        assert tasks[..i + 1] == tasks[..i] + [tasks[i]];
        WithoutAppend(tasks[..i], [tasks[i]], id);
        assert [tasks[i]][1..] == [];
        if tasks[i].id != id {
          kept := kept + [tasks[i]];
        }
        i := i + 1;
      }
      assert tasks[..i] == tasks;
      tasks := kept;
      if old(Valid()) {
        WithoutWellFormed(old(tasks), id);
      }
    }
  }
}
