/** The server's task endpoints (backend/controllers/taskController.js) over
    the task collection of the document store.

    The collection is held in insertion order. The store itself promises no
    order for `find` without a sort; the model takes that order to be the
    insertion order, and only the statements about order depend on it.

    The authenticated requester's id, which the authentication middleware
    puts in `req.user._id`, is an explicit parameter. Document ids are
    generated by the store; `CreateTask` receives a fresh one. */
module TaskController {
  import opened Seqs
  import opened Basics
  import opened TaskModel

  /** The body of the 404 failure of an update with an unknown id. */
  const TaskNotFound := HttpError(404, "Task not found")

  /** The message every delete responds with. */
  const TaskDeleted := "Task deleted"

  /** The request body of an update; the handler never reads it. */
  datatype UpdateBody = UpdateBody(completed: Option<bool>)

  class TaskCollection {
    var tasks: seq<Task>

    ghost predicate Valid()
      reads this
    {
      UniqueIds(tasks)
    }

    constructor ()
      ensures Valid() && tasks == []
    {
      tasks := [];
    }

    /** POST /tasks: store a new task owned by the requester, with the
        requested title and `completed` false, and answer 201 with it. */
    method CreateTask(requester: UserId, title: string, freshId: TaskId) returns (status: int, created: Task)
      requires Valid() && !HasId(tasks, freshId)
      modifies this
      ensures Valid()
      ensures status == 201
      ensures created == Task(freshId, requester, title, false)
      ensures tasks == old(tasks) + [created]
    {
      created := Task(freshId, requester, title, false);
      tasks := tasks + [created];
      status := 201;
    }

    /** GET /tasks: the requester's tasks, in store order. */
    method GetTasks(requester: UserId) returns (body: seq<Task>)
      ensures body == OwnedBy(tasks, requester)
      ensures forall i :: 0 <= i < |body| ==> body[i].owner == requester
      ensures forall i :: 0 <= i < |tasks| && tasks[i].owner == requester ==> tasks[i] in body
    {
      body := OwnedBy(tasks, requester);
    }

    /** PUT /tasks/:id: negate the `completed` flag of the task with that id
        and answer with the updated task, or fail with 404 when there is
        none. Neither the requester nor the request body is consulted. */
    method UpdateTask(requester: UserId, id: TaskId, body: UpdateBody) returns (r: Result<Task, HttpError>)
      requires Valid()
      modifies this
      ensures Valid()
      ensures tasks == Toggled(old(tasks), id)
      ensures !HasId(old(tasks), id) ==> r == Failure(TaskNotFound) && tasks == old(tasks)
      ensures HasId(old(tasks), id) ==>
        var k := FindById(old(tasks), id).value;
        r == Success(Flipped(old(tasks)[k])) && tasks == old(tasks)[k := r.value]
    {
      var found := FindById(tasks, id);
      if found.None? {
        ToggleAbsent(tasks, id);
        r := Failure(TaskNotFound);
        return;
      }
      var k := found.value;
      var task := Flipped(tasks[k]);
      ToggleAtIndex(tasks, k);
      ToggleKeepsIds(tasks, id);
      tasks := tasks[k := task];
      r := Success(task);
    }

    /** DELETE /tasks/:id: remove the task with that id if there is one and
        answer "Task deleted" in every case. The requester is not consulted. */
    method DeleteTask(requester: UserId, id: TaskId) returns (message: string)
      requires Valid()
      modifies this
      ensures Valid()
      ensures message == TaskDeleted
      ensures tasks == Without(old(tasks), id)
      ensures !HasId(tasks, id)
      ensures !HasId(old(tasks), id) ==> tasks == old(tasks)
      ensures HasId(old(tasks), id) ==> |tasks| == |old(tasks)| - 1
    {
      WithoutRemovesId(tasks, id);
      var found := FindById(tasks, id);
      if found.Some? {
        var k := found.value;
        RemoveAtIndex(tasks, k);
        tasks := tasks[..k] + tasks[k + 1..];
      } else {
        WithoutAbsent(tasks, id);
      }
      message := TaskDeleted;
    }
  }

  /** A task created by one user never appears in another user's list:
      storing it leaves that list as it was. */
  lemma {:induction false} CreateIsolation(s: seq<Task>, created: Task, other: UserId)
    requires created.owner != other
    ensures OwnedBy(s + [created], other) == OwnedBy(s, other)
  {
    FilterAppend(s, [created], (t: Task) => t.owner == other);
  }

  /** The creator's list gains exactly the new task, at the end of the
      collection's insertion order. */
  lemma {:induction false} CreateAppendsToOwnerList(s: seq<Task>, created: Task)
    ensures OwnedBy(s + [created], created.owner) == OwnedBy(s, created.owner) + [created]
  {
    FilterAppend(s, [created], (t: Task) => t.owner == created.owner);
  }

  /** Listing returns the requester's tasks in store order. */
  lemma {:induction false} ListKeepsStoreOrder(s: seq<Task>, user: UserId)
    ensures IsSubsequence(OwnedBy(s, user), s)
  {
    FilterIsSubsequence(s, (t: Task) => t.owner == user);
  }

  /** Because `UpdateTask` does not compare the task's owner with the
      requester, toggling any stored task's id changes its owner's list,
      whoever sends the request. */
  lemma ToggleReachesOwnerList(s: seq<Task>, k: nat)
    requires UniqueIds(s) && k < |s|
    ensures OwnedBy(Toggled(s, s[k].id), s[k].owner) != OwnedBy(s, s[k].owner)
  {
    var after := Toggled(s, s[k].id);
    assert after[k] == Flipped(s[k]);
    assert after[k] in OwnedBy(after, s[k].owner);
  }

  /** Likewise `DeleteTask` removes any stored task from its owner's list,
      whoever sends the request. */
  lemma DeleteReachesOwnerList(s: seq<Task>, k: nat)
    requires k < |s|
    ensures s[k] !in OwnedBy(Without(s, s[k].id), s[k].owner)
    ensures s[k] in OwnedBy(s, s[k].owner)
  {
  }
}
