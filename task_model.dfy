/** The task record shared by the server and the client, and the operations
    on a sequence of tasks that both sides perform: toggling a task's
    `completed` flag by id, removing by id, and selecting one owner's tasks. */
module TaskModel {
  import opened Seqs
  import opened Basics

  /** Identifiers are opaque strings (the document store's object ids). */
  type TaskId = string
  type UserId = string

  /** A stored task: its id (`_id`), the id of the user who created it
      (`user`), its title and whether it is done. */
  datatype Task = Task(id: TaskId, owner: UserId, title: string, completed: bool)

  /** The task with its `completed` flag negated and every other field kept. */
  function Flipped(t: Task): (r: Task)
    ensures r.id == t.id && r.owner == t.owner && r.title == t.title
    ensures r.completed == !t.completed
  {
    t.(completed := !t.completed)
  }

  predicate HasId(s: seq<Task>, id: TaskId)
  {
    exists i :: 0 <= i < |s| && s[i].id == id
  }

  /** No two stored tasks share an id. */
  predicate UniqueIds(s: seq<Task>)
  {
    forall i, j :: 0 <= i < j < |s| ==> s[i].id != s[j].id
  }

  /** The position of the first task with the given id (`findById`), or
      `None` when no task has it. */
  function FindById(s: seq<Task>, id: TaskId): (r: Option<nat>)
    ensures r.Some? ==> r.value < |s| && s[r.value].id == id
    ensures r.Some? ==> forall i :: 0 <= i < r.value ==> s[i].id != id
    ensures r.None? <==> !HasId(s, id)
  {
    if s == [] then None
    else if s[0].id == id then Some(0)
    else match FindById(s[1..], id)
      case None =>
        assert forall i :: 1 <= i < |s| ==> s[i] == s[1..][i - 1];
        None
      case Some(k) => Some(k + 1)
  }

  /** Every task with the given id toggled, every other task as it was:
      only the `completed` flag of the tasks with that id changes. */
  function Toggled(s: seq<Task>, id: TaskId): (r: seq<Task>)
    ensures |r| == |s|
    ensures forall i :: 0 <= i < |s| ==>
      r[i].id == s[i].id && r[i].owner == s[i].owner && r[i].title == s[i].title
      && r[i].completed == (if s[i].id == id then !s[i].completed else s[i].completed)
  {
    Map(s, (t: Task) => if t.id == id then Flipped(t) else t)
  }

  /** The tasks whose id differs from `id`, in their original order: none
      with that id remains, and every other task stays as often as it was. */
  function Without(s: seq<Task>, id: TaskId): (r: seq<Task>)
    ensures forall i :: 0 <= i < |r| ==> r[i].id != id
    ensures forall i :: 0 <= i < |s| ==>
      multiset(r)[s[i]] == (if s[i].id != id then multiset(s)[s[i]] else 0)
  {
    var keep := (t: Task) => t.id != id;
    FilterCounts(s, keep);
    Filter(s, keep)
  }

  /** The tasks owned by `user`, in their original order: only that user's
      tasks, each as often as it is stored. */
  function OwnedBy(s: seq<Task>, user: UserId): (r: seq<Task>)
    ensures forall i :: 0 <= i < |r| ==> r[i].owner == user
    ensures forall i :: 0 <= i < |s| ==>
      multiset(r)[s[i]] == (if s[i].owner == user then multiset(s)[s[i]] else 0)
  {
    var mine := (t: Task) => t.owner == user;
    FilterCounts(s, mine);
    Filter(s, mine)
  }

  /** Toggling the same id twice restores the sequence. */
  lemma ToggleInvolution(s: seq<Task>, id: TaskId)
    ensures Toggled(Toggled(s, id), id) == s
  {
    assert forall i :: 0 <= i < |s| ==> Toggled(Toggled(s, id), id)[i] == s[i];
  }

  /** Toggling an id no task has changes nothing. */
  lemma ToggleAbsent(s: seq<Task>, id: TaskId)
    requires !HasId(s, id)
    ensures Toggled(s, id) == s
  {
    assert forall i :: 0 <= i < |s| ==> Toggled(s, id)[i] == s[i];
  }

  /** With unique ids, flipping the one task found at position `k` is the
      same as toggling its id everywhere. */
  lemma ToggleAtIndex(s: seq<Task>, k: nat)
    requires UniqueIds(s) && k < |s|
    ensures s[k := Flipped(s[k])] == Toggled(s, s[k].id)
  {
    assert forall i :: 0 <= i < |s| && i != k ==> s[i].id != s[k].id;
  }

  /** Toggling keeps every id where it was, so it keeps ids unique. */
  lemma ToggleKeepsIds(s: seq<Task>, id: TaskId)
    requires UniqueIds(s)
    ensures UniqueIds(Toggled(s, id))
  {
  }

  /** With unique ids, cutting out the task at position `k` is the same as
      removing every task with its id. */
  lemma {:induction false} RemoveAtIndex(s: seq<Task>, k: nat)
    requires UniqueIds(s) && k < |s|
    ensures s[..k] + s[k + 1..] == Without(s, s[k].id)
  {
    if k == 0 {
      RemoveHead(s);
    } else {
      UniqueTail(s);
      RemoveAtIndex(s[1..], k - 1);
      WithoutCons(s, s[k].id);
      SpliceCons(s, k);
    }
  }

  lemma WithoutCons(s: seq<Task>, id: TaskId)
    requires s != []
    ensures Without(s, id) == (if s[0].id != id then [s[0]] else []) + Without(s[1..], id)
  {
  }

  lemma SpliceCons<T>(s: seq<T>, k: nat)
    requires 0 < k < |s|
    ensures s[..k] + s[k + 1..] == [s[0]] + (s[1..][..k - 1] + s[1..][k..])
    ensures s[1..][k - 1] == s[k]
  {
  }

  lemma UniqueTail(s: seq<Task>)
    requires UniqueIds(s) && s != []
    ensures UniqueIds(s[1..])
  {
    assert forall i :: 0 <= i < |s| - 1 ==> s[1..][i] == s[i + 1];
  }

  /** With unique ids, removing the first task's id drops just that task. */
  lemma RemoveHead(s: seq<Task>)
    requires UniqueIds(s) && s != []
    ensures s[1..] == Without(s, s[0].id)
  {
    var id := s[0].id;
    assert !HasId(s[1..], id) by {
      forall i | 0 <= i < |s| - 1 ensures s[1..][i].id != id {
        assert s[1..][i] == s[i + 1];
      }
    }
    WithoutAbsent(s[1..], id);
  }

  /** After removing an id, no task with it remains. */
  lemma WithoutRemovesId(s: seq<Task>, id: TaskId)
    ensures !HasId(Without(s, id), id)
    ensures FindById(Without(s, id), id) == None
  {
  }

  /** Removing an id no task has changes nothing. */
  lemma {:induction false} WithoutAbsent(s: seq<Task>, id: TaskId)
    requires !HasId(s, id)
    ensures Without(s, id) == s
  {
    FilterKeepsAll(s, (t: Task) => t.id != id);
  }

  /** Removing by id keeps the other tasks in their order. */
  lemma {:induction false} WithoutKeepsOrder(s: seq<Task>, id: TaskId)
    ensures IsSubsequence(Without(s, id), s)
  {
    FilterIsSubsequence(s, (t: Task) => t.id != id);
  }
}
