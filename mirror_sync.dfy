/** How the dashboard's task list follows the server's collection.

    When the list equals what GET /tasks answers the user
    (`OwnedBy(store, user)`), each handler's update, applied to the server's
    reply, gives what GET /tasks would answer after the server's own change:
    exactly for toggle and delete when the store keeps its order from one
    request to the next, and up to order for create. */
module MirrorSync {
  import opened Seqs
  import opened TaskModel
  import opened Dashboard
  import TaskController

  lemma ToggledCons(s: seq<Task>, id: TaskId)
    requires s != []
    ensures Toggled(s, id) == [if s[0].id == id then Flipped(s[0]) else s[0]] + Toggled(s[1..], id)
  {
  }

  lemma ReplacedAppend(a: seq<Task>, b: seq<Task>, id: TaskId, data: Task)
    ensures Replaced(a + b, id, data) == Replaced(a, id, data) + Replaced(b, id, data)
  {
    assert forall i :: 0 <= i < |a| ==> (a + b)[i] == a[i];
    assert forall i :: |a| <= i < |a| + |b| ==> (a + b)[i] == b[i - |a|];
  }

  /** When every stored task with the toggled id is `t`, replacing it by
      the toggled `t` in the user's list gives the user's list of the
      toggled store. */
  lemma {:induction false} ToggleKeepsMirror(s: seq<Task>, user: UserId, id: TaskId, t: Task)
    requires forall i :: 0 <= i < |s| && s[i].id == id ==> s[i] == t
    ensures Replaced(OwnedBy(s, user), id, Flipped(t)) == OwnedBy(Toggled(s, id), user)
  {
    if s != [] {
      var x := s[0];
      ToggleKeepsMirror(s[1..], user, id, t);
      var head := if x.owner == user then [x] else [];
      ReplacedAppend(head, OwnedBy(s[1..], user), id, Flipped(t));
      ToggledCons(s, id);
      var y := if x.id == id then Flipped(x) else x;
      assert OwnedBy(Toggled(s, id), user)
        == (if y.owner == user then [y] else []) + OwnedBy(Toggled(s[1..], id), user);
    }
  }

  /** The round trip of a toggle: the task UpdateTask answers with, put in
      place by the client, turns the user's list into the user's list of
      the updated store. */
  lemma ToggleRoundTrip(s: seq<Task>, user: UserId, id: TaskId)
    requires UniqueIds(s) && HasId(s, id)
    ensures var k := FindById(s, id).value;
      Replaced(OwnedBy(s, user), id, Flipped(s[k])) == OwnedBy(Toggled(s, id), user)
  {
    var k := FindById(s, id).value;
    assert forall i :: 0 <= i < |s| && s[i].id == id ==> i == k;
    ToggleKeepsMirror(s, user, id, s[k]);
  }

  /** The round trip of a delete: dropping the id from the user's list
      gives the user's list of the store without it. */
  lemma {:induction false} DeleteKeepsMirror(s: seq<Task>, user: UserId, id: TaskId)
    ensures Without(OwnedBy(s, user), id) == OwnedBy(Without(s, id), user)
  {
    FilterCommutes(s, (t: Task) => t.owner == user, (t: Task) => t.id != id);
  }

  /** The round trip of a create: the client's list, with the new task in
      front, holds the same tasks as the user's list of the extended store.
      Only the contents are compared, since `find` promises no order. */
  lemma {:induction false} CreateKeepsMirrorContents(s: seq<Task>, created: Task)
    ensures multiset([created] + OwnedBy(s, created.owner)) == multiset(OwnedBy(s + [created], created.owner))
  {
    TaskController.CreateAppendsToOwnerList(s, created);
  }
}
