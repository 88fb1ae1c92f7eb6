/** The dashboard's component state and its action handlers
    (frontend/src/pages/Dashboard.jsx).

    Each handler sends at most one request and then updates the state from
    the server's answer. The answer is a parameter (`Reply`), and the request
    the handler would send is returned, `None` when it sends none. JSON
    objects the client keeps (the user, the record under the "user" key of
    local storage) are maps from field name to value. */
module Dashboard {
  import opened Seqs
  import opened Text
  import opened Basics
  import opened TaskModel

  type JsonObject = map<string, string>

  /** The outcome of a request: the response data, or any failure. */
  datatype Reply<T> = Ok(data: T) | Failed

  /** The requests the handlers send. */
  datatype Request =
    | ListRequest
    | CreateRequest(title: string)
    | ToggleRequest(id: TaskId, completed: bool)
    | DeleteRequest(id: TaskId)
    | ProfileRequest(name: string, email: string)

  /** `tasks.map((t) => t._id === id ? data : t)`: the list keeps its
      length, holds `data` at every position with the id, and keeps every
      other entry in place. */
  function Replaced(tasks: seq<Task>, id: TaskId, data: Task): (r: seq<Task>)
    ensures |r| == |tasks|
    ensures forall i :: 0 <= i < |tasks| && tasks[i].id == id ==> r[i] == data
    ensures forall i :: 0 <= i < |tasks| && tasks[i].id != id ==> r[i] == tasks[i]
  {
    Map(tasks, (t: Task) => if t.id == id then data else t)
  }

  /** Object spread `{...base, ...over}`: the fields of both, those of
      `over` winning. Spreading `null` contributes no field. */
  function Spread(base: Option<JsonObject>, over: JsonObject): (r: JsonObject)
    ensures forall k :: k in r <==> (base.Some? && k in base.value) || k in over
    ensures forall k :: k in over ==> r[k] == over[k]
    ensures base.Some? ==> forall k :: k in base.value && k !in over ==> r[k] == base.value[k]
  {
    (if base.Some? then base.value else map[]) + over
  }

  class DashboardState {
    /** `user`: the profile shown, `null` until it is fetched. */
    var user: Option<JsonObject>
    var tasks: seq<Task>
    /** The new-task input. */
    var newTask: string
    /** The profile form inputs. */
    var profileName: string
    var profileEmail: string
    /** The JSON record stored under the "user" key of local storage. */
    var storedUser: Option<JsonObject>

    /** The state on mount; `stored` is what local storage holds then. */
    constructor (stored: Option<JsonObject>)
      ensures user == None && tasks == [] && newTask == ""
      ensures profileName == "" && profileEmail == ""
      ensures storedUser == stored
    {
      user := None;
      tasks := [];
      newTask := "";
      profileName, profileEmail := "", "";
      storedUser := stored;
    }

    /** `fetchTasks`: replace the list with the server's, or keep it. */
    method FetchTasks(reply: Reply<seq<Task>>) returns (sent: Request)
      modifies this`tasks
      ensures sent == ListRequest
      ensures reply.Ok? ==> tasks == reply.data
      ensures reply.Failed? ==> tasks == old(tasks)
    {
      sent := ListRequest;
      if reply.Ok? {
        tasks := reply.data;
      }
    }

    /** `createTask`: nothing when the input is blank; otherwise send the
        input as it is (untrimmed) and, on success, put the created task in
        front and clear the input. */
    method CreateTask(reply: Reply<Task>) returns (sent: Option<Request>)
      modifies this`tasks, this`newTask
      ensures IsBlank(old(newTask)) ==> sent == None && tasks == old(tasks) && newTask == old(newTask)
      ensures !IsBlank(old(newTask)) ==> sent == Some(CreateRequest(old(newTask)))
      ensures !IsBlank(old(newTask)) && reply.Ok? ==>
        tasks == [reply.data] + old(tasks) && newTask == ""
      ensures !IsBlank(old(newTask)) && reply.Failed? ==>
        tasks == old(tasks) && newTask == old(newTask)
    {
      if IsBlank(newTask) {
        return None;
      }
      sent := Some(CreateRequest(newTask));
      if reply.Ok? {
        tasks := [reply.data] + tasks;
        newTask := "";
      }
    }

    /** `toggleTaskCompletion`: send the negated flag for the task's id and,
        on success, replace every entry with that id by the server's task. */
    method ToggleTaskCompletion(task: Task, reply: Reply<Task>) returns (sent: Request)
      modifies this`tasks
      ensures sent == ToggleRequest(task.id, !task.completed)
      ensures reply.Ok? ==> tasks == Replaced(old(tasks), task.id, reply.data)
      ensures reply.Failed? ==> tasks == old(tasks)
    {
      sent := ToggleRequest(task.id, !task.completed);
      if reply.Ok? {
        tasks := Replaced(tasks, task.id, reply.data);
      }
    }

    /** `deleteTask`: send the delete and, on success, drop every entry with
        that id. */
    method DeleteTask(id: TaskId, reply: Reply<string>) returns (sent: Request)
      modifies this`tasks
      ensures sent == DeleteRequest(id)
      ensures reply.Ok? ==> tasks == Without(old(tasks), id)
      ensures reply.Failed? ==> tasks == old(tasks)
    {
      sent := DeleteRequest(id);
      if reply.Ok? {
        tasks := Without(tasks, id);
      }
    }

    /** `updateProfile`: nothing when either input is blank; otherwise send
        both inputs as they are and, on success, show the response as the
        user and store the old record overridden by the response. */
    method UpdateProfile(reply: Reply<JsonObject>) returns (sent: Option<Request>)
      modifies this`user, this`storedUser
      ensures IsBlank(old(profileName)) || IsBlank(old(profileEmail)) ==>
        sent == None && user == old(user) && storedUser == old(storedUser)
      ensures !IsBlank(old(profileName)) && !IsBlank(old(profileEmail)) ==>
        sent == Some(ProfileRequest(old(profileName), old(profileEmail)))
      ensures !IsBlank(old(profileName)) && !IsBlank(old(profileEmail)) && reply.Ok? ==>
        user == Some(reply.data) && storedUser == Some(Spread(old(storedUser), reply.data))
      ensures reply.Failed? ==> user == old(user) && storedUser == old(storedUser)
    {
      if IsBlank(profileName) || IsBlank(profileEmail) {
        return None;
      }
      sent := Some(ProfileRequest(profileName, profileEmail));
      if reply.Ok? {
        user := Some(reply.data);
        storedUser := Some(Spread(storedUser, reply.data));
      }
    }
  }
}
