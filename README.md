# Task tracker: server task store, profile update and the dashboard's mirror

This project models the core of a small per-user task tracker in Dafny:

- **The server's task endpoints** (`backend/controllers/taskController.js`).
  The document store's task collection is a class, `TaskCollection`, that
  holds a sequence of `Task(id, owner, title, completed)` in insertion
  order, and listing answers in that order. Create stamps the owner from the requester's id and answers 201.
  List returns the requester's tasks. Toggle (PUT) negates `completed` for
  the task with the given id, or fails with 404 "Task not found". Delete
  removes the task with that id, if there is one, and always answers "Task
  deleted". As in the code, toggle and delete do not compare the task's
  owner with the requester. Their contracts depend only on the stored
  tasks and the id, never on the requester or the request body.
  `ToggleReachesOwnerList` and `DeleteReachesOwnerList` show what follows:
  any authenticated caller changes any owner's list.
- **The server's profile endpoints** (`backend/controllers/userController.js`).
  `req.user` is a `UserDocument` object, or `null`. An update overwrites
  `name` and `email` only with truthy values, which means present and
  non-empty. Whitespace counts as truthy. It then saves and answers with
  the `{name, email}` pair. A missing user gives 404. A failed save gives
  500.
- **The dashboard** (`frontend/src/pages/Dashboard.jsx`). The class
  `DashboardState` holds `tasks`, the new-task input, the profile inputs,
  the shown `user` and the "user" record of local storage. Each handler
  takes the server's reply (`Ok(data)` or `Failed`) as a parameter and
  returns the request it sends, or `None` when it sends none. The derived
  views `filteredTasks`, `completedTasks` and `pendingTasks`, and the three
  statistics, are pure functions in `DashboardViews`.
- **Client and server together** (`MirrorSync`). Suppose the dashboard's
  list equals what GET /tasks answers the user. Then each handler's
  update, applied to the server's reply, gives the list GET /tasks would
  answer after the server's own change. For toggle and delete this holds
  exactly, as long as the store answers in the same order each time. For
  create it holds for the contents: the client puts the new task first,
  and the order the store lists it in is not promised.

Outside effects are parameters. These are the requester's id (from the
authentication middleware), the fresh document id (from the store), the
outcome of `save`, and every reply the client receives.

The model follows the code as written:

- toggle and delete perform no ownership check and never answer 403;
- deleting an id that does not exist still succeeds;
- the create handler does no title validation; the task schema is taken
  to validate nothing, so a blank title would be stored. Only the client
  refuses blank input, and it sends the input untrimmed.

## Model

| member | source | states |
|---|---|---|
| `Seqs.Filter` | frontend/src/pages/Dashboard.jsx:125-130 | Every element of the result passes the test and comes from the input, and every passing input element is in it. |
| `Seqs.FilterCount` | frontend/src/pages/Dashboard.jsx:125-130 | Each passing element occurs in the result exactly as often as in the input, and a failing one not at all. |
| `Seqs.Map` | frontend/src/pages/Dashboard.jsx:71 | Same length as the input; position `i` holds `f` of the input's element `i`. |
| `Seqs.FilterIsSubsequence` | frontend/src/pages/Dashboard.jsx:80 | Filtering keeps the survivors in their original relative order. |
| `Seqs.FilterPartition` | frontend/src/pages/Dashboard.jsx:132-133 | Filtering by a test and by its negation splits the input: the lengths add up, and so do the multisets. |
| `Seqs.FilterCommutes` | frontend/src/pages/Dashboard.jsx:80 | Two filters give the same result in either order (used to relate the client's delete to the server's). |
| `Text.IsJsWhitespace` | frontend/src/pages/Dashboard.jsx:50 | The characters `trim` strips: the WhiteSpace and LineTerminator code points of ECMA-262. Within ASCII they are exactly tab, line feed, vertical tab, form feed, carriage return and space. |
| `Text.Trim` | frontend/src/pages/Dashboard.jsx:50 | `s.trim()` neither starts nor ends with whitespace, and it is empty exactly when every character of `s` is whitespace. |
| `Text.IsBlank` | frontend/src/pages/Dashboard.jsx:50 | `!s.trim()`: the string trimmed at both ends is empty exactly when every character of it is whitespace. |
| `Text.Lower` | frontend/src/pages/Dashboard.jsx:126 | `toLowerCase` on ASCII: same length, and each character is mapped by `LowerChar`. |
| `Text.Includes` | frontend/src/pages/Dashboard.jsx:126 | `includes`: the empty needle is included in every string, and a needle longer than the haystack never is. |
| `Text.IncludesIffOccurs` | frontend/src/pages/Dashboard.jsx:126 | `includes` holds exactly when the needle occurs at some position of the haystack. |
| `TaskModel.Flipped` | backend/controllers/taskController.js:25 | `task.completed = !task.completed`: the flag is negated and id, owner and title are kept. |
| `TaskModel.FindById` | backend/controllers/taskController.js:20 | `findById`: finds the first position holding the id, and answers `None` exactly when no task has it. |
| `TaskModel.Toggled` | backend/controllers/taskController.js:25 | Toggling by id keeps length, ids, owners and titles, and negates `completed` only where the id matches. |
| `TaskModel.Without` | backend/controllers/taskController.js:32 | Removing by id leaves no task with that id, and every other task stays as often as it was stored. |
| `TaskModel.OwnedBy` | backend/controllers/taskController.js:14 | `find({ user })`: only tasks of that user, and each of that user's tasks as often as it is stored. |
| `TaskModel.ToggleInvolution` | backend/controllers/taskController.js:25 | Toggling the same id twice restores the original tasks. |
| `TaskModel.ToggleAbsent` | backend/controllers/taskController.js:20-24 | Toggling an id that no task has changes nothing. |
| `TaskModel.ToggleAtIndex` | backend/controllers/taskController.js:25-26 | With unique ids, flipping the one found document in place equals toggling its id. |
| `TaskModel.ToggleKeepsIds` | backend/controllers/taskController.js:25-26 | Toggling keeps the ids unique. |
| `TaskModel.RemoveAtIndex` | backend/controllers/taskController.js:32 | With unique ids, cutting out the found document equals removing every task with its id. |
| `TaskModel.WithoutRemovesId` | backend/controllers/taskController.js:32 | After a delete no task with that id remains, so a later lookup finds nothing. |
| `TaskModel.WithoutAbsent` | backend/controllers/taskController.js:32-33 | Deleting an id that no task has changes nothing. |
| `TaskModel.WithoutKeepsOrder` | frontend/src/pages/Dashboard.jsx:80 | Removing by id keeps the other tasks in their order. |
| `TaskController.TaskCollection.CreateTask` | backend/controllers/taskController.js:4-10 | Appends exactly one task: the fresh id, the requester as owner, the requested title, not completed. Answers 201 with it. Existing tasks are unchanged and ids stay unique. |
| `TaskController.TaskCollection.GetTasks` | backend/controllers/taskController.js:13-16 | Answers exactly the stored tasks owned by the requester, and reads only. |
| `TaskController.TaskCollection.UpdateTask` | backend/controllers/taskController.js:19-28 | Unknown id: 404 "Task not found", store unchanged. Known id: only that task's `completed` is negated, and it is returned. Neither requester nor body appears in the contract. |
| `TaskController.TaskCollection.DeleteTask` | backend/controllers/taskController.js:31-34 | Always answers "Task deleted". The store loses exactly the task with that id, or stays unchanged when there is none. The others keep their order. |
| `TaskController.CreateIsolation` | backend/controllers/taskController.js:4-16 | A task created by one user leaves every other user's list unchanged. |
| `TaskController.CreateAppendsToOwnerList` | backend/controllers/taskController.js:4-16 | The creator's list gains exactly the new task, last in insertion order. |
| `TaskController.ListKeepsStoreOrder` | backend/controllers/taskController.js:14 | A user's list is in store order. |
| `TaskController.ToggleReachesOwnerList` | backend/controllers/taskController.js:19-27 | Toggling any stored task's id changes its owner's list, whoever sends the request: there is no ownership check. |
| `TaskController.DeleteReachesOwnerList` | backend/controllers/taskController.js:31-33 | Deleting any stored task's id removes it from its owner's list, whoever sends the request. |
| `UserController.Truthy` | backend/controllers/userController.js:11 | The `if (name)` test on a string field: an absent or empty field is falsy, and every present non-empty string, whitespace-only ones included, is truthy. |
| `UserController.MergeField` | backend/controllers/userController.js:10-12 | A truthy request value replaces the field. An absent or empty value leaves it as it was. |
| `UserController.ApplyUpdate` | backend/controllers/userController.js:10-12 | Name and email are each merged on their own; all other fields are kept. |
| `UserController.UpdateIdempotent` | backend/controllers/userController.js:10-12 | Applying the same update twice gives the same user as applying it once. |
| `UserController.UpdateNeverClears` | backend/controllers/userController.js:10-12 | An update never empties a non-empty name or email. |
| `UserController.BlankFieldOverwrites` | backend/controllers/userController.js:11 | Any non-empty name that is blank after `trim` still overwrites: the server does not trim, and stores a name the dashboard would refuse. |
| `UserController.GetProfile` | backend/controllers/userController.js:1-3 | Answers the requester's own document unchanged (JSON `null` when there is none). |
| `UserController.UpdateProfile` | backend/controllers/userController.js:5-20 | No user: 404 "User not found", nothing changes. Otherwise the document becomes `ApplyUpdate` of its old record. Saved: answers the new `{name, email}`. Not saved: 500 "Server error updating profile". |
| `DashboardViews.MatchesSearch` | frontend/src/pages/Dashboard.jsx:126 | The lowered search term occurs at some position of the lowered title. |
| `DashboardViews.Keeps` | frontend/src/pages/Dashboard.jsx:125-130 | A task is kept when it matches the search and, under "completed", is done, or, under "pending", is not done; any other status adds no condition. |
| `DashboardViews.FilteredTasks` | frontend/src/pages/Dashboard.jsx:125-130 | An order-preserving subsequence of `tasks`. Every kept title contains the term, ignoring case. Under "completed" all kept tasks are completed; under "pending" none is. Every task that passes the test is kept, as often as it occurs in `tasks`. |
| `DashboardViews.CompletedTasks` | frontend/src/pages/Dashboard.jsx:132 | The completed tasks of the list, in its order, each as often as it occurs there. |
| `DashboardViews.PendingTasks` | frontend/src/pages/Dashboard.jsx:133 | The tasks of the list not done, in its order, each as often as it occurs there. |
| `DashboardViews.TotalStat` | frontend/src/pages/Dashboard.jsx:191 | The Total card is the length of the whole list, and equals the Completed card plus the Pending card. |
| `DashboardViews.CompletedStat` | frontend/src/pages/Dashboard.jsx:192 | The number of completed tasks of the whole list, not of the filtered view (the length of `CompletedTasks(tasks)`): at most its length, zero exactly when no task is done, the full length exactly when every task is. |
| `DashboardViews.PendingStat` | frontend/src/pages/Dashboard.jsx:193 | The number of pending tasks of the whole list (the length of `PendingTasks(tasks)`): at most its length, zero exactly when every task is done, the full length exactly when none is. |
| `DashboardViews.CompletedPendingPartition` | frontend/src/pages/Dashboard.jsx:132-133 | `completedTasks` and `pendingTasks` split `filteredTasks`: lengths and multisets add up, and each keeps the filtered order. |
| `DashboardViews.EmptySearchMatches` | frontend/src/pages/Dashboard.jsx:126 | The empty search term matches every title. |
| `DashboardViews.EmptySearchShowsAll` | frontend/src/pages/Dashboard.jsx:125-130 | An empty search under "all" shows exactly `tasks`. |
| `DashboardViews.EmptySearchCompleted` | frontend/src/pages/Dashboard.jsx:125-127 | An empty search under "completed" shows exactly the completed tasks, in list order. |
| `DashboardViews.OtherStatusIsAll` | frontend/src/pages/Dashboard.jsx:127-129 | A status other than "completed" or "pending" filters exactly as "all" does. |
| `DashboardViews.CompletedSearchScenario` | frontend/src/pages/Dashboard.jsx:125-130 | Take "Buy milk" (done) and "Write report" (pending). Under "completed", "milk" finds only the first and "report" finds nothing. |
| `DashboardViews.LowerFixesLowercase` | frontend/src/pages/Dashboard.jsx:126 | Lowering a string without ASCII capitals changes nothing. |
| `Dashboard.Spread` | frontend/src/pages/Dashboard.jsx:102 | `{...userData, ...data}`: the keys of both, the response's values winning, and the old values kept elsewhere. A `null` record contributes nothing. |
| `Dashboard.Replaced` | frontend/src/pages/Dashboard.jsx:71 | Replacing by id keeps the length, puts the reply at every position with that id, and keeps every other entry in place. |
| `Dashboard.DashboardState.constructor` | frontend/src/pages/Dashboard.jsx:9-21 | Initial state: no user, no tasks, empty inputs, and the record local storage holds. |
| `Dashboard.DashboardState.FetchTasks` | frontend/src/pages/Dashboard.jsx:40-47 | Success replaces `tasks` with the reply; failure keeps them. |
| `Dashboard.DashboardState.CreateTask` | frontend/src/pages/Dashboard.jsx:49-62 | Blank input: no request, nothing changes. Otherwise it sends the untrimmed input. Success puts the created task in front of the old list and clears the input. Failure changes nothing. |
| `Dashboard.DashboardState.ToggleTaskCompletion` | frontend/src/pages/Dashboard.jsx:64-75 | Sends the id with the negated flag. Success replaces every entry with that id by the reply. Failure changes nothing. |
| `Dashboard.DashboardState.DeleteTask` | frontend/src/pages/Dashboard.jsx:77-84 | Sends the delete. Success removes every entry with that id. Failure changes nothing. |
| `Dashboard.DashboardState.UpdateProfile` | frontend/src/pages/Dashboard.jsx:87-110 | A blank name or email: no request, nothing changes. Otherwise it sends both inputs. Success makes `user` the reply and stores the old record overridden by the reply. Failure changes nothing. |
| `MirrorSync.ToggleKeepsMirror` | frontend/src/pages/Dashboard.jsx:71 | If every stored task with the id is `t`: the user's list with that id replaced by toggled `t` equals the user's list of the toggled store. |
| `MirrorSync.ToggleRoundTrip` | frontend/src/pages/Dashboard.jsx:64-75 | With unique ids, the task the server's toggle answers with, put in place by the client, gives the user's list of the updated store. |
| `MirrorSync.DeleteKeepsMirror` | frontend/src/pages/Dashboard.jsx:80 | Dropping an id from the user's list equals the user's list of the store without it. |
| `MirrorSync.CreateKeepsMirrorContents` | frontend/src/pages/Dashboard.jsx:57 | After a create, the client's list, with the new task in front, holds the same tasks as the server's list of the user, whatever order the store answers in. |

## Left out

- `TaskController.TaskCollection.GetTasks`: answers in the collection's insertion order. `Task.find` without a sort promises no order, so the statements about order hold only under that assumption: `TaskController.ListKeepsStoreOrder`, `TaskController.CreateAppendsToOwnerList`, and the exact equalities of `MirrorSync.ToggleRoundTrip` and `MirrorSync.DeleteKeepsMirror`. The multiset statement of `MirrorSync.CreateKeepsMirrorContents` does not depend on it.
- Authentication (`protect` in `backend/middleware/authMiddleware.js`) is not part of this model. Its result, the requester's id or user document, is a parameter. The Express routes are wiring only.
- The document store (`Task.create`, `find`, `findById`, `save`, `findByIdAndDelete`) is modelled as a sequence held in insertion order. Document ids are supplied fresh by the caller. `models/Task` is not part of this model: the model assumes its schema defaults `completed` to false and validates nothing. It also does not model rejected creates or malformed ids (a cast error).
- How a thrown error reaches the client (the 404 of an update) depends on error-handling middleware that is not part of this model. The model returns the status and message the handler sets.
- Task documents are values. The in-place `task.completed = !task.completed` followed by `save` becomes an update of the stored sequence at that document's position.
- `UserController.UpdateProfile`: body fields that are not strings (numbers, objects) are not modelled, and neither is a missing body. On a failed save the model keeps the in-memory assignment, as the code does. What the store then holds is not modelled.
- axios, `async`/`await`, `alert`, `console` and the reads and writes of local storage are not modelled. Each reply is a parameter. `storedUser` stands for the "user" record.
- `fetchProfile` (Dashboard.jsx:28-37), which fills `user` and the profile inputs on mount, is left out. So are the `useEffect` fetch triggers, the `updating` flag, the input setters, all rendering and the `Stat` component.
- Concurrent or interleaved requests, and handlers that close over a stale `tasks`, are left out. Every handler runs to completion on the current state.
- `Text.Lower`: lowers ASCII letters only, not every Unicode letter as `toLowerCase` does, because Unicode case mapping tables are not part of this model.
