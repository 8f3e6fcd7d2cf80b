# Collaboration board: a Dafny model

This project models the core of a small collaborative task board. On the server, an Express
application keeps its data in MongoDB: users belong to workspaces with a role (OWNER, MEMBER
or VIEWER), workspaces hold boards, and boards hold tasks. Every change to a task is
recorded as an activity event and pushed to the workspace's socket room. The React client
keeps a list of workspaces and an active workspace, shows each board's tasks in three
status columns with search and filters, and keeps a notification inbox fed by socket
events.

The model has these parts:

- **Values.** Each stored entity (`TaskModel`, `WorkspaceModel`, `BoardModel`,
  `ActivityModel`) is a datatype. Its schema's validation, trimming and defaults become a
  `Make…` function that returns a `Result`.
- **The database.** `Store.Db` is a class whose fields are the collections plus one
  monotone clock. Object ids and `createdAt` timestamps come from that clock.
- **Middleware.** `Auth` and `WorkspaceAccess` model the Express middleware. Each is a pure
  step (`Pass` or `Halt` with a reply) plus a method that writes the request fields, as the
  middleware does.
- **Routes.** `Guards` and the `…Routes` modules model the route tables as chains of those
  steps.
- **Controllers.** Each handler in `…Controller` is a pure transition (`…Tx`) on a snapshot
  of the database, plus a method on `Db` that performs the same writes in the source's
  order. The method's `ensures` ties the two together.
- **Sockets.** `Realtime` models the socket handshake, the personal room and
  `join-workspace` as a `Socket` class.
- **Client.** `ApiClient`, `WorkspaceProvider`, `LegacyProvider`, `BoardsView`,
  `BoardsPage`, `Notifications` and `NotificationsPage` model the client: the request
  interceptor, the two versions of the workspace context, the board page's derived views and
  handlers, and the two notification screens. Each stateful screen is a class whose fields
  are its state hooks. Each handler is a method whose new state is a pure step function of
  the old state and of the server's answer. That answer is a parameter, because the network
  is not modelled.
- **Helpers.** `Splice` holds the array move that reorders boards, proved against a
  sequence specification. `Text` holds the string helpers: trim, split, lower-case and
  substring search.

`updateTask` and `archiveTask` (`server/src/controllers/taskController.js:41-101`) look the
task up by its id alone; the workspace in the URL only gates access through the route's
middleware. `TaskController.UpdateIgnoresWorkspace` and `TaskController.ArchiveIgnoresWorkspace`
state that the workspace in the URL has no effect on which task changes.

A few things are parameters of the model:

- A failing database query is a `dbOk` flag in the three handlers that catch it:
  `getUserWorkspaces`, `getActivityFeed` and the socket's `join-workspace` handler. The
  other handlers have no failure input (see "## Left out").
- JWT verification is a `Verifier` function.
- A client request's result is an `Option` or a `FetchResult`.
- A timestamp is a natural number.
- Browser storage is a ghost field kept in step by `Valid()`. `WorkspaceContext.jsx` uses
  session storage and `WorkspaceContext.js` uses local storage.

## Model

| member | source | states |
|---|---|---|
| Text.Trim | server/src/models/Task.js:12-16 | the trimmed string is no longer than the input and neither starts nor ends with white space |
| Text.TrimIsSlice | server/src/models/Task.js:12-16 | the trimmed string is the input with a run of white space cut from each end and nothing else |
| Text.TrimIdempotent | server/src/models/Task.js:12-16 | trimming twice gives the same as trimming once |
| Text.TrimEmptyIff | server/src/models/Workspace.js:21-25 | a string trims to empty exactly when every character is white space, which is when a required trimmed field fails |
| Text.SpaceRunEnd | server/src/models/Task.js:15 | the scan stops at the first character that is not white space, and every character it skipped is white space |
| Text.SpaceRunStart | server/src/models/Task.js:15 | the backward scan stops after the last character that is not white space, and every character it skipped is white space |
| Text.Split | server/src/middleware/authMiddleware.js:13 | `split` always yields at least one field, and no field contains the separator |
| Text.JoinSplit | server/src/middleware/authMiddleware.js:13 | joining the fields of a split with the separator gives back the original string |
| Text.SplitNoSeparator | server/src/middleware/authMiddleware.js:13 | a string without the separator splits into itself alone |
| Text.SplitFirstField | server/src/middleware/authMiddleware.js:13 | a first field without the separator is split off whole, and the rest is split the same way |
| Text.ToLower | client/src/pages/Boards.jsx:751-754 | lower-casing keeps the length and maps each character by itself |
| Text.ContainsIff | client/src/pages/Boards.jsx:751-754 | `includes` holds exactly when the needle occurs at some position of the text |
| Text.ContainsEmpty | client/src/pages/Boards.jsx:751-754 | every text includes the empty string |
| Text.Digits | server/src/models/Task.js:50 | the decimal rendering of a clock value, used as an object id, is non-empty and made only of digits |
| Text.DigitsInjective | server/src/models/Task.js:50 | different clock values render as different ids, so created documents never share an id |
| TaskModel.ParsePriority | server/src/models/Task.js:18-22 | exactly LOW, MEDIUM and HIGH are accepted, and each parses back to its own name |
| TaskModel.ParseStatus | server/src/models/Task.js:39-43 | exactly TODO, DOING and DONE are accepted, and each parses back to its own name |
| TaskModel.MakeTask | server/src/models/Task.js:3-51 | creation succeeds exactly when a title is given that is not blank after trimming and any priority given is in the enum; a missing title is the `title` validation error; a created task has the given board, the trimmed title, the given priority or MEDIUM, the given description or the empty one, status TODO, no assignees, health 100, and is not archived |
| TaskModel.MadeTitleTrimmed | server/src/models/Task.js:12-16 | a created task's title is non-empty and trimming it again changes nothing, so the stored title is already trimmed |
| WorkspaceModel.ParseRole | server/src/models/Workspace.js:10-14 | exactly OWNER, MEMBER and VIEWER are accepted, and each parses back to its own name |
| WorkspaceModel.MakeWorkspace | server/src/models/Workspace.js:19-37 | creation succeeds exactly when there is a non-blank name and an owner; the document has the trimmed name, that owner, and the given members or the empty list |
| ActivityModel.ParseEventType | server/src/models/ActivityEvent.js:19-29 | exactly the five event type names are accepted, and each parses back to its own name |
| ActivityModel.MakeEvent | server/src/models/ActivityEvent.js:4-41 | the event carries the given fields, and its metadata defaults to the empty object |
| BoardModel.MakeBoard | server/src/models/Board.js:2-23 | creation succeeds exactly when a name is given that is not blank after trimming; the board has the trimmed name and the given order |
| BoardModel.BoardsOf | server/src/controllers/boardController.js:24 | the query `{ workspaceId }` returns exactly the boards of that workspace |
| BoardModel.CountInIsQueryLength | server/src/controllers/boardController.js:9 | `countDocuments({ workspaceId })` equals the length of the query's result |
| Store.DenseAppend | server/src/controllers/boardController.js:9-15 | appending a board whose order is the current count of its workspace keeps every board's order equal to the number of earlier boards in that workspace |
| Store.DenseIndices | server/src/controllers/boardController.js:9-15 | under that invariant, the k-th board of a workspace has order k |
| Auth.HeaderToken | server/src/middleware/authMiddleware.js:9-15 | a token is extracted exactly when the header starts with "Bearer" and contains a space; it is then the second space-separated field |
| Auth.FirstSpace | server/src/middleware/authMiddleware.js:13 | the index of the first space of a header that has one |
| Auth.SplitSecond | server/src/middleware/authMiddleware.js:13 | `split(" ")` has a second field exactly when there is a space, and that field is the text between the first and the second space |
| Auth.Authenticate | server/src/middleware/authMiddleware.js:17-43 | every rejection is a 401; "no token" exactly when the token is missing or empty; "token failed" exactly when a token is present and verification fails; "User not found" exactly when the verified claims name no user or a user that does not exist; the caller is authenticated exactly when the verified claims name an existing user, and then that user is the caller |
| Auth.ProtectStep | server/src/middleware/authMiddleware.js:9-43 | the corrected guard (see Findings): it passes exactly the authenticated callers, with the user recorded on the request and nothing else changed, and halts everyone else with `Authenticate`'s 401 reply |
| Auth.ProtectAsWritten | server/src/middleware/authMiddleware.js:9-20 | the middleware as written throws exactly on a header that starts with "Bearer" and has no space, and otherwise decides like the corrected guard |
| Auth.BareBearerThrows | server/src/middleware/authMiddleware.js:14 | the header `Bearer` alone makes the logging line dereference an undefined token |
| Auth.BareBearerRejected | server/src/middleware/authMiddleware.js:17-20 | with the logging guarded, the header `Bearer` alone gets the 401 "no token" reply |
| Auth.DoubleSpaceHasNoToken | server/src/middleware/authMiddleware.js:13-19 | `Bearer  x`, with two spaces, yields the empty second field, so it is rejected as having no token |
| Auth.Protect | server/src/middleware/authMiddleware.js:4-44 | when the request is admitted it carries the authenticated user and nothing is answered; otherwise the 401 reply is answered and the request is untouched; for a "Bearer" header without a space this is the corrected behaviour, the code as written throws |
| WorkspaceAccess.FindWorkspace | server/src/middleware/workspaceMiddleware.js:8 | a workspace is found exactly when one has that id, and the one found has that id |
| WorkspaceAccess.FirstMember | server/src/middleware/workspaceMiddleware.js:16-18 | `members.find` returns the first entry with the caller's id, and none when no entry has it |
| WorkspaceAccess.MemberStep | server/src/middleware/workspaceMiddleware.js:3-30 | 404 exactly when the workspace does not exist; 403 exactly when it exists and the caller is not a member; otherwise the request passes carrying the workspace and the first matching member's role, with nothing else changed |
| WorkspaceAccess.RoleStep | server/src/middleware/workspaceMiddleware.js:32-39 | the request passes unchanged exactly when its role is among the allowed ones, and is otherwise answered 403 "insufficient permissions" |
| WorkspaceAccess.RequireWorkspaceMember | server/src/middleware/workspaceMiddleware.js:3-30 | the method writes the request fields and answers exactly as the membership step decides |
| WorkspaceAccess.RequireRole | server/src/middleware/workspaceMiddleware.js:32-39 | the method lets the request through exactly when its role is allowed, and otherwise answers 403 |
| Guards.EditChainDecision | server/src/routes/taskRoutes.js:34-40 | protect, membership and `requireRole("OWNER", "MEMBER")` together reject with 401, 404, 403 or 403 in that order of precedence, and otherwise pass the admitted request (with the corrected `protect`, `Auth.ProtectStep`) |
| Guards.ReadChainDecision | server/src/routes/taskRoutes.js:27-32 | protect plus membership rejects an unauthenticated caller with 401, an unknown workspace with 404, a non-member with 403, and admits every member whatever the role (with the corrected `protect`, `Auth.ProtectStep`) |
| Guards.AuthChainDecision | server/src/routes/workspaceRoutes.js:13-15 | protect alone rejects exactly the callers that `protect` rejects, and otherwise passes them as the authenticated user (with the corrected `protect`, `Auth.ProtectStep`) |
| Guards.ProtectFirstIgnoresWorkspaces | server/src/middleware/authMiddleware.js:17-43 | an unauthenticated request is answered 401 by any chain that starts with protect, whatever workspaces exist (with the corrected `protect`, `Auth.ProtectStep`) |
| ActivityLog.RecordEvent | server/src/utils/createActivityEvent.js:4-21 | one event with the given fields (metadata defaulting to empty) is appended and emitted to the workspace's room as `activity-event`; nothing else is stored |
| ActivityLog.RecordEventConsistent | server/src/utils/createActivityEvent.js:12-18 | recording an event keeps the database's ids unique and its timestamps below the clock |
| ActivityLog.CreateActivityEvent | server/src/utils/createActivityEvent.js:4-21 | the method's writes are exactly `RecordEvent` |
| TaskController.GetTasks | server/src/controllers/taskController.js:30-39 | the list holds exactly the board's tasks that are not archived, each once, newest first |
| TaskController.FindTask | server/src/controllers/taskController.js:44 | the first task with that id, or -1 when none has it |
| TaskController.CreateTaskTx | server/src/controllers/taskController.js:5-28 | an invalid task changes nothing and the handler throws; a valid one is stored, answered 201, and logged as TASK_CREATED with its title, and the event is emitted to the workspace; nothing else changes |
| TaskController.ApplyPatch | server/src/controllers/taskController.js:52-56 | every field named in the body is replaced (the title trimmed) and every other field, the id and the creation time are kept |
| TaskController.ApplyPatchIdempotent | server/src/controllers/taskController.js:52-56 | applying the same update body twice gives the same task as applying it once |
| TaskController.UpdateTaskTx | server/src/controllers/taskController.js:41-75 | an unknown id is answered 404 and changes nothing; otherwise the task is replaced by the patched one and answered 200; a TASK_MOVED event with the old and new status is logged and emitted exactly when the body names a status different from the stored one |
| TaskController.ArchiveTaskTx | server/src/controllers/taskController.js:77-101 | an unknown id is answered 404 and changes nothing; otherwise the task is marked archived, answered 200, and logged as TASK_ARCHIVED with its title |
| TaskController.CreateTask | server/src/controllers/taskController.js:5-28 | the handler's writes and answer are exactly `CreateTaskTx` |
| TaskController.UpdateTask | server/src/controllers/taskController.js:41-75 | the handler's writes and answer are exactly `UpdateTaskTx` |
| TaskController.ArchiveTask | server/src/controllers/taskController.js:77-101 | the handler's writes and answer are exactly `ArchiveTaskTx` |
| TaskController.CreateTaskConsistent | server/src/controllers/taskController.js:9-25 | creating a task keeps ids unique and timestamps below the clock |
| TaskController.UpdateTaskConsistent | server/src/controllers/taskController.js:52-71 | updating a task keeps ids unique and timestamps below the clock |
| TaskController.ArchiveTaskConsistent | server/src/controllers/taskController.js:80-98 | archiving a task keeps ids unique and timestamps below the clock |
| TaskController.CreatedTaskListedFirst | server/src/controllers/taskController.js:5-39 | a task just created is the first entry of its board's list |
| TaskController.ArchivedTaskHidden | server/src/controllers/taskController.js:77-88 | after archiving, the task appears in no board's list |
| TaskController.UpdateIgnoresWorkspace | server/src/controllers/taskController.js:41-56 | the workspace in the URL does not affect which task an update changes or what is answered |
| TaskController.ArchiveIgnoresWorkspace | server/src/controllers/taskController.js:77-88 | the workspace in the URL does not affect which task is archived or what is answered |
| BoardController.GetBoards | server/src/controllers/boardController.js:21-27 | the list holds exactly the workspace's boards, each as often as stored, in ascending order |
| BoardController.CreateBoardTx | server/src/controllers/boardController.js:4-19 | a missing or blank name changes nothing and the handler throws; otherwise a board with the trimmed name and order equal to the workspace's board count is stored and answered 201 |
| BoardController.CreateBoard | server/src/controllers/boardController.js:4-19 | the handler's writes and answer are exactly `CreateBoardTx` |
| BoardController.CreateBoardConsistent | server/src/controllers/boardController.js:9-15 | creating a board keeps ids unique, timestamps below the clock, and orders dense per workspace |
| BoardController.CreateBoardLeavesOthers | server/src/controllers/boardController.js:9-15 | creating a board leaves every other workspace's boards as they were |
| BoardController.BoardOrdersDense | server/src/controllers/boardController.js:9-24 | the boards of a workspace have orders 0, 1, 2, … in creation order, and that is the order the listing returns |
| WorkspaceController.GetUserWorkspaces | server/src/controllers/workspaceController.js:3-18 | a database failure is answered 500; otherwise the list holds exactly the workspaces that have the caller among their members |
| WorkspaceController.CreateWorkspaceTx | server/src/controllers/workspaceController.js:20-32 | a missing or blank name changes nothing and the handler throws; otherwise a workspace with the trimmed name, owned by the caller, with the caller as the sole OWNER member, is stored and answered 201 |
| WorkspaceController.CreateWorkspace | server/src/controllers/workspaceController.js:20-32 | the handler's writes and answer are exactly `CreateWorkspaceTx` |
| WorkspaceController.CreatedWorkspaceSoleOwner | server/src/controllers/workspaceController.js:26-29 | the new workspace's only OWNER entry is the caller, who is also its owner |
| WorkspaceController.CreatedWorkspaceListed | server/src/controllers/workspaceController.js:3-32 | a workspace just created appears in its creator's workspace list |
| WorkspaceController.CreateWorkspaceConsistent | server/src/controllers/workspaceController.js:24-29 | creating a workspace keeps ids unique and timestamps below the clock |
| ActivityController.FeedOrder | server/src/controllers/activityController.js:7-10 | the workspace's events, each as often as stored, newest first |
| ActivityController.GetActivityFeed | server/src/controllers/activityController.js:3-17 | a database failure is answered 500; otherwise at most fifty of the workspace's events are answered, newest first, and they are the newest ones |
| ActivityController.FeedHoldsNewest | server/src/controllers/activityController.js:7-10 | an event of the workspace left out of the feed means the feed is full and every event in it is at least as new |
| ActivityController.SmallFeedComplete | server/src/controllers/activityController.js:7-10 | a workspace with at most fifty events gets all of them |
| BoardRoutes.Chain | server/src/routes/boardRoutes.js:9-30 | creating and reordering boards need an editor role; listing needs only membership |
| BoardRoutes.ChainDecision | server/src/routes/boardRoutes.js:9-30 | each board route's middleware decides as the edit or the read decision for its kind |
| BoardRoutes.ViewerCannotMutate | server/src/routes/boardRoutes.js:9-15 | a VIEWER's board mutation is answered 403 and changes nothing |
| BoardRoutes.OnlyEditorsChangeBoards | server/src/routes/boardRoutes.js:9-30 | any change to the database through a board route comes from a mutating route (create or reorder) and a caller admitted as OWNER or MEMBER of the path's workspace, whatever the reorder handler writes |
| BoardRoutes.MembersMayListBoards | server/src/routes/boardRoutes.js:17-22 | every admitted member, VIEWER included, gets the workspace's boards |
| BoardRoutes.UnauthenticatedRejected | server/src/routes/boardRoutes.js:9-30 | an unauthenticated request to any board route is answered 401 and changes nothing (with the corrected `protect`, `Auth.ProtectStep`) |
| TaskRoutes.Chain | server/src/routes/taskRoutes.js:19-71 | creating, updating, archiving and assigning tasks and posting comments need an editor role; the listings need only membership |
| TaskRoutes.ChainDecision | server/src/routes/taskRoutes.js:19-71 | each task route's middleware decides as the edit or the read decision for its kind |
| TaskRoutes.ViewerCannotMutate | server/src/routes/taskRoutes.js:19-48 | a VIEWER's task mutation is answered 403 and changes nothing |
| TaskRoutes.OnlyEditorsChangeTasks | server/src/routes/taskRoutes.js:19-48 | any change to the database through a task route comes from a mutating route and an admitted OWNER or MEMBER |
| TaskRoutes.UnauthenticatedRejected | server/src/routes/taskRoutes.js:19-71 | an unauthenticated request to any task route is answered 401 and changes nothing (with the corrected `protect`, `Auth.ProtectStep`) |
| TaskRoutes.NonMemberDenied | server/src/routes/taskRoutes.js:19-71 | a caller who is not a member of the workspace is answered 403 and changes nothing |
| TaskRoutes.MembersMayListTasks | server/src/routes/taskRoutes.js:27-32 | every admitted member, VIEWER included, gets the board's open tasks |
| WorkspaceRoutes.AnyCallerMayCreate | server/src/routes/workspaceRoutes.js:15 | any authenticated caller may create a workspace, and the creation is `CreateWorkspaceTx` for that caller |
| WorkspaceRoutes.AnyCallerMayList | server/src/routes/workspaceRoutes.js:13 | any authenticated caller gets their own workspace list and nothing changes |
| WorkspaceRoutes.ReadReturnsLoadedWorkspace | server/src/routes/workspaceRoutes.js:17-24 | an admitted member gets the workspace the membership check loaded; a non-member gets 403 |
| ActivityRoutes.FeedDecision | server/src/routes/activityRoutes.js:9-14 | the feed route answers 401, 404 or 403 as the membership chain decides, and otherwise the feed, to every member whatever the role (with the corrected `protect`, `Auth.ProtectStep`) |
| Realtime.Authorize | server/server.js:24-38 | the handshake is refused "token missing" exactly when the token is falsy, "invalid" exactly when verification fails, and accepted otherwise with the token's user id |
| Realtime.ConnectStep | server/server.js:40-43 | an accepted socket joins its user's personal room and starts listening; nothing else changes |
| Realtime.JoinOutcomes | server/server.js:48-78 | a falsy id does nothing; a database failure or an unknown workspace sends its join-error; only a member of an existing workspace gets join-success and the workspace's room, and no failure joins a room |
| Realtime.JoinKeepsRoomsAuthorized | server/server.js:40-78 | a socket is only ever in its personal room and the rooms of workspaces its user is a member of |
| Realtime.Socket.constructor | server/server.js:24-38 | an accepted handshake gives a socket of that user, in no room, that has sent nothing and is not yet listening |
| Realtime.Socket.Connect | server/server.js:40-43 | the method's effect on the socket is `ConnectStep` |
| Realtime.Socket.JoinWorkspace | server/server.js:48-78 | the method's effect on the socket is `JoinStep` |
| ApiClient.Intercept | client/src/api/axios.js:7-19 | a truthy stored token sets the `Authorization` header to `Bearer <token>` and changes no other header; without one the headers are unchanged; the same config object is returned |
| ApiClient.BearerRoundTrip | client/src/api/axios.js:11 | the server's `protect` extracts exactly the token the client sent, for every non-empty token without a space |
| ApiClient.SpacedTokenTruncated | client/src/api/axios.js:11 | a token with a space arrives truncated at that space |
| WorkspaceProvider.ActiveWorkspace | client/src/state/WorkspaceContext.jsx:93-95 | the active workspace is found exactly when some listed workspace has the active id, and it is that workspace |
| WorkspaceProvider.AddStepSpec | client/src/state/WorkspaceContext.jsx:17-21 | adding a workspace appends it to the list and makes it the active one |
| WorkspaceProvider.RefreshLoaded | client/src/state/WorkspaceContext.jsx:24-55 | a successful refresh shows the fetched list; a single workspace becomes active; otherwise an active id no longer listed is dropped and any other kept; afterwards every non-empty active id is listed |
| WorkspaceProvider.RefreshFailed | client/src/state/WorkspaceContext.jsx:43-54 | a 403 reports the access error and clears the active id; any other failure reports the load error and keeps it; the list is kept |
| WorkspaceProvider.RefreshActiveIsUsers | client/src/state/WorkspaceContext.jsx:24-55 | refreshing from the server's listing leaves active only a workspace the signed-in user is a member of |
| WorkspaceProvider.SignedOutStep | client/src/state/WorkspaceContext.jsx:57-66 | without a token or a user the list is emptied, nothing is active and loading stops |
| WorkspaceProvider.Provider.constructor | client/src/state/WorkspaceContext.jsx:11-13 | the provider starts loading, with an empty list and the non-empty stored id as active |
| WorkspaceProvider.Provider.AddWorkspace | client/src/state/WorkspaceContext.jsx:17-21 | the new state is `AddStep`, and the session storage entry mirrors the active id |
| WorkspaceProvider.Provider.RefreshWorkspaces | client/src/state/WorkspaceContext.jsx:24-55 | the new state is `RefreshStep` of the fetch result, and the storage entry mirrors the active id |
| WorkspaceProvider.Provider.OnSession | client/src/state/WorkspaceContext.jsx:57-66 | signing out gives `SignedOutStep`; a session with token and user refreshes the list |
| WorkspaceProvider.Provider.SelectWorkspace | client/src/state/WorkspaceContext.jsx:97-99 | only the active id changes, and the storage entry follows it |
| WorkspaceProvider.Provider.ClearWorkspace | client/src/state/WorkspaceContext.jsx:111 | the active id is cleared, and so is the storage entry |
| LegacyProvider.FinishStepSpec | client/src/state/WorkspaceContext.js:17-37 | after unmounting, a late answer changes nothing; a loaded answer shows its list, stops loading, and picks the only workspace when there is exactly one, otherwise keeps the active id; a failure reports the load error |
| LegacyProvider.StaleIdKept | client/src/state/WorkspaceContext.js:22-36 | this version keeps an active id that the fetched list no longer contains, which then names no workspace, where the session-storage version clears it |
| LegacyProvider.Provider.constructor | client/src/state/WorkspaceContext.js:8-15 | mounting starts loading with the non-empty id from local storage as active |
| LegacyProvider.Provider.BeginFetch | client/src/state/WorkspaceContext.js:19 | only the loading flag is set |
| LegacyProvider.Provider.FinishFetch | client/src/state/WorkspaceContext.js:22-36 | the new state is `FinishStep`, and local storage mirrors the active id |
| LegacyProvider.Provider.Unmount | client/src/state/WorkspaceContext.js:41-43 | only the mounted flag is cleared |
| LegacyProvider.Provider.SelectWorkspace | client/src/state/WorkspaceContext.js:58-60 | only the active id changes, and local storage follows it |
| LegacyProvider.Provider.ClearWorkspace | client/src/state/WorkspaceContext.js:69 | the active id is cleared, and so is the storage entry |
| BoardsView.CurrentUserRole | client/src/pages/Boards.jsx:42-48 | a role is reported only when it is a non-empty string |
| BoardsView.CanEditIff | client/src/pages/Boards.jsx:42-50 | the user may edit exactly when the first member entry with their id names a non-empty role other than VIEWER |
| BoardsView.ClientRoleIsServerRole | client/src/pages/Boards.jsx:42-48 | on the stored member list, the page reads the name of the role the server's membership check attaches |
| BoardsView.CanEditAgreesWithServer | client/src/pages/Boards.jsx:50 | the page offers editing exactly when `requireRole("OWNER", "MEMBER")` would admit the same user |
| BoardsView.ColumnTasks | client/src/pages/Boards.jsx:747-749 | a column holds exactly the tasks whose status, defaulting to TODO, is that column |
| BoardsView.ExactlyOneColumn | client/src/pages/Boards.jsx:747-749 | a task whose status is one of the three columns appears in exactly that column |
| BoardsView.IndexOfColumn | client/src/pages/Boards.jsx:20 | the position of a column's name among the three columns |
| BoardsView.IsColumn | client/src/pages/Boards.jsx:20 | a status is a column exactly when it is TODO, DOING or DONE |
| BoardsView.ColumnsPartition | client/src/pages/Boards.jsx:747-749 | the three columns together hold every task exactly once, when every status is a column |
| BoardsView.ColumnsUnionCons | client/src/pages/Boards.jsx:747-749 | the columns of a list are the first task's column plus the columns of the rest |
| BoardsView.ColumnTasksCons | client/src/pages/Boards.jsx:747-749 | a column of a list is the first task, if it is in that column, plus the column of the rest |
| BoardsView.PassesFilterIff | client/src/pages/Boards.jsx:751-771 | the filter with its early returns keeps a task exactly when the title matches the trimmed lower-cased query, the priority (default MEDIUM) matches, and the assignee condition holds |
| BoardsView.BlankQueryMatchesAll | client/src/pages/Boards.jsx:751-754 | a query made only of white space matches every title |
| BoardsView.FilteredTasks | client/src/pages/Boards.jsx:747-771 | a column's shown tasks are exactly the tasks in that column that pass all three filters |
| BoardsView.DescribeFallbackIff | client/src/pages/Boards.jsx:569-584 | an entry is shown as "Activity update" exactly when it has no type or an unknown one |
| BoardsView.DescribeLoggedMove | client/src/pages/Boards.jsx:569-584 | a move logged by `updateTask` is described as "Moved <from> -> <to>" with the logged statuses |
| BoardsView.DescribeLoggedCreate | client/src/pages/Boards.jsx:569-584 | a creation logged by `createTask` is described as "Created task" |
| Splice.RemoveAt | client/src/pages/Boards.jsx:194 | `splice(i, 1)` removes exactly position i and shifts the rest down |
| Splice.InsertAt | client/src/pages/Boards.jsx:195 | `splice(j, 0, x)` puts x at position j and shifts the rest up |
| Splice.Moved | client/src/pages/Boards.jsx:193-195 | moving keeps the length |
| Splice.MovedAt | client/src/pages/Boards.jsx:193-195 | after the move, position `to` holds the moved element; positions between the two indices hold their neighbour; every other position is unchanged |
| Splice.MovedPermutes | client/src/pages/Boards.jsx:193-195 | moving permutes the list |
| Splice.MovedKeepsOthersInOrder | client/src/pages/Boards.jsx:193-195 | the moved element lands at the target index, and the other elements keep their relative order |
| Splice.MovedInverse | client/src/pages/Boards.jsx:193-195 | moving the element back from the target index restores the list |
| Splice.SpliceMove | client/src/pages/Boards.jsx:193-195 | the in-place array move leaves exactly `Moved` of the old contents |
| BoardsPage.BoardIds | client/src/pages/Boards.jsx:199-201 | `orderedIds` lists the boards' ids in order, one per board |
| BoardsPage.ReorderStepSpec | client/src/pages/Boards.jsx:186-205 | without editing rights, with an unknown id, or with equal indices nothing changes; otherwise the boards are permuted, the source lands at the target's index, the others keep their order, the new id order is sent, a failed request sets "Failed to reorder boards" and keeps the moved list, and nothing else changes |
| BoardsPage.ReorderBack | client/src/pages/Boards.jsx:186-205 | dragging the board back restores the previous order |
| BoardsPage.CreateTaskAppends | client/src/pages/Boards.jsx:160-184 | the created task ends its board's list after all earlier ones, and no other board's list changes |
| BoardsPage.ReplaceById | client/src/pages/Boards.jsx:241-246 | mapping by id keeps the length, puts the replacement at every position of that id, and keeps every other position |
| BoardsPage.ReplaceByIdIdempotent | client/src/pages/Boards.jsx:241-246 | replacing a task by the same copy twice equals doing it once |
| BoardsPage.ReplaceStepSpec | client/src/pages/Boards.jsx:267-305 | a successful update puts the server's copy at that task's positions on its board and leaves everything else; a failure only sets the error |
| BoardsPage.ArchiveStepSpec | client/src/pages/Boards.jsx:253-265 | after archiving, the board holds no task with that id, only tasks it held before, and all its other tasks; other boards are untouched |
| BoardsPage.AddAttachmentKeepsUrlsFilled | client/src/pages/Boards.jsx:359-368 | no attachment in the draft ever has a blank URL |
| BoardsPage.RemoveUndoesAdd | client/src/pages/Boards.jsx:359-375 | removing the URL just added, when no other attachment has it, gives back the earlier list |
| BoardsPage.RemoveAttachmentSpec | client/src/pages/Boards.jsx:370-375 | after removal no attachment has that URL, every one left was there before, and every other one is still there |
| BoardsPage.Page.constructor | client/src/pages/Boards.jsx:22-40 | the page starts with no boards, tasks, drafts, attachments or error |
| BoardsPage.Page.ReorderBoards | client/src/pages/Boards.jsx:186-205 | the new page state is `ReorderStep` for the request's outcome `ok`, computed with the in-place array move on a copy |
| BoardsPage.Page.CreateBoard | client/src/pages/Boards.jsx:144-158 | the new page state is `CreateBoardStep` of the server's answer |
| BoardsPage.Page.CreateTask | client/src/pages/Boards.jsx:160-184 | the new page state is `CreateTaskStep` of the server's answer |
| BoardsPage.Page.Replace | client/src/pages/Boards.jsx:241-246 | the new page state is `ReplaceStep` of the server's answer |
| BoardsPage.Page.UpdateField | client/src/pages/Boards.jsx:267-305 | the new page state is `UpdateFieldStep`, for priority, status and assignment changes |
| BoardsPage.Page.SaveTaskTitle | client/src/pages/Boards.jsx:230-251 | the new page state is `SaveTitleStep`; a blank title changes nothing |
| BoardsPage.Page.SaveTaskModal | client/src/pages/Boards.jsx:334-357 | the new page state is `SaveModalStep` of the selected task and the answer: the task replaced and the modal's attachment inputs cleared on success, the error on failure |
| BoardsPage.SaveModalStepSpec | client/src/pages/Boards.jsx:325-357 | on success every copy of the task in its board's list is the server's answer, other tasks and boards are unchanged, and the attachment URL and label inputs are cleared; on failure only "Failed to update task" is set |
| BoardsPage.Page.ArchiveTask | client/src/pages/Boards.jsx:253-265 | the new page state is `ArchiveStep` of the server's answer |
| BoardsPage.Page.AddAttachment | client/src/pages/Boards.jsx:359-368 | the new page state is `AddAttachmentStep` |
| BoardsPage.Page.RemoveAttachment | client/src/pages/Boards.jsx:370-375 | the new page state is `RemoveAttachmentStep` |
| Notifications.Prepend | client/src/pages/NotificationCenter.jsx:42 | the new item is first, followed by the earlier items, newest first, and at most fifty are kept |
| Notifications.ActivityMessageFallbackIff | client/src/pages/NotificationCenter.jsx:45-84 | the generic "Activity update" message is used exactly when the event has no type or an unknown one |
| Notifications.OnActivitySpec | client/src/pages/NotificationCenter.jsx:45-84 | an event without a type, or reporting the user's own assignment, is dropped; any other becomes the first item, unread, of its type and with its message, in front of the earlier items |
| Notifications.OnAssignedSpec | client/src/pages/NotificationCenter.jsx:33-43 | a payload without a title is dropped; any other becomes the first item, unread, of type TASK_ASSIGNED with "You were assigned: <title>" |
| Notifications.MovedEventMessage | client/src/pages/NotificationCenter.jsx:45-84 | a TASK_MOVED event with both statuses reads "Task moved: <from> → <to>" |
| Notifications.CreatedEventMessage | client/src/pages/NotificationCenter.jsx:45-84 | a TASK_CREATED event with a title reads "Task created: <title>" |
| Notifications.UnreadCountIsCount | client/src/pages/NotificationCenter.jsx:116-119 | the badge is the number of unread items |
| Notifications.FilterItems | client/src/pages/NotificationCenter.jsx:121-124 | the ALL tab shows every item; any other tab shows exactly the items of that type |
| Notifications.MarkAllReadSpec | client/src/pages/NotificationCenter.jsx:126-128 | every item is kept and marked read, the badge drops to zero, and doing it twice is the same as once |
| Notifications.AllReadCountsZero | client/src/pages/NotificationCenter.jsx:116-119 | a list where every item is read counts no unread item |
| Notifications.MarkReadSpec | client/src/pages/NotificationCenter.jsx:134-138 | only the items with that id are marked read, every other item is kept, and the badge never grows |
| Notifications.CountUnreadPointwise | client/src/pages/NotificationCenter.jsx:116-119 | reading items can only lower the unread count |
| Notifications.FormatTimeAgoBuckets | client/src/pages/NotificationCenter.jsx:12-24 | under a minute is "just now"; then whole minutes, hours and days with their suffixes |
| Notifications.Center.constructor | client/src/pages/NotificationCenter.jsx:7-9 | the center starts with no items and the ALL tab |
| Notifications.Center.HandleAssigned | client/src/pages/NotificationCenter.jsx:33-43 | the items become `OnAssigned` of the old items; the tab is kept |
| Notifications.Center.HandleActivity | client/src/pages/NotificationCenter.jsx:45-84 | the items become `OnActivity` of the old items; the tab is kept |
| Notifications.Center.LoadFromStorage | client/src/pages/NotificationCenter.jsx:94-106 | a stored array replaces the items; anything unreadable leaves them as they were |
| Notifications.Center.SetFilter | client/src/pages/NotificationCenter.jsx:212 | only the tab changes |
| Notifications.Center.MarkAllItemsRead | client/src/pages/NotificationCenter.jsx:126-128 | the items become `MarkAllRead` of the old items |
| Notifications.Center.ClearAll | client/src/pages/NotificationCenter.jsx:130-132 | the list is emptied and the tab kept |
| Notifications.Center.MarkItemRead | client/src/pages/NotificationCenter.jsx:134-138 | the items become `MarkRead` of the old items |
| NotificationsPage.Inbox.constructor | client/src/pages/NotificationsPage.jsx:6-9 | the page starts with no items, the ALL tab and nothing pending |
| NotificationsPage.Inbox.LoadFromStorage | client/src/pages/NotificationsPage.jsx:10-22 | a stored array replaces the items; anything unreadable leaves them; nothing else changes |
| NotificationsPage.Inbox.SetFilter | client/src/pages/NotificationsPage.jsx:114 | only the tab changes |
| NotificationsPage.Inbox.MarkAllItemsRead | client/src/pages/NotificationsPage.jsx:52-54 | the items become `MarkAllRead` of the old items; nothing else changes |
| NotificationsPage.Inbox.ClearAll | client/src/pages/NotificationsPage.jsx:56-58 | the list is emptied; nothing else changes |
| NotificationsPage.Inbox.MarkItemRead | client/src/pages/NotificationsPage.jsx:60-64 | the items become `MarkRead` of the old items; nothing else changes |
| NotificationsPage.Inbox.GoToTask | client/src/pages/NotificationsPage.jsx:66-72 | an item without both a workspace and a task changes nothing; otherwise that workspace becomes active in the provider, the task and workspace are remembered for the board page, and one open-task event is sent |

## Left out

- Failing queries outside a `try`: `createTask`, `getTasks`, `updateTask` and `archiveTask`
  (taskController.js:5-101), `createBoard` and `getBoards` (boardController.js:4-27),
  `createWorkspace` (workspaceController.js:20-32) and the `Workspace.findById` of
  `requireWorkspaceMember` (workspaceMiddleware.js:8) catch nothing, so a query that fails
  there escapes unhandled and no reply is sent. Their models (`TaskController.*Tx`,
  `BoardController.CreateBoardTx`, `BoardController.GetBoards`,
  `WorkspaceController.CreateWorkspaceTx`, `WorkspaceAccess.MemberStep`) take no failure input
  and describe only the runs in which every query succeeds.
- The server handlers `assignTask`, `getComments`, `createComment` and `reorderBoards`: the route files import them, but no controller file defines them, so those routes are modelled up to their middleware; the reorder, assign and create-comment routes then leave the database in an arbitrary state (`after`), and listing comments leaves it unchanged.
- Guards.RunGuard: runs the corrected `protect` (`Auth.ProtectStep`). For a header that starts with "Bearer" and has no space the code as written throws at authMiddleware.js:14 and sends no 401 (see Findings), so the 401 that the chain and route lemmas state for that header is the corrected behaviour.
- Mongoose internals: `populate`, the `CastError` thrown for a malformed object id, and the `_id`/`id` duplication of documents. Ids are strings produced by the clock.
- Update validators: `findByIdAndUpdate` runs no schema validators, so an update body may store a priority or status outside its enum. The model types the update body by the schema, so out-of-enum strings are not represented.
- `description` and `priority` values in `createTask` other than strings, and unknown body fields that strict mode drops (for example a due date or attachments sent to the server).
- JWT signing, expiry and the secret: verification is a `Verifier` parameter.
- Socket transport: delivery to room members and disconnect bookkeeping. The model records what is emitted and which rooms a socket is in.
- Concurrency: interleaved requests and handlers, and the stale closure over `activeWorkspaceId` across the `await` in `refreshWorkspaces`. Each handler is one atomic step.
- The `workspaces-updated` socket listener of `client/src/state/WorkspaceContext.jsx:68-83`: its effect is one more call of `Provider.RefreshWorkspaces`.
- Browser storage and JSON parsing: the parsed storage value is an `Option` parameter, and the writes of the save effects are not modelled separately from the state they mirror. The `notifications-updated` window event is not modelled.
- Client-only UI state on the board page: editing and modal flags, the comments panel, drag-over highlighting, due-date badges (they need `Date`) and loading spinners.
- `ToLower` maps ASCII letters only; JavaScript's `toLowerCase` also maps other Unicode letters.
- `Date.now()` and date parsing: `FormatTimeAgo` takes the elapsed time in whole milliseconds as a parameter, absent when the date does not parse. Its divisions by 1000, 60, 60 and 24 use Dafny's `/`, which for a positive divisor is the floor of the quotient for every integer, as `Math.floor` of JavaScript's division is.
- A task whose status is outside the three columns appears in no column. `BoardsView.ColumnsPartition` assumes every status is a column.
- Notifications.OnActivitySpec: the kept case is stated one way, not as an if-and-only-if. A dropped event leaves the list unchanged, but an unchanged list does not mean the event was dropped: fifty identical items with a matching new item give the same list.

## Findings

| source | as written | input that shows it | evidently intended | confidence | as-written member | corrected member |
|---|---|---|---|---|---|---|
| server/src/middleware/authMiddleware.js:14 | the logging line calls `token.substring(0, 20)` before the missing-token check, and `split(" ")[1]` is undefined when the header has no space | header `Authorization: Bearer` (see `Auth.BareBearerThrows`) | the request is answered 401 "Not authorized, no token", as lines 17-20 do for every other missing token (see `Auth.BareBearerRejected`) | not executed | Auth.ProtectAsWritten | Auth.ProtectStep |
