# Smart Task Manager — a Dafny model of the client core

Smart Task Manager is a React single-page client. Teams have members, and each member has a capacity and a count of current tasks. Projects belong to teams, and tasks belong to projects and are assigned to members. The client talks to a REST back end through RTK Query endpoint tables.

This project models the part of the client that decides what is sent and which cached views go stale:

- **The cache-tag tables.** `Tags` covers every endpoint's `providesTags` and `invalidatesTags` and the tag universe of the base API. The library's invalidation rule is stated once: a write makes a cached read stale exactly when they share a tag. `QueryCache` applies that rule to a map of cached reads.
- **The request builders.** These are the task-list and activity-log query strings (`TasksApi`, `DashboardApi`) and the member and user URLs and bodies (`TeamApi`, `AuthApi`). `BaseApi` models the bearer header hook and checks the header against the credentials grammar of section 2.1 of RFC 6750.
- **The register slice.** `RegisterSlice` is a class with the three fields its reducers assign.
- **The pages.** Tasks, Dashboard, Teams and Projects are modelled as classes. Their fields are the component's state variables. Every request a page sends is appended to its `sent` log, so "nothing is sent" and "exactly one request is sent" are statements about that log. The heart of the model is the task page's capacity overload guard: the warning, the "Assign Anyway" override and "Choose Another".

Server answers are parameters of the handlers (`Reply`: a value, or an error with optional `data.message` and `message`). A toast is the handler's result. JavaScript truthiness (`undefined`, `null` and `""` are falsy) and `a || b || fallback` chains are modelled in `Js`.

## Model

| member | source | states |
|---|---|---|
| Tags.Provides | src/redux/features/tasks/tasksApi.ts:6-76 | The `providesTags` table of every endpoint; only a query provides anything. |
| Tags.Invalidates | src/redux/features/tasks/tasksApi.ts:6-76 | The `invalidatesTags` table of every endpoint; only a mutation invalidates anything. |
| Tags.MakesStale | src/redux/api/baseApi.ts:16-21 | A write makes a read stale iff some tag is both invalidated by the write and provided by the read; only a mutation can make anything stale, and only a query can become stale. |
| Tags.TagUniverse | src/redux/api/baseApi.ts:19 | The tag universe is exactly the six tags, and every provided or invalidated tag is one of them. |
| Tags.ReadsAndWritesSeparate | src/redux/features/tasks/tasksApi.ts:6-76 | Query endpoints invalidate nothing; mutation endpoints provide nothing. |
| Tags.EveryTagIsLive | src/redux/api/baseApi.ts:19 | Each tag is provided by some query and invalidated by some mutation. |
| Tags.TaskWritesInvalidateTasksAndTeams | src/redux/features/tasks/tasksApi.ts:12-56 | createTask, updateTask and deleteTask invalidate exactly {Tasks, Teams}; getAllTasks and getTaskById provide exactly {Tasks}. |
| Tags.ReassignIsTheOnlyActivityLogWrite | src/redux/features/tasks/tasksApi.ts:75 | reassignTasks invalidates exactly {Tasks, Teams, ActivityLogs} and is the only task endpoint that touches ActivityLogs. |
| Tags.AutoAssignStalesNothing | src/redux/features/tasks/tasksApi.ts:60-66 | autoAssignTask is a mutation that makes no read stale. |
| Tags.ReassignStalesDashboardStats | src/redux/features/dashboard/dashboardApi.ts:11 | A reassignment makes the dashboard statistics stale. |
| Tags.TeamWriteTags | src/redux/features/team/teamApi.ts:12-78 | createTeam invalidates only Teams. updateTeam, deleteTeam, addMemberToTeam and updateTeamMember invalidate exactly {Teams, Dashboard}. deleteTeamMember invalidates {Teams, Tasks, Dashboard} and is the only team endpoint marking Tasks. The team reads provide exactly {Teams}. |
| Tags.ProjectWriteTags | src/redux/features/projects/projectsApi.ts:12-49 | createProject and updateProject invalidate {Projects}; deleteProject invalidates {Projects, Tasks}; the project reads provide {Projects}; no project endpoint invalidates Teams or Dashboard. |
| Tags.DeleteProjectStalesTaskReads | src/redux/features/projects/projectsApi.ts:49 | Deleting a project makes every Tasks-providing read stale. |
| Tags.DomainWritesStaleDashboardStats | src/redux/features/dashboard/dashboardApi.ts:11 | Every task, project and team mutation that declares invalidation makes the dashboard statistics stale. |
| Tags.OnlyReassignStalesActivityLogs | src/redux/features/dashboard/dashboardApi.ts:26 | Of all endpoints, exactly reassignTasks makes the activity log stale. |
| Tags.AuthTags | src/redux/features/auth/authApi.ts:5-25 | login declares no tags; getUserProfile provides {Users}; updateUserProfile invalidates {Users}; no auth endpoint touches any other tag. |
| QueryCache.ApplyMutation | src/redux/api/baseApi.ts:16-21 | A write that applies its tags keeps every cached key and value, and an entry is stale afterwards iff it was stale or its endpoint shares a tag with the write. |
| QueryCache.Commit | src/redux/api/baseApi.ts:16-21 | A write whose request is fulfilled or rejected with an error value (every failure `fetchBaseQuery` reports) applies the tag rule. Only an exception escaping the base query leaves the cache unchanged. |
| QueryCache.FailedCreateTaskStalesTaskLists | src/redux/features/tasks/tasksApi.ts:6-13 | A create-task request the server refuses changes the cache exactly as a successful one, and every cached task list ends up stale. |
| QueryCache.UntouchedEntries | src/redux/api/baseApi.ts:16-21 | An entry whose endpoint shares no tag with the write is left exactly as it was. |
| QueryCache.ApplyMutationIdempotent | src/redux/api/baseApi.ts:16-21 | Repeating a write marks nothing more stale. |
| QueryCache.ApplyMutationCommutes | src/redux/api/baseApi.ts:16-21 | The order in which two writes complete does not change the cache. |
| QueryCache.AutoAssignLeavesCache | src/redux/features/tasks/tasksApi.ts:60-66 | An auto-assign leaves any cache unchanged. |
| QueryCache.ReassignStalesDashboardLogsAndTasks | src/redux/features/tasks/tasksApi.ts:75 | After a reassignment, cached dashboard statistics, activity logs and task reads are stale. |
| QueryCache.DeleteProjectStalesTaskLists | src/redux/features/projects/projectsApi.ts:49 | After a project deletion, every cached task list is stale. |
| QueryParams.TruthyParamsAppend | src/redux/features/tasks/tasksApi.ts:18-21 | Appending candidates one after another builds the concatenation of their parameter lists. |
| QueryParams.TruthyParamsSound | src/redux/features/tasks/tasksApi.ts:19-21 | Every parameter sent has a non-empty value and comes from a candidate with that key and value. |
| QueryParams.TruthyParamsComplete | src/redux/features/tasks/tasksApi.ts:19-21 | Every candidate with a truthy value is sent. |
| TasksApi.GetAllTasksQuery | src/redux/features/tasks/tasksApi.ts:17-27 | A GET with no body whose parameters are exactly the truthy filters in the order projectId, memberId, status. No filters gives `/tasks?` with an empty list. |
| TasksApi.SpaceFilterIsSent | src/redux/features/tasks/tasksApi.ts:21 | The " " of an "All" entry is non-empty and is sent as a filter value. |
| DashboardApi.GetActivityLogsQuery | src/redux/features/dashboard/dashboardApi.ts:16-24 | teamId is appended only when truthy, then limit always, last. limit reads back as the given number, or 10 when omitted. |
| Js.DecimalRoundTrip | src/redux/features/dashboard/dashboardApi.ts:19 | The decimal text of any integer parses back to that integer. |
| TeamApi.AddMemberToTeam | src/redux/features/team/teamApi.ts:53-60 | PATCH `/teams/{teamId}/members`; the body is the argument minus `teamId`. |
| TeamApi.UpdateTeamMember | src/redux/features/team/teamApi.ts:63-70 | PATCH `/teams/{teamId}/members/{memberId}`; the body is the argument minus both ids. |
| TeamApi.DeleteTeamMember | src/redux/features/team/teamApi.ts:73-79 | DELETE `/teams/{teamId}/members/{memberId}` with no body. |
| TeamApi.TeamMembersSegments | src/redux/features/team/teamApi.ts:55 | For a slash-free team id, the member-list path splits into "", "teams", the id, "members". |
| TeamApi.TeamMemberSegments | src/redux/features/team/teamApi.ts:65 | For slash-free ids, the member path splits into "", "teams", team id, "members", member id. |
| TeamApi.MemberPathSegments | src/redux/features/team/teamApi.ts:54-75 | A router reads back both ids from the member-endpoint paths. |
| TeamApi.AddMemberLosesNothing | src/redux/features/team/teamApi.ts:54-57 | Putting `teamId` back into the add-member body restores the whole argument. |
| AuthApi.Login | src/redux/features/auth/authApi.ts:5-11 | POST `/jwt` with the credentials as body. |
| AuthApi.GetUserProfile | src/redux/features/auth/authApi.ts:12-18 | GET `/users/profile?email=` followed by the email text, with no encoding. |
| AuthApi.UpdateUserProfile | src/redux/features/auth/authApi.ts:19-26 | PUT `/users/{id}` with the argument minus `id`. |
| AuthApi.UserPathSegments | src/redux/features/auth/authApi.ts:21 | A router reads the user id back from the update path. |
| BaseApi.Headers.Set | src/redux/api/baseApi.ts:10 | Setting a header replaces its value and nothing else. |
| BaseApi.PrepareHeaders | src/redux/api/baseApi.ts:7-13 | A truthy token sets authorization to `Bearer <token>`. A missing or empty token leaves the headers unchanged and is not an error. No other header changes, and the same object is returned. |
| BaseApi.BearerValue | src/redux/api/baseApi.ts:10 | The header value is "Bearer " followed by exactly the token. |
| BaseApi.BearerValueWellFormed | src/redux/api/baseApi.ts:10 | The header is well-formed RFC 6750 credentials iff the token, after leading spaces, is a b64token. |
| BaseApi.BearerTokenRoundTrip | src/redux/api/baseApi.ts:10 | A b64token survives the header unchanged: the server reads back the same token. |
| RegisterSlice.Slice.constructor | src/redux/features/register/registerSlice.ts:9-13 | The initial state has name, email and password all null. |
| RegisterSlice.Slice.SetRegister | src/redux/features/register/registerSlice.ts:19-24 | Sets exactly the three fields from the payload (undefined when absent). |
| RegisterSlice.Slice.ClearRegister | src/redux/features/register/registerSlice.ts:25-29 | Returns to the initial state from any state. |
| RegisterSlice.SetThenClear | src/redux/features/register/registerSlice.ts:19-29 | Storing then clearing (twice) ends in the initial state: clearing is idempotent and undoes what was set. |
| Notices.ServerMessage | src/pages/Tasks.tsx:132 | `error.data.message` when non-empty, else the fixed text. |
| Notices.ErrorMessage | src/pages/Dashboard.tsx:48-50 | `data.message`, else `message`, else the fixed text, with empty strings counting as absent. |
| TasksPage.DefaultFields | src/pages/Tasks.tsx:136-145 | The reset form: empty title, description and member; the URL's project; Medium; Pending; no warning. |
| TasksPage.CapacityVerdict | src/pages/Tasks.tsx:105-115 | Warns iff the first member with the id passes line 108's test `currentTasks >= capacity` (the predicate `AtCapacity`), and then names that member. An unknown id such as "Unassigned" clears the warning. |
| TasksPage.CreateGate | src/pages/Tasks.tsx:147-155 | Validation comes before the overload gate. An empty title or project is always MissingFields. The warning holds the request back only without force. |
| TasksPage.BuildPayload | src/pages/Tasks.tsx:159-169 | Form fields are copied. The assignee id falls back to "Unassigned" when empty. The name is that of the first team member with the selected id when it is non-empty, and "Unassigned" otherwise or when no member matches. teamId is that of the first project with the selected id, and absent when no project matches. |
| TasksPage.PriorityVariant | src/pages/Tasks.tsx:240-251 | High is destructive, Low is secondary, and every other priority is default. |
| TasksPage.StatusClasses | src/pages/Tasks.tsx:253-264 | Done, In Progress and Pending have their colours; any other status is grey. |
| TasksPage.StatusClassesDistinct | src/pages/Tasks.tsx:253-264 | The three known statuses get colours different from each other and from the fallback. |
| TasksPage.TaskForm.constructor | src/pages/Tasks.tsx:59-94 | The form starts at the defaults, with the URL's project id (or "") in the form and in the project filter, no dialogs and nothing sent. |
| TasksPage.TaskForm.Loaded | src/pages/Tasks.tsx:73-102 | New project and team data change nothing else. |
| TasksPage.TaskForm.SetText | src/pages/Tasks.tsx:309-318 | Title and description inputs change only those fields. |
| TasksPage.TaskForm.SetPriorityAndStatus | src/pages/Tasks.tsx:590-609 | Priority and status selects change only those fields. |
| TasksPage.TaskForm.SelectProject | src/pages/Tasks.tsx:325-327 | Only the project changes; the warning is not re-evaluated. |
| TasksPage.TaskForm.SelectedProject | src/pages/Tasks.tsx:97-99 | The first loaded project whose id is the form's project id, and none when no project has it. |
| TasksPage.TaskForm.OverloadAlert | src/pages/Tasks.tsx:394-415 | The alert names the overloaded member and appears only while the warning is set; under the form's invariant it appears exactly when the footer shows "Choose Another" and "Assign Anyway". |
| TasksPage.TaskForm.CheckMemberCapacity | src/pages/Tasks.tsx:105-115 | With no team loaded nothing changes, and an earlier warning persists. Otherwise the warning and the named member follow `CapacityVerdict`, and nothing else changes. |
| TasksPage.TaskForm.SelectMember | src/pages/Tasks.tsx:374-377 | Records the member, then applies the capacity check. |
| TasksPage.TaskForm.EditSelectMember | src/pages/Tasks.tsx:624-627 | Records the member with no capacity check. |
| TasksPage.TaskForm.ChooseAnother | src/pages/Tasks.tsx:417-420 | Clears the member and leaves the warning as it was. |
| TasksPage.TaskForm.ResetForm | src/pages/Tasks.tsx:136-145 | The form returns to `DefaultFields`; dialogs, filters and the log are unchanged. |
| TasksPage.TaskForm.OpenCreateDialog | src/pages/Tasks.tsx:284-289 | Opens the create dialog only. |
| TasksPage.TaskForm.CloseCreateDialog | src/pages/Tasks.tsx:406-411 | Closes the create dialog and resets the form. |
| TasksPage.TaskForm.CloseEditDialog | src/pages/Tasks.tsx:643-649 | Closes the edit dialog, resets the form and forgets the task. |
| TasksPage.TaskForm.AutoAssign | src/pages/Tasks.tsx:117-134 | No project, or a project without a team, sends nothing. Otherwise one auto-assign request goes out for the team. A suggestion becomes the member without a capacity check. A refusal or error only shows a message. |
| TasksPage.TaskForm.CreateTask | src/pages/Tasks.tsx:147-180 | Missing fields, or the warning without force, send nothing and change nothing. Otherwise exactly one create request carries `BuildPayload` of the form. Success resets the form and closes the dialog; failure keeps everything. |
| TasksPage.TaskForm.AssignAnyway | src/pages/Tasks.tsx:423 | With title and project filled, exactly one create request is sent whatever the warning, with the payload of the form as it stood. |
| TasksPage.TaskForm.EditTask | src/pages/Tasks.tsx:182-191 | Loads the task's fields and opens the edit dialog; the warning is untouched. |
| TasksPage.TaskForm.UpdateTask | src/pages/Tasks.tsx:193-226 | Same validation as create but no overload gate. With no task being edited nothing is sent and "Failed to update task" shows. Otherwise exactly one update of that task's id is sent. Success resets the form and forgets the task. |
| TasksPage.TaskForm.DeleteTask | src/pages/Tasks.tsx:228-238 | Exactly one delete request for the task; nothing else changes. |
| TasksPage.TaskForm.SetProjectFilter | src/pages/Tasks.tsx:441 | Changes only the project filter. |
| TasksPage.TaskForm.SetStatusFilter | src/pages/Tasks.tsx:454 | Changes only the status filter. |
| TasksPage.TaskForm.ListQuery | src/pages/Tasks.tsx:68-72 | The task list is fetched with the truthy filters, and never with a memberId parameter. |
| TasksPage.TaskListFilters | src/pages/Tasks.tsx:65-72 | The member filter is always the empty string. |
| TasksPage.MemberFilterNeverSent | src/pages/Tasks.tsx:65 | No memberId parameter ever reaches the server from this page. |
| TasksPage.ProjectName | src/pages/Tasks.tsx:509-510 | A task row shows the name of the first project with its id when that name is non-empty, and "Unknown" when the name is empty or no project matches. |
| TasksPage.OverrideScenario | src/pages/Tasks.tsx:415-429 | Alice at 2/2 raises the warning. "Create Task" sends nothing; "Assign Anyway" sends exactly one create assigned to Alice in team "dev". |
| TasksPage.ChooseAnotherScenario | src/pages/Tasks.tsx:419 | After "Choose Another" the warning still blocks "Create Task", and "Assign Anyway" sends an unassigned task. |
| DashboardPage.ReassignSuccessText | src/pages/Dashboard.tsx:44 | The server's message when non-empty, else "Tasks reassigned successfully". |
| DashboardPage.Dashboard.constructor | src/pages/Dashboard.tsx:33 | No team selected and nothing sent. |
| DashboardPage.Dashboard.SelectTeam | src/pages/Dashboard.tsx:118 | Records the selection and sends nothing. |
| DashboardPage.Dashboard.HandleReassign | src/pages/Dashboard.tsx:35-55 | An empty selection sends nothing. Otherwise exactly one reassign request goes out for the selected team. The toast is the success text or the three-level error message. |
| DashboardPage.ReassignScenario | src/pages/Dashboard.tsx:36-43 | Before selecting nothing is sent; after selecting "team-1" exactly one request, for it. |
| DashboardPage.MemberCard | src/pages/Dashboard.tsx:156-179 | Red border and destructive badge iff currentTasks > capacity. |
| DashboardPage.IsOverloaded | src/pages/Dashboard.tsx:156-157 | The dashboard's test is the task form's test minus the case of exactly full capacity. |
| DashboardPage.AtCapacityWarnsButIsNotFlagged | src/pages/Dashboard.tsx:156-157 | At exactly capacity the task form warns but the dashboard card is plain; above capacity both flag the member. |
| TeamsPage.CapacityJson | src/pages/Teams.tsx:103 | Decimal text becomes that number; anything else becomes null. |
| TeamsPage.CapacityIsNotBounded | src/pages/Teams.tsx:330-333 | Any whole number typed is sent as that number; 0-10 is not enforced. |
| TeamsPage.MemberData | src/pages/Teams.tsx:100-104 | Exactly name, role and the parsed capacity. |
| TeamsPage.AddMemberArgument | src/pages/Teams.tsx:98-105 | Exactly two keys: `teamId`, holding the selected team id, and `memberData`, holding the member fields as an object. |
| TeamsPage.AddMemberRequestShape | src/redux/features/team/teamApi.ts:53-58 | The page's add-member call PATCHes the selected team's member list, with a body that still wraps the fields in `memberData`. |
| TeamsPage.TeamsForm.constructor | src/pages/Teams.tsx:50-57 | Dialogs closed, no team selected, inputs "", "", "" and "5", nothing sent. |
| TeamsPage.TeamsForm.SetTeamDialog | src/pages/Teams.tsx:149-170 | Changes only the team dialog and its name. |
| TeamsPage.TeamsForm.SetMemberFields | src/pages/Teams.tsx:311-334 | Changes only the three member inputs. |
| TeamsPage.TeamsForm.MemberDialogChange | src/pages/Teams.tsx:286-289 | Opening a team's dialog records that team, so its dialog is the only one shown. Closing keeps the id. |
| TeamsPage.TeamsForm.CreateTeam | src/pages/Teams.tsx:59-76 | An empty name sends nothing. Otherwise exactly one create call with `{name, members: []}`. Success closes and clears; failure keeps both. |
| TeamsPage.TeamsForm.DeleteTeam | src/pages/Teams.tsx:78-88 | Exactly one delete call for the team. |
| TeamsPage.TeamsForm.AddMember | src/pages/Teams.tsx:90-119 | Nothing is sent unless name and role are non-empty. Otherwise exactly one call for the selected team with the parsed capacity. Success restores "", "", "5" and closes the dialog. Failure keeps the inputs and shows the three-level message. |
| TeamsPage.TeamsForm.DeleteMember | src/pages/Teams.tsx:121-130 | Exactly one remove call with the team and member ids. |
| TeamsPage.AddMemberScenario | src/pages/Teams.tsx:90-110 | With the capacity input untouched, the call carries capacity 5, and afterwards the inputs are reset and the dialog is closed. |
| ProjectsPage.ProjectArgument | src/pages/Projects.tsx:70-74 | Exactly the keys name, description and teamId, each holding the matching input as a string. |
| ProjectsPage.ProjectForm.constructor | src/pages/Projects.tsx:57-60 | Dialog closed, all three fields empty, nothing sent. |
| ProjectsPage.ProjectForm.SetForm | src/pages/Projects.tsx:117-155 | Changes the dialog and the inputs, and sends nothing. |
| ProjectsPage.ProjectForm.CreateProject | src/pages/Projects.tsx:62-85 | Nothing is sent unless name and team are non-empty. Otherwise exactly one create call with the three fields. Success clears them and closes the dialog; failure keeps everything. |
| ProjectsPage.ProjectForm.DeleteProject | src/pages/Projects.tsx:87-99 | Exactly one delete call for the project. |
| ProjectsPage.RetryScenario | src/pages/Projects.tsx:62-85 | A rejected create can be resubmitted as it is: the same call goes out twice. |
| ProjectsPage.TeamLabel | src/pages/Projects.tsx:194-231 | The name of the first loaded team with the project's team id when it is non-empty, and "Unknown" when the name is empty or no team matches. |
| ProjectsPage.DescriptionLabel | src/pages/Projects.tsx:236 | The description, or "No description" when it is empty. |

## Left out

- The query library's cache mechanics are left out: subscriber counts, de-duplication, eviction, request ordering and refetch scheduling. An invalidated entry is in the library removed when nothing subscribes to it and refetched otherwise; `QueryCache` keeps it with its last value and only sets the stale flag that the tag rule decides. That rule is a definition (`Tags.MakesStale`), because the library itself is not part of this model.
- Server behaviour is left out: the auto-assign choice, bulk reassignment, the `currentTasks` counts and cascade deletes. Server answers are handler parameters.
- Persistence of the session (the `auth` key in local storage), the login and registration pages, routing, layout and all rendering are left out. Dialog open flags are kept only where a handler sets them. The statistic cards and date formatting are left out.
- The request builders of the other endpoints are left out, apart from those listed above. For example, the create and update task URLs are not modelled. Their tag declarations are modelled.
- `URLSearchParams` encoding is left out: query strings are ordered key/value lists. `AuthApi.GetUserProfile` writes the email in raw form, as the source does. No percent or `+` decoding is modelled.
- TeamsPage.CapacityJson: `parseInt` is modelled only on plain decimal text. Leading-number prefixes such as "5abc" and surrounding spaces are not modelled and read as null here. Rounding to a double beyond 2^53 is not modelled either.
- `getActivityLogs` with `limit: null` is left out. The model takes the limit as given or omitted.
- An auto-assign success without a suggested member, which would throw in the source, is left out.
- Header names are compared exactly; the case-insensitivity of the `Headers` object is not modelled.
- BaseApi.PrepareHeaders: the Fetch `Headers.set` strips leading and trailing whitespace from the value and throws a TypeError for a value holding CR, LF, NUL or a character above U+00FF; the model stores `Bearer <token>` as built, so a token such as "abc " is stored with its trailing space and an invalid token is set rather than rejected.
- BaseApi.Headers.Set: the same value normalisation and TypeError of the Fetch `Headers.set` are not modelled; the value is stored as given.
- TasksPage.TaskForm.AutoAssign: a 2xx reply whose body is empty (which `fetchBaseQuery` delivers as `null`) makes `res.success` throw, so the source shows "Failed to auto-assign"; a refusal without a `message` passes `undefined` to the toast. The `Suggestion` reply type has neither case.
- DashboardPage.Dashboard.HandleReassign: a 2xx reply whose body is empty makes `res.message` throw inside the `try`, so the source shows the engine's TypeError text as an error toast although the reassignment succeeded; `ReassignResult` cannot express a null body.
- TeamsPage.CapacityIsNotBounded: JavaScript numbers are doubles, so `parseInt` rounds a whole number beyond 2^53 (for example 9007199254740993 becomes 9007199254740992); the model's capacity is an unbounded integer and the round trip holds for every integer.
- DashboardApi.GetActivityLogsQuery: `limit.toString()` prints a limit of 1e21 or more in exponent form ("1e+21") and a fractional limit with a decimal point; the model's limit is an unbounded integer printed in plain decimal digits.
- Timing is left out: the loading toasts and the window between sending a request and its answer. A handler runs to completion with its answer.

## Notes on the source

- The task form gives the overload warning at `currentTasks >= capacity`. The dashboard marks a member as overloaded only at `currentTasks > capacity`. A member at exactly capacity therefore triggers the warning but shows a plain card (`DashboardPage.AtCapacityWarnsButIsNotFlagged`).
- Changing the selected project does not re-evaluate the overload warning, and "Choose Another" clears the member but leaves the warning set (`TasksPage.TaskForm.SelectProject`, `TasksPage.TaskForm.ChooseAnother`).
- Deleting a team invalidates both Teams and Dashboard (`Tags.TeamWriteTags`).
- The add-member body on the wire is `{memberData: {...}}`, because the endpoint strips only `teamId`.
