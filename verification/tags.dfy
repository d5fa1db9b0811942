/**
 * The cache-tag declarations of every endpoint: `tagTypes` of the base API and
 * the `providesTags` / `invalidatesTags` lists of the auth, dashboard, projects,
 * tasks and team endpoint files, as two total functions over an enumeration of
 * the endpoints.
 */
module Tags {

  /** `tagTypes`: the six resource categories. */
  datatype Tag = Users | Teams | Projects | Tasks | ActivityLogs | Dashboard

  /** Every endpoint the client declares. */
  datatype Op =
    // tasks
    | CreateTask | GetAllTasks | GetTaskById | UpdateTask | DeleteTask | AutoAssignTask | ReassignTasks
    // teams
    | CreateTeam | GetAllTeams | GetTeamById | UpdateTeam | DeleteTeam
    | AddMemberToTeam | UpdateTeamMember | DeleteTeamMember
    // projects
    | CreateProject | GetAllProjects | GetProjectById | UpdateProject | DeleteProject
    // dashboard
    | GetDashboardStats | GetActivityLogs
    // auth and registration
    | Login | GetUserProfile | UpdateUserProfile | Register

  /** Endpoints declared with `builder.query`; all others are `builder.mutation`. */
  predicate IsQuery(op: Op)
  {
    match op
    case GetAllTasks | GetTaskById | GetAllTeams | GetTeamById | GetAllProjects | GetProjectById
       | GetDashboardStats | GetActivityLogs | GetUserProfile => true
    case _ => false
  }

  /** `providesTags` of each endpoint (none declared means the empty set). */
  function Provides(op: Op): (p: set<Tag>)
    ensures p != {} ==> IsQuery(op)
  {
    match op
    case GetAllTasks | GetTaskById => {Tasks}
    case GetAllTeams | GetTeamById => {Teams}
    case GetAllProjects | GetProjectById => {Projects}
    case GetDashboardStats => {Dashboard, Projects, Tasks, Teams}
    case GetActivityLogs => {ActivityLogs}
    case GetUserProfile => {Users}
    case _ => {}
  }

  /** `invalidatesTags` of each endpoint (none declared means the empty set). */
  function Invalidates(op: Op): (inv: set<Tag>)
    ensures inv != {} ==> !IsQuery(op)
  {
    match op
    case CreateTask | UpdateTask | DeleteTask => {Tasks, Teams}
    case ReassignTasks => {Tasks, Teams, ActivityLogs}
    case CreateTeam => {Teams}
    case UpdateTeam | DeleteTeam | AddMemberToTeam | UpdateTeamMember => {Teams, Dashboard}
    case DeleteTeamMember => {Teams, Tasks, Dashboard}
    case CreateProject | UpdateProject => {Projects}
    case DeleteProject => {Projects, Tasks}
    case UpdateUserProfile => {Users}
    case _ => {}
  }

  /**
   * The invalidation rule of the query library, taken as given: a successful
   * write `w` makes a cached read of `r` stale exactly when a tag `w`
   * invalidates is one that `r` provides.
   */
  predicate MakesStale(w: Op, r: Op): (stale: bool)
    ensures stale ==> !IsQuery(w) && IsQuery(r)
    ensures stale <==> exists t: Tag :: t in Invalidates(w) && t in Provides(r)
  {
    Invalidates(w) * Provides(r) != {}
  }

  const AllTags: set<Tag> := {Users, Teams, Projects, Tasks, ActivityLogs, Dashboard}

  const TaskEndpoints: set<Op> :=
    {CreateTask, GetAllTasks, GetTaskById, UpdateTask, DeleteTask, AutoAssignTask, ReassignTasks}
  const TeamEndpoints: set<Op> :=
    {CreateTeam, GetAllTeams, GetTeamById, UpdateTeam, DeleteTeam, AddMemberToTeam, UpdateTeamMember, DeleteTeamMember}
  const ProjectEndpoints: set<Op> :=
    {CreateProject, GetAllProjects, GetProjectById, UpdateProject, DeleteProject}
  const AuthEndpoints: set<Op> := {Login, GetUserProfile, UpdateUserProfile}

  // ---- the tag universe -----------------------------------------------------

  /** The tag universe has exactly six members and every declared tag is one of them. */
  lemma TagUniverse()
    ensures |AllTags| == 6
    ensures forall t: Tag :: t in AllTags
    ensures forall op: Op :: Provides(op) <= AllTags && Invalidates(op) <= AllTags
  {
    forall t: Tag
      ensures t in AllTags
    {
      match t
      case Users =>
      case Teams =>
      case Projects =>
      case Tasks =>
      case ActivityLogs =>
      case Dashboard =>
    }
  }

  /** Reads never invalidate and writes never provide. */
  lemma ReadsAndWritesSeparate(op: Op)
    ensures IsQuery(op) ==> Invalidates(op) == {}
    ensures !IsQuery(op) ==> Provides(op) == {}
  {
  }

  /** No tag is dead: each is provided by some read and invalidated by some write. */
  lemma EveryTagIsLive(t: Tag)
    ensures exists r: Op :: IsQuery(r) && t in Provides(r)
    ensures exists w: Op :: !IsQuery(w) && t in Invalidates(w)
  {
    match t
    case Users =>
      assert t in Provides(GetUserProfile) && t in Invalidates(UpdateUserProfile);
    case Teams =>
      assert t in Provides(GetAllTeams) && t in Invalidates(CreateTeam);
    case Projects =>
      assert t in Provides(GetAllProjects) && t in Invalidates(CreateProject);
    case Tasks =>
      assert t in Provides(GetAllTasks) && t in Invalidates(CreateTask);
    case ActivityLogs =>
      assert t in Provides(GetActivityLogs) && t in Invalidates(ReassignTasks);
    case Dashboard =>
      assert t in Provides(GetDashboardStats) && t in Invalidates(UpdateTeam);
  }

  // ---- tasks endpoints --------------------------------------------------------

  lemma TaskWritesInvalidateTasksAndTeams()
    ensures Invalidates(CreateTask) == Invalidates(UpdateTask) == Invalidates(DeleteTask) == {Tasks, Teams}
    ensures Provides(GetAllTasks) == Provides(GetTaskById) == {Tasks}
  {
  }

  /** `reassignTasks` is the only task endpoint that touches the activity log. */
  lemma ReassignIsTheOnlyActivityLogWrite()
    ensures Invalidates(ReassignTasks) == {Tasks, Teams, ActivityLogs}
    ensures forall op :: op in TaskEndpoints && ActivityLogs in Invalidates(op) ==> op == ReassignTasks
  {
  }

  /** `autoAssignTask` is a mutation that declares no invalidation: it makes nothing stale. */
  lemma AutoAssignStalesNothing(r: Op)
    ensures !IsQuery(AutoAssignTask)
    ensures !MakesStale(AutoAssignTask, r)
  {
  }

  lemma ReassignStalesDashboardStats()
    ensures MakesStale(ReassignTasks, GetDashboardStats)
  {
    assert Tasks in Invalidates(ReassignTasks) * Provides(GetDashboardStats);
  }

  // ---- team endpoints ---------------------------------------------------------

  lemma TeamWriteTags()
    ensures Invalidates(CreateTeam) == {Teams} && Dashboard !in Invalidates(CreateTeam)
    ensures forall op :: op in {UpdateTeam, DeleteTeam, AddMemberToTeam, UpdateTeamMember} ==>
                           Invalidates(op) == {Teams, Dashboard}
    ensures Invalidates(DeleteTeamMember) == {Teams, Tasks, Dashboard}
    ensures forall op :: op in TeamEndpoints && Tasks in Invalidates(op) ==> op == DeleteTeamMember
    ensures Provides(GetAllTeams) == Provides(GetTeamById) == {Teams}
  {
  }

  // ---- project endpoints ------------------------------------------------------

  lemma ProjectWriteTags()
    ensures Invalidates(CreateProject) == Invalidates(UpdateProject) == {Projects}
    ensures Invalidates(DeleteProject) == {Projects, Tasks}
    ensures Provides(GetAllProjects) == Provides(GetProjectById) == {Projects}
    ensures forall op :: op in ProjectEndpoints ==> Teams !in Invalidates(op) && Dashboard !in Invalidates(op)
  {
  }

  /** Deleting a project makes every cached read that provides Tasks stale. */
  lemma DeleteProjectStalesTaskReads(r: Op)
    ensures Tasks in Provides(r) ==> MakesStale(DeleteProject, r)
    ensures MakesStale(DeleteProject, GetAllTasks)
  {
    if Tasks in Provides(r) {
      assert Tasks in Invalidates(DeleteProject) * Provides(r);
    }
    assert Tasks in Invalidates(DeleteProject) * Provides(GetAllTasks);
  }

  // ---- dashboard endpoints ----------------------------------------------------

  /** Every task, project and team write in the tables makes the dashboard statistics stale. */
  lemma DomainWritesStaleDashboardStats(w: Op)
    requires w in TaskEndpoints || w in ProjectEndpoints || w in TeamEndpoints
    requires !IsQuery(w) && w != AutoAssignTask
    ensures MakesStale(w, GetDashboardStats)
  {
    match w
    case CreateProject | UpdateProject | DeleteProject =>
      assert Projects in Invalidates(w) * Provides(GetDashboardStats);
    case CreateTask | UpdateTask | DeleteTask | ReassignTasks | CreateTeam | UpdateTeam | DeleteTeam
       | AddMemberToTeam | UpdateTeamMember | DeleteTeamMember =>
      assert Teams in Invalidates(w) * Provides(GetDashboardStats);
    case _ =>
      assert false;
  }

  /** Among all declared writes only `reassignTasks` makes the activity log stale. */
  lemma OnlyReassignStalesActivityLogs(w: Op)
    ensures MakesStale(w, GetActivityLogs) <==> w == ReassignTasks
  {
    if w == ReassignTasks {
      assert ActivityLogs in Invalidates(w) * Provides(GetActivityLogs);
    } else {
      assert ActivityLogs !in Invalidates(w);
      assert Invalidates(w) * Provides(GetActivityLogs) == {};
    }
  }

  // ---- auth endpoints ---------------------------------------------------------

  lemma AuthTags()
    ensures Invalidates(Login) == {} && Provides(Login) == {}
    ensures Provides(GetUserProfile) == {Users}
    ensures Invalidates(UpdateUserProfile) == {Users}
    ensures forall op :: op in AuthEndpoints ==> (Provides(op) + Invalidates(op)) <= {Users}
    ensures Invalidates(Register) == {}
  {
  }
}
