/** The task-list query of the tasks endpoints: filters become an ordered parameter list. */
module TasksApi {
  import opened Js
  import opened Http
  import opened QueryParams

  /** The three filters in the order the builder considers them. */
  function TaskFilters(projectId: Option<string>, memberId: Option<string>, status: Option<string>): seq<Candidate>
  {
    [Candidate("projectId", projectId), Candidate("memberId", memberId), Candidate("status", status)]
  }

  /**
   * `getAllTasks`' query function: starts from an empty parameter list and
   * appends `projectId`, `memberId` and `status`, each only when it is truthy.
   * An omitted argument object leaves all three undefined.
   */
  method GetAllTasksQuery(projectId: Option<string>, memberId: Option<string>, status: Option<string>)
    returns (req: Request)
    ensures req.verb == GET && req.body.None? && req.target.PathWithParams?
    ensures req.target == PathWithParams("/tasks?", TruthyParams(TaskFilters(projectId, memberId, status)))
    ensures var ps := req.target.params;
      && (!Truthy(projectId) && !Truthy(memberId) && !Truthy(status) ==> ps == [])
      && (Truthy(projectId) ==> |ps| > 0 && ps[0] == Param("projectId", projectId.value))
      && (Truthy(status) ==> |ps| > 0 && ps[|ps| - 1] == Param("status", status.value))
  {
    var c := TaskFilters(projectId, memberId, status);
    var params: seq<Param> := [];
    if Truthy(projectId) {
      params := params + [Param("projectId", projectId.value)];
    }
    assert params == TruthyParams([c[0]]);
    if Truthy(memberId) {
      params := params + [Param("memberId", memberId.value)];
    }
    TruthyParamsAppend([c[0]], [c[1]]);
    assert [c[0]] + [c[1]] == c[..2];
    assert params == TruthyParams(c[..2]);
    if Truthy(status) {
      params := params + [Param("status", status.value)];
    }
    TruthyParamsAppend(c[..2], [c[2]]);
    assert c[..2] + [c[2]] == c;
    req := Request(GET, PathWithParams("/tasks?", params), None);
  }

  /**
   * The filter dropdowns offer " " for "All": a single space is truthy, so it is
   * sent as a filter value rather than omitted.
   */
  lemma SpaceFilterIsSent(projectId: Option<string>, memberId: Option<string>)
    ensures Param("status", " ") in TruthyParams(TaskFilters(projectId, memberId, Some(" ")))
  {
    TruthyParamsComplete(TaskFilters(projectId, memberId, Some(" ")), 2);
  }
}
