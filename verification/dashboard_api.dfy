/** The activity-log query of the dashboard endpoints. */
module DashboardApi {
  import opened Js
  import opened Http
  import opened QueryParams

  /** The destructuring default `limit = 10`, which applies when `limit` is undefined. */
  const DefaultLimit := 10

  /**
   * `getActivityLogs`' query function: appends `teamId` when it is truthy, then
   * always appends `limit` as decimal text.
   */
  method GetActivityLogsQuery(teamId: Option<string>, limit: Option<int>) returns (req: Request)
    ensures req.verb == GET && req.body.None?
    ensures req.target.PathWithParams? && req.target.prefix == "/activity-logs?"
    ensures var ps := req.target.params;
      && |ps| == (if Truthy(teamId) then 2 else 1)
      && ps[..|ps| - 1] == TruthyParams([Candidate("teamId", teamId)])
      && ps[|ps| - 1].key == "limit"
      && ParseDecimal(ps[|ps| - 1].value) == Some(if limit.Some? then limit.value else DefaultLimit)
  {
    var n := if limit.Some? then limit.value else DefaultLimit;
    var params: seq<Param> := [];
    if Truthy(teamId) {
      params := params + [Param("teamId", teamId.value)];
    }
    params := params + [Param("limit", Decimal(n))];
    DecimalRoundTrip(n);
    req := Request(GET, PathWithParams("/activity-logs?", params), None);
  }
}
