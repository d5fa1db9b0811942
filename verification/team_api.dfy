/**
 * The member endpoints of the team API: each takes one argument object, puts
 * the ids it names into the path and sends the remaining properties as the body
 * (`({ teamId, ...memberData }) => ...`).
 */
module TeamApi {
  import opened Js
  import opened Http

  /** `/teams/${teamId}/members`, with `String(v)` of the (possibly undefined) id. */
  function MembersPath(arg: map<string, Json>): string
  {
    "/teams/" + Text(Get(arg, "teamId")) + "/members"
  }

  /** `/teams/${teamId}/members/${memberId}`. */
  function MemberPath(arg: map<string, Json>): string
  {
    MembersPath(arg) + "/" + Text(Get(arg, "memberId"))
  }

  /** `addMemberToTeam`: PATCH the team's member list with everything but `teamId`. */
  function AddMemberToTeam(arg: map<string, Json>): (r: Request)
    ensures r.verb == PATCH && r.target == Path(MembersPath(arg))
    ensures r.body.Some? && r.body.value.JObj?
    ensures var b := r.body.value.fields;
      b.Keys == arg.Keys - {"teamId"} && forall k :: k in b ==> b[k] == arg[k]
  {
    Request(PATCH, Path(MembersPath(arg)), Some(JObj(arg - {"teamId"})))
  }

  /** `updateTeamMember`: PATCH one member with everything but `teamId` and `memberId`. */
  function UpdateTeamMember(arg: map<string, Json>): (r: Request)
    ensures r.verb == PATCH && r.target == Path(MemberPath(arg))
    ensures r.body.Some? && r.body.value.JObj?
    ensures var b := r.body.value.fields;
      b.Keys == arg.Keys - {"teamId", "memberId"} && forall k :: k in b ==> b[k] == arg[k]
  {
    Request(PATCH, Path(MemberPath(arg)), Some(JObj(arg - {"teamId", "memberId"})))
  }

  /** `deleteTeamMember`: DELETE one member; no body. */
  function DeleteTeamMember(arg: map<string, Json>): (r: Request)
    ensures r.verb == DELETE && r.target == Path(MemberPath(arg)) && r.body.None?
  {
    Request(DELETE, Path(MemberPath(arg)), None)
  }

  lemma {:induction false} TeamMembersSegments(t: string)
    requires NoSlash(t)
    ensures SplitPath("/teams/" + t + "/members") == ["", "teams", t, "members"]
  {
    var segs := ["", "teams", t, "members"];
    JoinPathCons("", segs[1..]);
    JoinPathCons("teams", segs[2..]);
    JoinPathCons(t, segs[3..]);
    assert [""] + segs[1..] == segs && ["teams"] + segs[2..] == segs[1..] && [t] + segs[3..] == segs[2..];
    assert "/teams/" + t + "/members" == "" + "/" + ("teams" + "/" + (t + "/" + "members"));
    SplitJoin(segs);
  }

  lemma {:induction false} TeamMemberSegments(t: string, m: string)
    requires NoSlash(t) && NoSlash(m)
    ensures SplitPath("/teams/" + t + "/members" + "/" + m) == ["", "teams", t, "members", m]
  {
    var segs := ["", "teams", t, "members", m];
    JoinPathCons("", segs[1..]);
    JoinPathCons("teams", segs[2..]);
    JoinPathCons(t, segs[3..]);
    JoinPathCons("members", segs[4..]);
    assert [""] + segs[1..] == segs && ["teams"] + segs[2..] == segs[1..];
    assert [t] + segs[3..] == segs[2..] && ["members"] + segs[4..] == segs[3..];
    assert "/teams/" + t + "/members" + "/" + m == "" + "/" + ("teams" + "/" + (t + "/" + ("members" + "/" + m)));
    SplitJoin(segs);
  }

  /** The path names the team and the member, and a router reads both ids back. */
  lemma MemberPathSegments(arg: map<string, Json>)
    requires NoSlash(Text(Get(arg, "teamId"))) && NoSlash(Text(Get(arg, "memberId")))
    ensures SplitPath(MembersPath(arg)) == ["", "teams", Text(Get(arg, "teamId")), "members"]
    ensures SplitPath(MemberPath(arg)) == ["", "teams", Text(Get(arg, "teamId")), "members", Text(Get(arg, "memberId"))]
  {
    TeamMembersSegments(Text(Get(arg, "teamId")));
    TeamMemberSegments(Text(Get(arg, "teamId")), Text(Get(arg, "memberId")));
  }

  /** Path and body together carry the whole argument: putting `teamId` back restores it. */
  lemma AddMemberLosesNothing(arg: map<string, Json>)
    requires "teamId" in arg
    ensures AddMemberToTeam(arg).body.value.fields["teamId" := arg["teamId"]] == arg
  {
  }
}

/** The user endpoints of the auth API. */
module AuthApi {
  import opened Js
  import opened Http

  /** `login`: POST the credentials; declares no tags. */
  function Login(userInfo: Json): (r: Request)
    ensures r.verb == POST && r.target == Path("/jwt") && r.body == Some(userInfo)
  {
    Request(POST, Path("/jwt"), Some(userInfo))
  }

  const ProfilePrefix := "/users/profile?email="

  /** `getUserProfile`: the email is written into the query string as it is, without encoding. */
  function GetUserProfile(email: Option<Json>): (r: Request)
    ensures r.verb == GET && r.body.None? && r.target.Path?
    ensures |r.target.text| >= |ProfilePrefix| && r.target.text[..|ProfilePrefix|] == ProfilePrefix
    ensures r.target.text[|ProfilePrefix|..] == Text(email)
  {
    Request(GET, Path(ProfilePrefix + Text(email)), None)
  }

  /** `updateUserProfile`: PUT `/users/${id}` with everything but `id`. */
  function UpdateUserProfile(arg: map<string, Json>): (r: Request)
    ensures r.verb == PUT && r.target == Path("/users/" + Text(Get(arg, "id")))
    ensures r.body.Some? && r.body.value.JObj?
    ensures var b := r.body.value.fields;
      b.Keys == arg.Keys - {"id"} && forall k :: k in b ==> b[k] == arg[k]
  {
    Request(PUT, Path("/users/" + Text(Get(arg, "id"))), Some(JObj(arg - {"id"})))
  }

  /** The user path names exactly the user id, which a router reads back. */
  lemma UserPathSegments(arg: map<string, Json>)
    requires NoSlash(Text(Get(arg, "id")))
    ensures SplitPath(UpdateUserProfile(arg).target.text) == ["", "users", Text(Get(arg, "id"))]
  {
    var id := Text(Get(arg, "id"));
    var segs := ["", "users", id];
    JoinPathCons("", segs[1..]);
    JoinPathCons("users", segs[2..]);
    assert [""] + segs[1..] == segs && ["users"] + segs[2..] == segs[1..];
    assert "/users/" + id == "" + "/" + ("users" + "/" + id);
    SplitJoin(segs);
  }
}
