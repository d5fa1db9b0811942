/**
 * The teams page: creating and deleting teams, and the per-team dialog that
 * adds a member. Every mutation the page triggers is logged in `sent` as the
 * endpoint and the argument object handed to it.
 */
module TeamsPage {
  import opened Js
  import opened Notices
  import opened Http
  import Tags
  import TeamApi

  /** One mutation call: the endpoint and its argument. */
  datatype Call = Call(op: Tags.Op, arg: Json)

  /** The capacity input's initial text. */
  const DefaultCapacityText := "5"

  /**
   * `parseInt(memberCapacity)` as it reaches the JSON body: the number for
   * decimal text, and null for anything else (NaN serialises as null).
   */
  function CapacityJson(text: string): (j: Json)
    ensures j.JNum? || j == JNull
    ensures j.JNum? <==> ParseDecimal(text).Some?
    ensures j.JNum? ==> j.n == ParseDecimal(text).value
  {
    match ParseDecimal(text)
    case Some(n) => JNum(n)
    case None => JNull
  }

  /** Any whole number typed in the capacity field is sent as that number: 0-10 is not enforced. */
  lemma {:induction false} CapacityIsNotBounded(n: int)
    ensures CapacityJson(Decimal(n)) == JNum(n)
  {
    DecimalRoundTrip(n);
  }

  /** The member fields the add-member call nests under `memberData`. */
  function MemberData(name: string, role: string, capacityText: string): (d: map<string, Json>)
    ensures d.Keys == {"name", "role", "capacity"}
    ensures d["name"] == JStr(name) && d["role"] == JStr(role) && d["capacity"] == CapacityJson(capacityText)
  {
    map["name" := JStr(name), "role" := JStr(role), "capacity" := CapacityJson(capacityText)]
  }

  /** The argument `handleAddMember` passes: the selected team id and the nested member data. */
  function AddMemberArgument(teamId: string, data: map<string, Json>): (arg: map<string, Json>)
    ensures arg.Keys == {"teamId", "memberData"}
    ensures arg["teamId"] == JStr(teamId) && Text(Get(arg, "teamId")) == teamId
    ensures arg["memberData"] == JObj(data)
  {
    map["teamId" := JStr(teamId), "memberData" := JObj(data)]
  }

  /**
   * What reaches the server for an add-member call: a PATCH of the selected
   * team's member list whose body still wraps the fields in `memberData`,
   * because the endpoint strips only `teamId`.
   */
  lemma AddMemberRequestShape(teamId: string, data: map<string, Json>)
    requires NoSlash(teamId)
    ensures var r := TeamApi.AddMemberToTeam(AddMemberArgument(teamId, data));
      && r.verb == PATCH
      && SplitPath(r.target.text) == ["", "teams", teamId, "members"]
      && r.body == Some(JObj(map["memberData" := JObj(data)]))
  {
    var arg := AddMemberArgument(teamId, data);
    TeamApi.MemberPathSegments(arg);
    assert arg - {"teamId"} == map["memberData" := JObj(data)];
  }

  class TeamsForm {
    var teamDialogOpen: bool
    var memberDialogOpen: bool
    /** The team whose add-member dialog was opened last. */
    var selectedTeamId: string
    var teamName: string
    var memberName: string
    var memberRole: string
    /** The capacity input's text. */
    var memberCapacity: string
    /** Every mutation the page has triggered, oldest first. */
    var sent: seq<Call>

    constructor ()
      ensures !teamDialogOpen && !memberDialogOpen && selectedTeamId == ""
      ensures teamName == "" && memberName == "" && memberRole == "" && memberCapacity == DefaultCapacityText
      ensures sent == []
    {
      teamDialogOpen, memberDialogOpen, selectedTeamId := false, false, "";
      teamName, memberName, memberRole, memberCapacity := "", "", "", DefaultCapacityText;
      sent := [];
    }

    /** Whether the add-member dialog of the given team is the one shown. */
    predicate MemberDialogOpenFor(teamId: string)
      reads this
    {
      memberDialogOpen && selectedTeamId == teamId
    }

    /** The create-team dialog's open state and its name input. */
    method SetTeamDialog(open: bool, name: string)
      modifies this
      ensures teamDialogOpen == open && teamName == name
      ensures memberDialogOpen == old(memberDialogOpen) && selectedTeamId == old(selectedTeamId)
      ensures memberName == old(memberName) && memberRole == old(memberRole)
      ensures memberCapacity == old(memberCapacity) && sent == old(sent)
    {
      teamDialogOpen, teamName := open, name;
    }

    /** The member dialog's three inputs. */
    method SetMemberFields(name: string, role: string, capacity: string)
      modifies this
      ensures memberName == name && memberRole == role && memberCapacity == capacity
      ensures teamDialogOpen == old(teamDialogOpen) && memberDialogOpen == old(memberDialogOpen)
      ensures selectedTeamId == old(selectedTeamId) && teamName == old(teamName) && sent == old(sent)
    {
      memberName, memberRole, memberCapacity := name, role, capacity;
    }

    /**
     * A team card's member dialog changes state: opening it records that team,
     * so it is then the only team whose dialog shows; closing keeps the id.
     */
    method MemberDialogChange(teamId: string, open: bool)
      modifies this
      ensures open ==> MemberDialogOpenFor(teamId) && forall other :: other != teamId ==> !MemberDialogOpenFor(other)
      ensures !open ==> !memberDialogOpen && selectedTeamId == old(selectedTeamId)
      ensures teamDialogOpen == old(teamDialogOpen) && teamName == old(teamName)
      ensures memberName == old(memberName) && memberRole == old(memberRole)
      ensures memberCapacity == old(memberCapacity) && sent == old(sent)
    {
      memberDialogOpen := open;
      if open {
        selectedTeamId := teamId;
      }
    }

    /**
     * `handleCreateTeam`: nothing is sent for an empty name; otherwise one
     * create call with `{name, members: []}`. Success closes the dialog and
     * clears the name; failure keeps both.
     */
    method CreateTeam(reply: Reply<()>) returns (toast: Toast)
      modifies this
      ensures old(teamName) == "" ==>
                toast == ErrorToast("Please enter team name") && sent == old(sent) &&
                teamDialogOpen == old(teamDialogOpen) && teamName == old(teamName)
      ensures old(teamName) != "" ==>
                sent == old(sent) + [Call(Tags.CreateTeam,
                                          JObj(map["name" := JStr(old(teamName)), "members" := JArr([])]))]
      ensures old(teamName) != "" && reply.Ok? ==>
                toast == SuccessToast("Team created successfully") && !teamDialogOpen && teamName == ""
      ensures old(teamName) != "" && reply.Failed? ==>
                toast == ErrorToast(ServerMessage(reply.error, "Failed to create team")) &&
                teamDialogOpen == old(teamDialogOpen) && teamName == old(teamName)
      ensures memberDialogOpen == old(memberDialogOpen) && selectedTeamId == old(selectedTeamId)
      ensures memberName == old(memberName) && memberRole == old(memberRole)
      ensures memberCapacity == old(memberCapacity)
    {
      if teamName == "" {
        toast := ErrorToast("Please enter team name");
        return;
      }
      sent := sent + [Call(Tags.CreateTeam, JObj(map["name" := JStr(teamName), "members" := JArr([])]))];
      if reply.Failed? {
        toast := ErrorToast(ServerMessage(reply.error, "Failed to create team"));
        return;
      }
      toast := SuccessToast("Team created successfully");
      teamDialogOpen := false;
      teamName := "";
    }

    /** `handleDeleteTeam`, confirmed beforehand in the markup: one delete call. */
    method DeleteTeam(teamId: string, reply: Reply<()>) returns (toast: Toast)
      modifies this
      ensures sent == old(sent) + [Call(Tags.DeleteTeam, JStr(teamId))]
      ensures reply.Ok? ==> toast == SuccessToast("Team deleted successfully")
      ensures reply.Failed? ==> toast == ErrorToast(ServerMessage(reply.error, "Failed to delete team"))
      ensures teamDialogOpen == old(teamDialogOpen) && memberDialogOpen == old(memberDialogOpen)
      ensures selectedTeamId == old(selectedTeamId) && teamName == old(teamName)
      ensures memberName == old(memberName) && memberRole == old(memberRole)
      ensures memberCapacity == old(memberCapacity)
    {
      sent := sent + [Call(Tags.DeleteTeam, JStr(teamId))];
      if reply.Ok? {
        toast := SuccessToast("Team deleted successfully");
      } else {
        toast := ErrorToast(ServerMessage(reply.error, "Failed to delete team"));
      }
    }

    /**
     * `handleAddMember`: nothing is sent unless name and role are non-empty;
     * otherwise one add-member call for the selected team with the parsed
     * capacity. Success closes the dialog and restores the inputs to "", "" and
     * "5"; failure keeps them and shows the three-level error message.
     */
    method AddMember(reply: Reply<()>) returns (toast: Toast)
      modifies this
      ensures old(memberName) == "" || old(memberRole) == "" ==>
                toast == ErrorToast("Please fill all fields") && sent == old(sent) &&
                memberDialogOpen == old(memberDialogOpen) &&
                memberName == old(memberName) && memberRole == old(memberRole) &&
                memberCapacity == old(memberCapacity)
      ensures old(memberName) != "" && old(memberRole) != "" ==>
                sent == old(sent) + [Call(Tags.AddMemberToTeam, JObj(AddMemberArgument(
                                       old(selectedTeamId), MemberData(old(memberName), old(memberRole),
                                                                       old(memberCapacity)))))]
      ensures old(memberName) != "" && old(memberRole) != "" && reply.Ok? ==>
                toast == SuccessToast("Member added successfully") && !memberDialogOpen &&
                memberName == "" && memberRole == "" && memberCapacity == DefaultCapacityText
      ensures old(memberName) != "" && old(memberRole) != "" && reply.Failed? ==>
                toast == ErrorToast(ErrorMessage(reply.error, "Failed to add member")) &&
                memberDialogOpen == old(memberDialogOpen) &&
                memberName == old(memberName) && memberRole == old(memberRole) &&
                memberCapacity == old(memberCapacity)
      ensures teamDialogOpen == old(teamDialogOpen) && teamName == old(teamName)
      ensures selectedTeamId == old(selectedTeamId)
    {
      if memberName == "" || memberRole == "" {
        toast := ErrorToast("Please fill all fields");
        return;
      }
      var data := MemberData(memberName, memberRole, memberCapacity);
      sent := sent + [Call(Tags.AddMemberToTeam, JObj(AddMemberArgument(selectedTeamId, data)))];
      if reply.Failed? {
        toast := ErrorToast(ErrorMessage(reply.error, "Failed to add member"));
        return;
      }
      toast := SuccessToast("Member added successfully");
      memberDialogOpen := false;
      memberName, memberRole, memberCapacity := "", "", DefaultCapacityText;
    }

    /** `handleDeleteMember`, confirmed beforehand in the markup: one remove call. */
    method DeleteMember(teamId: string, memberId: string, reply: Reply<()>) returns (toast: Toast)
      modifies this
      ensures sent == old(sent) + [Call(Tags.DeleteTeamMember,
                                        JObj(map["teamId" := JStr(teamId), "memberId" := JStr(memberId)]))]
      ensures reply.Ok? ==> toast == SuccessToast("Member removed successfully")
      ensures reply.Failed? ==> toast == ErrorToast(ServerMessage(reply.error, "Failed to remove member"))
      ensures teamDialogOpen == old(teamDialogOpen) && memberDialogOpen == old(memberDialogOpen)
      ensures selectedTeamId == old(selectedTeamId) && teamName == old(teamName)
      ensures memberName == old(memberName) && memberRole == old(memberRole)
      ensures memberCapacity == old(memberCapacity)
    {
      sent := sent + [Call(Tags.DeleteTeamMember, JObj(map["teamId" := JStr(teamId), "memberId" := JStr(memberId)]))];
      if reply.Ok? {
        toast := SuccessToast("Member removed successfully");
      } else {
        toast := ErrorToast(ServerMessage(reply.error, "Failed to remove member"));
      }
    }
  }

  /**
   * Adding "Bob" to team "t1" with the untouched capacity input: one call whose
   * member data carries capacity 5, after which the inputs are back to their
   * initial text and no team's dialog is open.
   */
  method AddMemberScenario() returns (calls: seq<Call>, reset: bool, openForT1: bool)
    ensures |calls| == 1 && calls[0].op == Tags.AddMemberToTeam
    ensures calls[0].arg == JObj(AddMemberArgument("t1", map["name" := JStr("Bob"), "role" := JStr("QA"),
                                                              "capacity" := JNum(5)]))
    ensures reset && !openForT1
  {
    var page := new TeamsForm();
    page.MemberDialogChange("t1", true);
    page.SetMemberFields("Bob", "QA", DefaultCapacityText);
    CapacityIsNotBounded(5);
    assert Decimal(5) == DefaultCapacityText;
    var _ := page.AddMember(Ok(()));
    calls := page.sent;
    reset := page.memberName == "" && page.memberRole == "" && page.memberCapacity == DefaultCapacityText;
    openForT1 := page.MemberDialogOpenFor("t1");
  }
}
