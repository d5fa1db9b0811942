/**
 * The dashboard page: the bulk-reassign control and the member overload
 * badges of the team summary.
 */
module DashboardPage {
  import opened Js
  import opened Domain
  import opened Notices
  import TasksPage

  /** The body of a successful reassign answer; its `message` may be missing or empty. */
  datatype ReassignResult = ReassignResult(message: Option<string>)

  /** The success text: the server's message when it is non-empty, else a fixed one. */
  function ReassignSuccessText(r: ReassignResult): (t: string)
    ensures t != ""
    ensures Truthy(r.message) ==> t == r.message.value
    ensures !Truthy(r.message) ==> t == "Tasks reassigned successfully"
  {
    FirstTruthy([r.message], "Tasks reassigned successfully")
  }

  class Dashboard {
    /** The team chosen in the reassign select; "" until one is chosen. */
    var selectedTeamId: string
    /** The team ids of the reassign requests sent, oldest first. */
    var sent: seq<string>

    constructor ()
      ensures selectedTeamId == "" && sent == []
    {
      selectedTeamId, sent := "", [];
    }

    method SelectTeam(id: string)
      modifies this
      ensures selectedTeamId == id && sent == old(sent)
    {
      selectedTeamId := id;
    }

    /**
     * `handleReassign`: with no team selected nothing is sent; otherwise one
     * reassign request for the selected team, and the toast shows the success
     * text or the three-level error message.
     */
    method HandleReassign(reply: Reply<ReassignResult>) returns (toast: Toast)
      modifies this
      ensures selectedTeamId == old(selectedTeamId)
      ensures old(selectedTeamId) == "" ==> toast == ErrorToast("Please select a team first") && sent == old(sent)
      ensures old(selectedTeamId) != "" ==> sent == old(sent) + [old(selectedTeamId)]
      ensures old(selectedTeamId) != "" && reply.Ok? ==> toast == SuccessToast(ReassignSuccessText(reply.value))
      ensures old(selectedTeamId) != "" && reply.Failed? ==>
                toast == ErrorToast(ErrorMessage(reply.error, "Failed to reassign tasks"))
    {
      if selectedTeamId == "" {
        toast := ErrorToast("Please select a team first");
        return;
      }
      sent := sent + [selectedTeamId];
      match reply
      case Ok(r) => toast := SuccessToast(ReassignSuccessText(r));
      case Failed(e) => toast := ErrorToast(ErrorMessage(e, "Failed to reassign tasks"));
    }
  }

  /**
   * Pressing "Reassign" before choosing a team sends nothing; after choosing
   * "team-1" it sends exactly one request, for that team, whatever the answer.
   */
  method ReassignScenario(reply: Reply<ReassignResult>) returns (early: Toast, later: Toast, requests: seq<string>)
    ensures early == ErrorToast("Please select a team first")
    ensures requests == ["team-1"]
    ensures later.SuccessToast? <==> reply.Ok?
  {
    var page := new Dashboard();
    early := page.HandleReassign(reply);
    page.SelectTeam("team-1");
    later := page.HandleReassign(reply);
    requests := page.sent;
  }

  /** The team summary's test: strictly over capacity. */
  predicate IsOverloaded(m: Member): (over: bool)
    ensures over <==> TasksPage.AtCapacity(m) && m.currentTasks != m.capacity
  {
    m.currentTasks > m.capacity
  }

  /** A member card's border class and badge variant. */
  datatype CardStyle = CardStyle(border: string, badge: string)

  function MemberCard(m: Member): (s: CardStyle)
    ensures IsOverloaded(m) <==> s == CardStyle("border-red-500 border-2", "destructive")
    ensures !IsOverloaded(m) <==> s == CardStyle("", "default")
  {
    if IsOverloaded(m) then CardStyle("border-red-500 border-2", "destructive") else CardStyle("", "default")
  }

  /**
   * The two pages disagree exactly at capacity: a member with as many tasks as
   * capacity raises the task form's warning, yet the dashboard shows a plain
   * card. Above capacity both agree.
   */
  lemma AtCapacityWarnsButIsNotFlagged(team: Team, i: nat)
    requires i < |team.members|
    requires forall j :: 0 <= j < i ==> team.members[j].id != team.members[i].id
    ensures var m := team.members[i];
      m.currentTasks == m.capacity ==>
        TasksPage.CapacityVerdict(team, m.id).show && MemberCard(m) == CardStyle("", "default")
    ensures var m := team.members[i];
      IsOverloaded(m) ==> TasksPage.CapacityVerdict(team, m.id).show &&
                          TasksPage.CapacityVerdict(team, m.id).member == Some(m)
  {
    var m := team.members[i];
    var w := TasksPage.CapacityVerdict(team, m.id);
    if TasksPage.AtCapacity(m) {
      assert w.show;
      var k :| 0 <= k < |team.members| && team.members[k].id == m.id && TasksPage.AtCapacity(team.members[k]) &&
               forall j :: 0 <= j < k ==> team.members[j].id != m.id;
      assert k == i;
    }
  }
}
