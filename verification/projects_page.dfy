/**
 * The projects page: the create-project dialog, project deletion and the
 * project card's team and description labels.
 */
module ProjectsPage {
  import opened Js
  import opened Domain
  import opened Notices
  import Tags

  /** One mutation call: the endpoint and its argument. */
  datatype Call = Call(op: Tags.Op, arg: Json)

  /** The create-project argument `{name, description, teamId}`. */
  function ProjectArgument(name: string, description: string, teamId: string): (j: Json)
    ensures j.JObj? && j.fields.Keys == {"name", "description", "teamId"}
    ensures j.fields["name"] == JStr(name) && j.fields["description"] == JStr(description)
    ensures j.fields["teamId"] == JStr(teamId)
  {
    JObj(map["name" := JStr(name), "description" := JStr(description), "teamId" := JStr(teamId)])
  }

  class ProjectForm {
    var dialogOpen: bool
    var projectName: string
    var projectDescription: string
    var selectedTeamId: string
    /** Every mutation the page has triggered, oldest first. */
    var sent: seq<Call>

    constructor ()
      ensures !dialogOpen && projectName == "" && projectDescription == "" && selectedTeamId == ""
      ensures sent == []
    {
      dialogOpen, projectName, projectDescription, selectedTeamId := false, "", "", "";
      sent := [];
    }

    /** The dialog's open state and its three inputs; closing does not clear them. */
    method SetForm(open: bool, name: string, description: string, teamId: string)
      modifies this
      ensures dialogOpen == open && projectName == name
      ensures projectDescription == description && selectedTeamId == teamId
      ensures sent == old(sent)
    {
      dialogOpen, projectName, projectDescription, selectedTeamId := open, name, description, teamId;
    }

    /**
     * `handleCreateProject`: nothing is sent unless name and team are
     * non-empty; otherwise one create call with the three fields. Success closes
     * the dialog and clears the fields; failure keeps everything.
     */
    method CreateProject(reply: Reply<()>) returns (toast: Toast)
      modifies this
      ensures old(projectName) == "" || old(selectedTeamId) == "" ==>
                toast == ErrorToast("Please fill all required fields") && sent == old(sent) &&
                dialogOpen == old(dialogOpen) && projectName == old(projectName) &&
                projectDescription == old(projectDescription) && selectedTeamId == old(selectedTeamId)
      ensures old(projectName) != "" && old(selectedTeamId) != "" ==>
                sent == old(sent) + [Call(Tags.CreateProject, ProjectArgument(old(projectName),
                                                                              old(projectDescription),
                                                                              old(selectedTeamId)))]
      ensures old(projectName) != "" && old(selectedTeamId) != "" && reply.Ok? ==>
                toast == SuccessToast("Project created successfully") && !dialogOpen &&
                projectName == "" && projectDescription == "" && selectedTeamId == ""
      ensures old(projectName) != "" && old(selectedTeamId) != "" && reply.Failed? ==>
                toast == ErrorToast(ServerMessage(reply.error, "Failed to create project")) &&
                dialogOpen == old(dialogOpen) && projectName == old(projectName) &&
                projectDescription == old(projectDescription) && selectedTeamId == old(selectedTeamId)
    {
      if projectName == "" || selectedTeamId == "" {
        toast := ErrorToast("Please fill all required fields");
        return;
      }
      sent := sent + [Call(Tags.CreateProject, ProjectArgument(projectName, projectDescription, selectedTeamId))];
      if reply.Failed? {
        toast := ErrorToast(ServerMessage(reply.error, "Failed to create project"));
        return;
      }
      toast := SuccessToast("Project created successfully");
      dialogOpen := false;
      projectName, projectDescription, selectedTeamId := "", "", "";
    }

    /** `handleDeleteProject`, confirmed beforehand in the markup: one delete call. */
    method DeleteProject(projectId: string, reply: Reply<()>) returns (toast: Toast)
      modifies this
      ensures sent == old(sent) + [Call(Tags.DeleteProject, JStr(projectId))]
      ensures reply.Ok? ==> toast == SuccessToast("Project and its tasks deleted successfully")
      ensures reply.Failed? ==> toast == ErrorToast(ServerMessage(reply.error, "Failed to delete project"))
      ensures dialogOpen == old(dialogOpen) && projectName == old(projectName)
      ensures projectDescription == old(projectDescription) && selectedTeamId == old(selectedTeamId)
    {
      sent := sent + [Call(Tags.DeleteProject, JStr(projectId))];
      if reply.Ok? {
        toast := SuccessToast("Project and its tasks deleted successfully");
      } else {
        toast := ErrorToast(ServerMessage(reply.error, "Failed to delete project"));
      }
    }
  }

  /**
   * A create that the server rejects can be retried as it is: the same call is
   * sent again, because the failed attempt left the form untouched.
   */
  method RetryScenario(e: ErrorInfo) returns (calls: seq<Call>)
    ensures |calls| == 2 && calls[0] == calls[1]
    ensures calls[0] == Call(Tags.CreateProject, ProjectArgument("Site", "", "t1"))
  {
    var page := new ProjectForm();
    page.SetForm(true, "Site", "", "t1");
    var _ := page.CreateProject(Failed(e));
    var _ := page.CreateProject(Ok(()));
    calls := page.sent;
  }

  /** A project card's team label: the team's name, or "Unknown" when it is missing or empty. */
  function TeamLabel(teams: seq<Team>, teamId: string): (shown: string)
    ensures shown != ""
    ensures (forall i :: 0 <= i < |teams| ==> teams[i].id != teamId) ==> shown == "Unknown"
    ensures shown != "Unknown" ==> exists i :: 0 <= i < |teams| && teams[i].id == teamId && teams[i].name == shown
    ensures forall i :: FirstMatch(teams, TeamKey, teamId, i) ==>
              shown == (if teams[i].name != "" then teams[i].name else "Unknown")
  {
    var t := Find(teams, TeamKey, teamId);
    FirstTruthy([if t.Some? then Some(t.value.name) else None], "Unknown")
  }

  /** A project card's description, with "No description" for an empty one. */
  function DescriptionLabel(p: Project): (shown: string)
    ensures shown != ""
    ensures p.description != "" ==> shown == p.description
    ensures p.description == "" ==> shown == "No description"
  {
    FirstTruthy([Some(p.description)], "No description")
  }
}
