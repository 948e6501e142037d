/** The new-project form: the name and framework checks before navigating to the chat. */
module NewProject {
  import opened JsValues

  const NameError := "Please enter a project name"
  const FrameworkError := "Please select a framework"
  const ChatRoute := "/chat-interface"

  /** The deploy checks: a blank name (empty or only whitespace) is reported first, a missing
      framework second. */
  function DeployError(projectName: string, framework: string): (r: Option<string>)
    ensures r == Some(NameError) <==> AllWhitespace(projectName)
    ensures r == Some(FrameworkError) <==> !AllWhitespace(projectName) && framework == ""
    ensures r == None <==> !AllWhitespace(projectName) && framework != ""
  {
    TrimEmptyIff(projectName);
    if !Truthy(Trim(projectName)) then Some(NameError)
    else if !Truthy(framework) then Some(FrameworkError)
    else None
  }

  /** The new-project page's state and the routes pushed. */
  class NewProjectPage {
    var projectName: string
    var framework: string
    var error: string
    var navigations: seq<string>

    constructor ()
      ensures projectName == "" && framework == "" && error == "" && navigations == []
    {
      projectName, framework, error := "", "", "";
      navigations := [];
    }

    /** `handleDeploy`: a failed check sets its error; otherwise the error is cleared and the
        page moves to the chat, with no project id. The name and framework are not stored. */
    method HandleDeploy()
      modifies this
      ensures var check := DeployError(old(projectName), old(framework));
        && error == (if check.Some? then check.value else "")
        && navigations == old(navigations) + (if check.None? then [ChatRoute] else [])
      ensures projectName == old(projectName) && framework == old(framework)
    {
      if !Truthy(Trim(projectName)) {
        error := NameError;
        return;
      }
      if !Truthy(framework) {
        error := FrameworkError;
        return;
      }
      error := "";
      navigations := navigations + [ChatRoute];
    }
  }
}
