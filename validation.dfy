/** `validateEnvironmentVariables` and `validateRequestBody` of
    api/jira-release.js: the checks made before any request is sent. Line
    numbers below refer to that file. */
module Validation {
  import opened Wrappers
  import opened JsValue
  import opened Errors
  import opened Text

  /** `process.env`: a name absent from the map is `undefined`. */
  type Env = map<string, string>

  /** The settings the webhook runs with, read from the environment. */
  datatype Config = Config(jiraBaseUrl: string, jiraEmail: string, jiraApiToken: string, slackWebhookUrl: string)

  const Required: seq<string> := ["JIRA_BASE_URL", "JIRA_EMAIL", "JIRA_API_TOKEN", "SLACK_WEBHOOK_URL"]

  /** `!!process.env[name]`: present and not empty. */
  predicate IsSet(env: Env, name: string) {
    name in env && env[name] != ""
  }

  /** `names.filter(n => !process.env[n])`. */
  function Unset(env: Env, names: seq<string>): seq<string> {
    if |names| == 0 then []
    else (if IsSet(env, names[0]) then [] else [names[0]]) + Unset(env, names[1..])
  }

  /** The names reported missing are exactly the unset ones among `names`. */
  lemma {:induction false} UnsetMembers(env: Env, names: seq<string>, x: string)
    ensures x in Unset(env, names) <==> x in names && !IsSet(env, x)
  {
    if |names| > 0 {
      UnsetMembers(env, names[1..], x);
      assert names == [names[0]] + names[1..];
    }
  }

  /** The filter keeps the order of `names`: it distributes over concatenation. */
  lemma {:induction false} UnsetAppend(env: Env, a: seq<string>, b: seq<string>)
    ensures Unset(env, a + b) == Unset(env, a) + Unset(env, b)
  {
    if |a| > 0 {
      assert (a + b)[1..] == a[1..] + b;
      UnsetAppend(env, a[1..], b);
    } else {
      assert a + b == b;
    }
  }

  predicate IsJiraBaseUrl(url: string) {
    StartsWith(url, "http://") || StartsWith(url, "https://")
  }

  predicate IsSlackWebhookUrl(url: string) {
    StartsWith(url, "https://hooks.slack.com/")
  }

  /** None of the variables in `Required` is missing. */
  predicate AllSet(env: Env) {
    && IsSet(env, "JIRA_BASE_URL") && IsSet(env, "JIRA_EMAIL")
    && IsSet(env, "JIRA_API_TOKEN") && IsSet(env, "SLACK_WEBHOOK_URL")
  }

  lemma NoneUnsetIffAllSet(env: Env)
    ensures Unset(env, Required) == [] <==> AllSet(env)
  {
    forall n | n in Required ensures n in Unset(env, Required) <==> !IsSet(env, n) {
      UnsetMembers(env, Required, n);
    }
    if Unset(env, Required) != [] {
      UnsetMembers(env, Required, Unset(env, Required)[0]);
    }
  }

  /** Lines 122-141. The source returns nothing on success; the model returns
      the four validated values. The rest of the webhook reads the same
      variables through constants captured when the module is loaded
      (lines 4-7); the model takes the environment to be unchanged since
      then, so this `Config` stands for those constants. */
  function ValidateEnvironment(env: Env): (r: Result<Config, Error>)
    ensures r.Ok? <==>
      AllSet(env) && IsJiraBaseUrl(env["JIRA_BASE_URL"]) && IsSlackWebhookUrl(env["SLACK_WEBHOOK_URL"])
    ensures r.Ok? ==>
      r.value == Config(env["JIRA_BASE_URL"], env["JIRA_EMAIL"], env["JIRA_API_TOKEN"], env["SLACK_WEBHOOK_URL"])
    ensures (r.Err? && r.error.MissingVariables?) <==> !AllSet(env)
    ensures (r.Err? && r.error.MissingVariables?) ==> r.error.names == Unset(env, Required)
    ensures r == Err(BadJiraBaseUrl) <==> AllSet(env) && !IsJiraBaseUrl(env["JIRA_BASE_URL"])
    ensures r == Err(BadSlackWebhookUrl) <==>
      AllSet(env) && IsJiraBaseUrl(env["JIRA_BASE_URL"]) && !IsSlackWebhookUrl(env["SLACK_WEBHOOK_URL"])
  {
    var missing := Unset(env, Required);
    NoneUnsetIffAllSet(env);
    if |missing| > 0 then
      Err(MissingVariables(missing))
    else if !IsJiraBaseUrl(env["JIRA_BASE_URL"]) then
      Err(BadJiraBaseUrl)
    else if !IsSlackWebhookUrl(env["SLACK_WEBHOOK_URL"]) then
      Err(BadSlackWebhookUrl)
    else
      Ok(Config(env["JIRA_BASE_URL"], env["JIRA_EMAIL"], env["JIRA_API_TOKEN"], env["SLACK_WEBHOOK_URL"]))
  }

  /** The missing names are listed in the order of `Required`: a name that
      comes earlier in `Required` comes earlier in the message. */
  lemma MissingInRequiredOrder(env: Env, i: nat, j: nat)
    requires i < j < |Required|
    requires !IsSet(env, Required[i]) && !IsSet(env, Required[j])
    ensures var ms := Unset(env, Required);
      exists p, q :: 0 <= p < q < |ms| && ms[p] == Required[i] && ms[q] == Required[j]
  {
    var front, back := Required[..j], Required[j..];
    assert Required == front + back;
    UnsetAppend(env, front, back);
    UnsetMembers(env, front, Required[i]);
    assert Required[i] in front;
    var ms1, ms2 := Unset(env, front), Unset(env, back);
    var p :| 0 <= p < |ms1| && ms1[p] == Required[i];
    assert back == [Required[j]] + back[1..];
    assert ms2[0] == Required[j];
    assert Unset(env, Required)[p] == Required[i];
    assert Unset(env, Required)[|ms1|] == Required[j];
  }

  /** Lines 143-153. */
  function ValidateRequestBody(body: Value): (r: Outcome<Error>)
    ensures r == Fail(BodyNotObject) <==> !(body.Arr? || body.Obj?)
    ensures r == Pass <==>
      && body.Obj? && "issue" in body.props
      && var issue := body.props["issue"];
         issue.Obj? && "key" in issue.props && Truthy(issue.props["key"])
    ensures r.Fail? ==> r.error == BodyNotObject || r.error == BodyWithoutIssueKey
  {
    if !Truthy(body) || !IsObjectType(body) then
      Fail(BodyNotObject)
    else
      // `body` is truthy here, and so is `body.issue` when its `key` is read:
      // neither read throws.
      PropOfTruthy(body, "issue");
      var issue := Prop(body, "issue").value;
      if !Truthy(issue) then Fail(BodyWithoutIssueKey)
      else
        PropOfTruthy(issue, "key");
        if !Truthy(Prop(issue, "key").value) then Fail(BodyWithoutIssueKey) else Pass
  }

  /** `body.issue.key`: truthy whenever the body passed validation. */
  function IssueKey(body: Value): (key: Value)
    ensures ValidateRequestBody(body).Pass? ==> Truthy(key)
  {
    Get(Get(body, "issue"), "key")
  }
}
