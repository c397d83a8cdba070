/** The order in which the webhook handler (api/jira-release.js, lines
    173-211) runs the core for a POST request: validate the environment,
    then the body, then fetch the issue, then post to Slack; the first
    error thrown becomes a 500 response carrying its message. */
module ReleaseHandler {
  import opened Wrappers
  import opened JsValue
  import opened Errors
  import opened Http
  import opened JiraIssue
  import opened SlackNotification
  import opened Validation

  /** An outbound request. `GetIssue` is sent with Basic authentication
      built from `email` and `apiToken`. */
  datatype Call =
    | GetIssue(url: string, email: string, apiToken: string)
    | PostMessage(url: string, message: SlackMessage)

  datatype ResponseBody =
    | Released(message: string, key: Value, summary: Value)
    | Failure(error: string, message: string)

  datatype Response = Response(status: nat, body: ResponseBody)

  function Failed(e: Error): Response {
    Response(500, Failure("Internal server error", Message(e)))
  }

  /** Handles one POST with body `body` under environment `env`; `jiraReply`
      and `slackReply` are the answers the two outbound requests get.
      `calls` lists the requests made, in order. */
  method HandleRelease(env: Env, body: Value, jiraReply: Reply, slackReply: Reply)
    returns (calls: seq<Call>, response: Response)
    ensures ValidateEnvironment(env).Err? ==>
      calls == [] && response == Failed(ValidateEnvironment(env).error)
    ensures ValidateEnvironment(env).Ok? && ValidateRequestBody(body).Fail? ==>
      calls == [] && response == Failed(ValidateRequestBody(body).error)
    ensures ValidateEnvironment(env).Ok? && ValidateRequestBody(body).Pass? && !Converts(IssueKey(body)) ==>
      calls == [] && response == Failed(Thrown(CannotConvertToPrimitive))
    ensures ValidateEnvironment(env).Ok? && ValidateRequestBody(body).Pass? && Converts(IssueKey(body)) ==>
      var config := ValidateEnvironment(env).value;
      var details := IssueDetailsOf(config.jiraBaseUrl, jiraReply);
      && |calls| >= 1
      && calls[0] == GetIssue(IssueUrl(config.jiraBaseUrl, IssueKey(body)), config.jiraEmail, config.jiraApiToken)
      && (details.Err? ==> |calls| == 1 && response == Failed(details.error))
      && (details.Ok? && !Renderable(details.value) ==>
            |calls| == 1 && response == Failed(Thrown(CannotConvertToPrimitive)))
      && (details.Ok? && Renderable(details.value) ==>
            var d := details.value;
            && |calls| == 2 && calls[1].PostMessage?
            && calls[1].url == config.slackWebhookUrl
            && calls[1].message.text == Headline(d)
            && WellShaped(d, calls[1].message.blocks)
            && response == if slackReply.Ok()
                           then Response(200, Released("Release notification sent successfully", d.key, d.summary))
                           else Failed(SlackWebhookError(slackReply.status, slackReply.statusText)))
    ensures response.status == 200 <==> |calls| == 2 && slackReply.Ok()
  {
    calls := [];
    var config := ValidateEnvironment(env);
    if config.Err? {
      return calls, Failed(config.error);
    }
    var valid := ValidateRequestBody(body);
    if valid.Fail? {
      return calls, Failed(valid.error);
    }
    var baseUrl := config.value.jiraBaseUrl;
    var requested, details := GetJiraIssueDetails(baseUrl, IssueKey(body), jiraReply);
    if requested.Some? {
      calls := calls + [GetIssue(requested.value, config.value.jiraEmail, config.value.jiraApiToken)];
    }
    if details.Err? {
      return calls, Failed(details.error);
    }
    var posted, sent := SendSlackNotification(details.value, slackReply);
    if posted.Some? {
      calls := calls + [PostMessage(config.value.slackWebhookUrl, posted.value)];
    }
    if sent.Err? {
      return calls, Failed(sent.error);
    }
    response := Response(200, Released("Release notification sent successfully", details.value.key, details.value.summary));
  }
}
