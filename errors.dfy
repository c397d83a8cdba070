/** The errors the webhook throws, and the message each carries: the text the
    handler reports back to the caller. */
module Errors {
  import opened JsValue
  import Text

  datatype Error =
    | JiraApiError(status: nat, statusText: string)
    | InvalidJson(reason: string)
    | Thrown(typeError: TypeError)
    | SlackWebhookError(status: nat, statusText: string)
    | MissingVariables(names: seq<string>)
    | BadJiraBaseUrl
    | BadSlackWebhookUrl
    | BodyNotObject
    | BodyWithoutIssueKey

  function Message(e: Error): string {
    match e
    case JiraApiError(status, statusText) =>
      "Jira API error: " + Text.NatToDecimal(status) + " " + statusText
    case InvalidJson(reason) => reason
    case Thrown(typeError) => TypeErrorMessage(typeError)
    case SlackWebhookError(status, statusText) =>
      "Slack webhook error: " + Text.NatToDecimal(status) + " " + statusText
    case MissingVariables(names) =>
      "Missing required environment variables: " + Text.Join(names, ", ")
    case BadJiraBaseUrl =>
      "JIRA_BASE_URL must be a valid URL starting with http:// or https://"
    case BadSlackWebhookUrl => "SLACK_WEBHOOK_URL must be a valid Slack webhook URL"
    case BodyNotObject => "Request body must be a valid JSON object"
    case BodyWithoutIssueKey => "Request body must contain issue.key"
  }
}
