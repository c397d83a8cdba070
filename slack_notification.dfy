/** `sendSlackNotification` (api/jira-release.js, lines 55-120): the message
    posted to the Slack incoming webhook for a release, and the outcome of
    posting it. Line numbers below refer to api/jira-release.js. */
module SlackNotification {
  import opened Wrappers
  import opened JsValue
  import opened Errors
  import opened Http
  import opened Text
  import opened JiraIssue

  /** A Slack text object `{type, text}`; `kind` is its `type`. */
  datatype TextObject = TextObject(kind: string, text: string)

  /** An interactive element `{type: "button", text, url, action_id}`. */
  datatype Element = Button(text: TextObject, url: string, actionId: string)

  /** A layout block: `{type: "section", text}` or `{type: "actions", elements}`. */
  datatype Block = Section(text: TextObject) | Actions(elements: seq<Element>)

  /** The JSON body posted to the webhook: the fallback `text` and the `blocks`. */
  datatype SlackMessage = SlackMessage(text: string, blocks: seq<Block>)

  /** What `sendSlackNotification` resolves to on success. */
  datatype SendResult = SendResult(success: bool, message: string)

  const Rocket: string := "\U{1F680}"
  const Bullet: string := "\U{2022}"
  const IncludedHeading: string := "*Issues included in this release:*\n"
  const SentMessage: string := "Slack notification sent successfully"

  /** The fallback text, which is also the first line of the header section. */
  function Headline(d: IssueDetails): string {
    Rocket + " *New Release: " + ToText(d.key) + "*"
  }

  function HeaderText(d: IssueDetails): string {
    Headline(d) + "\n*" + ToText(d.summary) + "*"
  }

  /** The line listing one blocking issue. */
  function IssueLine(b: BlockingIssue): string {
    Bullet + " " + ToText(b.key) + ": " + ToText(b.summary)
  }

  /** `blockingIssues.map(...)`: one line per blocking issue, in order. */
  function IssueLines(bs: seq<BlockingIssue>): (lines: seq<string>)
    ensures |lines| == |bs|
    ensures forall k :: 0 <= k < |bs| ==> lines[k] == IssueLine(bs[k])
  {
    if |bs| == 0 then [] else [IssueLine(bs[0])] + IssueLines(bs[1..])
  }

  /** The lines of `IssueLines`, or the error the first template literal of
      line 70 that meets a value without a string form throws. */
  function RenderLines(bs: seq<BlockingIssue>): (r: Result<seq<string>, TypeError>)
    ensures r.Ok? <==> forall k :: 0 <= k < |bs| ==> Converts(bs[k].key) && Converts(bs[k].summary)
    ensures r.Ok? ==> r.value == IssueLines(bs)
    ensures r.Err? ==> r.error == CannotConvertToPrimitive
  {
    if |bs| == 0 then Ok([])
    else
      var key :- Render(bs[0].key);
      var summary :- Render(bs[0].summary);
      var rest :- RenderLines(bs[1..]);
      Ok([Bullet + " " + key + ": " + summary] + rest)
  }

  function IncludedText(bs: seq<BlockingIssue>): string {
    IncludedHeading + Join(IssueLines(bs), "\n")
  }

  function ViewButton(url: string): Element {
    Button(TextObject("plain_text", "View in Jira"), url, "view_jira_issue")
  }

  /** The shape of the block list: the header section first, the "included
      issues" section second exactly when there are blocking issues, and a
      single actions block with one button to the issue's URL last. */
  predicate WellShaped(d: IssueDetails, blocks: seq<Block>) {
    && |blocks| == (if |d.blockingIssues| == 0 then 2 else 3)
    && blocks[0] == Section(TextObject("mrkdwn", HeaderText(d)))
    && (|blocks| == 3 ==> blocks[1] == Section(TextObject("mrkdwn", IncludedText(d.blockingIssues))))
    && blocks[|blocks| - 1] == Actions([ViewButton(d.url)])
  }

  /** The values the message's template literals convert to strings: the
      issue's key and summary and, when there are blocking issues, the key
      and summary of each. */
  predicate Renderable(d: IssueDetails) {
    && Converts(d.key) && Converts(d.summary)
    && forall k :: 0 <= k < |d.blockingIssues| ==>
         Converts(d.blockingIssues[k].key) && Converts(d.blockingIssues[k].summary)
  }

  /** Lines 57-96: the block list, built by
      successive pushes, or the TypeError a template literal throws. */
  method ComposeBlocks(d: IssueDetails) returns (blocks: Result<seq<Block>, TypeError>)
    ensures blocks.Ok? <==> Renderable(d)
    ensures blocks.Ok? ==> WellShaped(d, blocks.value)
    ensures blocks.Err? ==> blocks.error == CannotConvertToPrimitive
  {
    var key :- Render(d.key);
    var summary :- Render(d.summary);
    var list := [Section(TextObject("mrkdwn", Rocket + " *New Release: " + key + "*\n*" + summary + "*"))];
    if |d.blockingIssues| > 0 {
      var lines :- RenderLines(d.blockingIssues);
      var blockingText := Join(lines, "\n");
      list := list + [Section(TextObject("mrkdwn", IncludedHeading + blockingText))];
    }
    list := list + [Actions([ViewButton(d.url)])];
    blocks := Ok(list);
  }

  /** The shape determines the block list completely. */
  lemma WellShapedIsUnique(d: IssueDetails, a: seq<Block>, b: seq<Block>)
    requires WellShaped(d, a) && WellShaped(d, b)
    ensures a == b
  {
    if |a| == 3 {
      assert a == [a[0], a[1], a[2]] && b == [b[0], b[1], b[2]];
    } else {
      assert a == [a[0], a[1]] && b == [b[0], b[1]];
    }
  }

  /** The "included issues" section lists the blocking issues one per line,
      in order: when no key or summary contains a newline, splitting the text
      after its heading at newlines gives back exactly their lines. */
  lemma {:induction false} IncludedLinesRecoverable(bs: seq<BlockingIssue>)
    requires |bs| > 0
    requires forall k :: 0 <= k < |bs| ==> '\n' !in ToText(bs[k].key) && '\n' !in ToText(bs[k].summary)
    ensures StartsWith(IncludedText(bs), IncludedHeading)
    ensures Split(IncludedText(bs)[|IncludedHeading|..], '\n') == IssueLines(bs)
  {
    var lines := IssueLines(bs);
    forall k | 0 <= k < |lines|
      ensures '\n' !in lines[k]
    {
      assert lines[k] == Bullet + " " + ToText(bs[k].key) + ": " + ToText(bs[k].summary);
    }
    assert IncludedText(bs)[|IncludedHeading|..] == Join(lines, "\n");
    SplitJoin(lines, '\n');
  }

  /** Lines 55-120: composes the message, posts it,
      and maps the webhook's reply to the outcome. `posted` is the body
      sent, absent when a template literal throws before anything is
      posted; `reply` is the webhook's answer to it. */
  method SendSlackNotification(d: IssueDetails, reply: Reply)
    returns (posted: Option<SlackMessage>, r: Result<SendResult, Error>)
    ensures posted.Some? <==> Renderable(d)
    ensures posted.Some? ==> posted.value.text == Headline(d) && WellShaped(d, posted.value.blocks)
    ensures r.Ok? <==> Renderable(d) && reply.Ok()
    ensures r.Ok? ==> r.value == SendResult(true, SentMessage)
    ensures !Renderable(d) ==> r == Err(Thrown(CannotConvertToPrimitive))
    ensures Renderable(d) && !reply.Ok() ==> r == Err(SlackWebhookError(reply.status, reply.statusText))
  {
    var blocks := ComposeBlocks(d);
    if blocks.Err? {
      return None, Err(Thrown(blocks.error));
    }
    // The key converted in the header, so the fallback text of line 99 converts too.
    posted := Some(SlackMessage(Headline(d), blocks.value));
    if !reply.Ok() {
      return posted, Err(SlackWebhookError(reply.status, reply.statusText));
    }
    r := Ok(SendResult(true, SentMessage));
  }
}
