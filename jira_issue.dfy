/** `getJiraIssueDetails` (api/jira-release.js, lines 9-53): turning the
    tracker's answer to
    `GET {JIRA_BASE_URL}/rest/api/3/issue/{key}?expand=issuelinks` into the
    issue's key, summary, browse URL and the issues that block it. Line
    numbers below refer to api/jira-release.js. */
module JiraIssue {
  import opened Wrappers
  import opened JsValue
  import opened Errors
  import opened Http

  /** One entry of `blockingIssues`: the linked issue's key and summary, as
      found in the response (any value, not necessarily a string). */
  datatype BlockingIssue = BlockingIssue(key: Value, summary: Value)

  /** What `getJiraIssueDetails` returns. */
  datatype IssueDetails =
    IssueDetails(key: Value, summary: Value, url: string, blockingIssues: seq<BlockingIssue>)

  // ---------------------------------------------------------------------
  // Reference definitions: which links are kept, what is kept of them, and
  // which links make the loop throw, stated without evaluation order.

  /** `link.type.name === 'Blocks' && link.inwardIssue` holds. */
  predicate IsBlockingLink(link: Value) {
    Get(Get(link, "type"), "name") == Str("Blocks") && Truthy(Get(link, "inwardIssue"))
  }

  /** The entry pushed for a blocking link. */
  function EntryOf(link: Value): BlockingIssue {
    var inward := Get(link, "inwardIssue");
    BlockingIssue(Get(inward, "key"), Get(Get(inward, "fields"), "summary"))
  }

  /** A link on which the loop body throws: the link itself or its `type` is
      missing, or it is a blocking link whose `inwardIssue.fields` is missing. */
  predicate IsMalformedLink(link: Value) {
    || Nothing(link)
    || Nothing(Get(link, "type"))
    || (IsBlockingLink(link) && Nothing(Get(Get(link, "inwardIssue"), "fields")))
  }

  /** The blocking links, in the order the tracker listed them. */
  function BlockingLinks(links: seq<Value>): seq<Value> {
    if |links| == 0 then []
    else (if IsBlockingLink(links[0]) then [links[0]] else []) + BlockingLinks(links[1..])
  }

  function Entries(links: seq<Value>): (r: seq<BlockingIssue>)
    ensures |r| == |links|
    ensures forall k :: 0 <= k < |links| ==> r[k] == EntryOf(links[k])
  {
    if |links| == 0 then [] else [EntryOf(links[0])] + Entries(links[1..])
  }

  // ---------------------------------------------------------------------
  // The loop of lines 32-40 as JavaScript evaluates it.

  /** One iteration of the loop body: the entry it pushes, if any, or the
      error it throws. Once `link.type` has been read, `link` is neither `undefined` nor
      `null`, so `link.inwardIssue` cannot throw; once `link.inwardIssue` is
      known truthy, neither can `link.inwardIssue.key` nor
      `link.inwardIssue.fields`. Those reads are `Get`s. */
  function LinkStep(link: Value): Result<Option<BlockingIssue>, TypeError> {
    var linkType :- Prop(link, "type");
    var name :- Prop(linkType, "name");
    var inward := Get(link, "inwardIssue");
    if name == Str("Blocks") && Truthy(inward) then
      var summary :- Prop(Get(inward, "fields"), "summary");
      Ok(Some(BlockingIssue(Get(inward, "key"), summary)))
    else
      Ok(None)
  }

  function OptionToSeq<T>(o: Option<T>): seq<T> {
    if o.Some? then [o.value] else []
  }

  /** The whole loop: `blockingIssues` after visiting `links`, or the error of
      the first iteration that throws. */
  function CollectBlocking(links: seq<Value>): Result<seq<BlockingIssue>, TypeError> {
    if |links| == 0 then Ok([])
    else
      var acc :- CollectBlocking(links[..|links| - 1]);
      var step :- LinkStep(links[|links| - 1]);
      Ok(acc + OptionToSeq(step))
  }

  /** The loop body throws exactly on malformed links, and otherwise pushes
      the entry of a blocking link and nothing for any other link. */
  lemma LinkStepSpec(link: Value)
    ensures LinkStep(link).Err? <==> IsMalformedLink(link)
    ensures LinkStep(link).Ok? ==>
      LinkStep(link).value == if IsBlockingLink(link) then Some(EntryOf(link)) else None
  {
  }

  /** Filtering preserves order: it distributes over concatenation. */
  lemma {:induction false} BlockingLinksAppend(a: seq<Value>, b: seq<Value>)
    ensures BlockingLinks(a + b) == BlockingLinks(a) + BlockingLinks(b)
  {
    if |a| > 0 {
      assert (a + b)[1..] == a[1..] + b;
      BlockingLinksAppend(a[1..], b);
    } else {
      assert a + b == b;
    }
  }

  /** A link survives the filter exactly when it is a blocking link. */
  lemma {:induction false} BlockingLinksMembers(links: seq<Value>, x: Value)
    ensures x in BlockingLinks(links) <==> x in links && IsBlockingLink(x)
  {
    if |links| > 0 {
      BlockingLinksMembers(links[1..], x);
      assert links == [links[0]] + links[1..];
    }
  }

  lemma EntriesAppend(a: seq<Value>, b: seq<Value>)
    ensures Entries(a + b) == Entries(a) + Entries(b)
  {
  }

  /** The loop succeeds exactly when no link is malformed. */
  lemma {:induction false} CollectBlockingOkIff(links: seq<Value>)
    ensures CollectBlocking(links).Ok? <==>
      forall k :: 0 <= k < |links| ==> !IsMalformedLink(links[k])
  {
    if |links| > 0 {
      var init, last := links[..|links| - 1], links[|links| - 1];
      assert links == init + [last];
      CollectBlockingOkIff(init);
      LinkStepSpec(last);
    }
  }

  /** A loop that succeeds has pushed the entries of the blocking links, in
      their original order, and nothing else. */
  lemma {:induction false} CollectBlockingValue(links: seq<Value>)
    requires CollectBlocking(links).Ok?
    ensures CollectBlocking(links).value == Entries(BlockingLinks(links))
  {
    if |links| > 0 {
      var init, last := links[..|links| - 1], links[|links| - 1];
      assert links == init + [last];
      CollectBlockingValue(init);
      LinkStepSpec(last);
      BlockingLinksAppend(init, [last]);
      EntriesAppend(BlockingLinks(init), BlockingLinks([last]));
    }
  }

  /** A loop that throws throws the error of its first malformed link. */
  lemma {:induction false} CollectBlockingFirstError(links: seq<Value>)
    requires CollectBlocking(links).Err?
    ensures exists k ::
      && 0 <= k < |links| && IsMalformedLink(links[k])
      && (forall j :: 0 <= j < k ==> !IsMalformedLink(links[j]))
      && CollectBlocking(links).error == LinkStep(links[k]).error
  {
    var init, last := links[..|links| - 1], links[|links| - 1];
    assert links == init + [last];
    if CollectBlocking(init).Err? {
      CollectBlockingFirstError(init);
      var k :| 0 <= k < |init| && IsMalformedLink(init[k]) &&
        (forall j :: 0 <= j < k ==> !IsMalformedLink(init[j])) &&
        CollectBlocking(init).error == LinkStep(init[k]).error;
      assert links[k] == init[k];
    } else {
      CollectBlockingOkIff(init);
      LinkStepSpec(last);
      assert IsMalformedLink(links[|links| - 1]);
    }
  }

  /** Once a prefix of the links throws, so does the whole loop, with the same error. */
  lemma {:induction false} CollectBlockingPrefixError(links: seq<Value>, i: nat)
    requires i <= |links|
    requires CollectBlocking(links[..i]).Err?
    ensures CollectBlocking(links) == CollectBlocking(links[..i])
    decreases |links| - i
  {
    if i < |links| {
      assert links[..i + 1][..i] == links[..i];
      CollectBlockingPrefixError(links, i + 1);
    } else {
      assert links[..i] == links;
    }
  }

  /** The `for...of` loop of lines 32-40, pushing onto `blockingIssues`. */
  method ExtractBlockingIssues(links: seq<Value>) returns (r: Result<seq<BlockingIssue>, TypeError>)
    ensures r == CollectBlocking(links)
  {
    var blockingIssues: seq<BlockingIssue> := [];
    var i := 0;
    while i < |links|
      invariant 0 <= i <= |links|
      invariant CollectBlocking(links[..i]) == Ok(blockingIssues)
    {
      var link := links[i];
      ghost var upTo := links[..i + 1];
      assert upTo[..|upTo| - 1] == links[..i] && upTo[|upTo| - 1] == link;
      if CollectBlocking(upTo).Err? {
        CollectBlockingPrefixError(links, i + 1);
      }
      ghost var before := blockingIssues;
      var linkType :- Prop(link, "type");
      var name :- Prop(linkType, "name");
      var inward := Get(link, "inwardIssue");
      if name == Str("Blocks") && Truthy(inward) {
        var summary :- Prop(Get(inward, "fields"), "summary");
        blockingIssues := blockingIssues + [BlockingIssue(Get(inward, "key"), summary)];
      }
      assert LinkStep(link).Ok? && blockingIssues == before + OptionToSeq(LinkStep(link).value);
      i := i + 1;
    }
    assert links[..i] == links;
    r := Ok(blockingIssues);
  }

  // ---------------------------------------------------------------------
  // The whole of getJiraIssueDetails, given the response.

  /** The URL the issue with key `key` is requested from (line 12), when
      `key` converts to a string. */
  function IssueUrl(baseUrl: string, key: Value): string {
    baseUrl + "/rest/api/3/issue/" + ToText(key) + "?expand=issuelinks"
  }


  /** The blocking issues of an issue whose `fields.issuelinks` is `links`:
      none when `links` is falsy, otherwise those the loop collects. */
  function LinksToBlocking(links: Value): Result<seq<BlockingIssue>, TypeError> {
    if !Truthy(links) then Ok([])
    else
      var visited :- Iterated(links, "issue.fields.issuelinks");
      CollectBlocking(visited)
  }

  /** The value `getJiraIssueDetails` resolves to, or the error it throws,
      when the tracker answers `reply`. */
  function IssueDetailsOf(baseUrl: string, reply: Reply): Result<IssueDetails, Error> {
    if !reply.Ok() then Err(JiraApiError(reply.status, reply.statusText))
    else if reply.body.Err? then Err(InvalidJson(reply.body.error))
    else
      var issue := reply.body.value;
      match Prop(issue, "fields")
      case Err(e) => Err(Thrown(e))
      case Ok(fields) =>
        match Prop(fields, "issuelinks")
        case Err(e) => Err(Thrown(e))
        case Ok(links) =>
          match LinksToBlocking(links)
          case Err(e) => Err(Thrown(e))
          case Ok(blocking) =>
            var key := Get(issue, "key");
            match Render(key)
            case Err(e) => Err(Thrown(e))
            case Ok(keyText) =>
              Ok(IssueDetails(key, Get(fields, "summary"), baseUrl + "/browse/" + keyText, blocking))
  }

  /** The whole of `getJiraIssueDetails(issueKey)`: `requested` is the URL
      the issue is requested from, absent when the template literal of line
      12 throws before any request is made; `reply` is the answer to the
      request. */
  method GetJiraIssueDetails(baseUrl: string, issueKey: Value, reply: Reply)
    returns (requested: Option<string>, r: Result<IssueDetails, Error>)
    ensures requested.Some? <==> Converts(issueKey)
    ensures requested.Some? ==> requested.value == IssueUrl(baseUrl, issueKey)
    ensures !Converts(issueKey) ==> r == Err(Thrown(CannotConvertToPrimitive))
    ensures Converts(issueKey) ==> r == IssueDetailsOf(baseUrl, reply)
  {
    var keyText := Render(issueKey);
    if keyText.Err? {
      return None, Err(Thrown(keyText.error));
    }
    requested := Some(baseUrl + "/rest/api/3/issue/" + keyText.value + "?expand=issuelinks");
    if !reply.Ok() {
      return requested, Err(JiraApiError(reply.status, reply.statusText));
    }
    if reply.body.Err? {
      return requested, Err(InvalidJson(reply.body.error));
    }
    var issue := reply.body.value;
    var fields := Prop(issue, "fields");
    if fields.Err? {
      return requested, Err(Thrown(fields.error));
    }
    var links := Prop(fields.value, "issuelinks");
    if links.Err? {
      return requested, Err(Thrown(links.error));
    }
    var blockingIssues: seq<BlockingIssue> := [];
    if Truthy(links.value) {
      var visited := Iterated(links.value, "issue.fields.issuelinks");
      if visited.Err? {
        return requested, Err(Thrown(visited.error));
      }
      var collected := ExtractBlockingIssues(visited.value);
      if collected.Err? {
        return requested, Err(Thrown(collected.error));
      }
      blockingIssues := collected.value;
    }
    var key := Render(Get(issue, "key"));
    if key.Err? {
      return requested, Err(Thrown(key.error));
    }
    r := Ok(IssueDetails(Get(issue, "key"), Get(fields.value, "summary"), baseUrl + "/browse/" + key.value, blockingIssues));
  }

  // ---------------------------------------------------------------------
  // What getJiraIssueDetails promises.

  /** A response that is not OK is an error carrying its status, and gives no details. */
  lemma NotOkIsJiraApiError(baseUrl: string, reply: Reply)
    requires !reply.Ok()
    ensures IssueDetailsOf(baseUrl, reply) == Err(JiraApiError(reply.status, reply.statusText))
  {
  }

  /** Details are only produced from an OK response with a JSON body; their
      key and summary are the issue's, the URL is its browse URL, and the
      blocking issues are exactly the entries of its blocking links, in order. */
  lemma {:induction false} DetailsOfIssue(baseUrl: string, reply: Reply)
    requires IssueDetailsOf(baseUrl, reply).Ok?
    ensures reply.Ok() && reply.body.Ok?
    ensures var issue, d := reply.body.value, IssueDetailsOf(baseUrl, reply).value;
      var links := Get(Get(issue, "fields"), "issuelinks");
      && d.key == Get(issue, "key")
      && Converts(d.key)
      && d.summary == Get(Get(issue, "fields"), "summary")
      && d.url == baseUrl + "/browse/" + ToText(d.key)
      && d.blockingIssues == (if links.Arr? then Entries(BlockingLinks(links.elems)) else [])
  {
    var links := Get(Get(reply.body.value, "fields"), "issuelinks");
    if Truthy(links) && (links.Arr? || links.Str?) {
      var visited := Iterated(links, "issue.fields.issuelinks").value;
      CollectBlockingOkIff(visited);
      CollectBlockingValue(visited);
    }
  }

  /** An issue without `issuelinks` (or with an empty value there) has no
      blocking issues; its details are produced exactly when its key converts. */
  lemma AbsentLinksGiveNoBlocking(baseUrl: string, reply: Reply)
    requires reply.Ok() && reply.body.Ok?
    requires !Nothing(reply.body.value) && !Nothing(Get(reply.body.value, "fields"))
    requires !Truthy(Get(Get(reply.body.value, "fields"), "issuelinks"))
    ensures IssueDetailsOf(baseUrl, reply).Ok? <==> Converts(Get(reply.body.value, "key"))
    ensures IssueDetailsOf(baseUrl, reply).Ok? ==> IssueDetailsOf(baseUrl, reply).value.blockingIssues == []
  {
  }

  /** Exactly when details are produced: an OK response whose JSON body has
      `fields`, whose `fields.issuelinks` is falsy or an array without
      malformed links, and whose `key` converts to a string. */
  lemma {:induction false} IssueDetailsSucceedsIff(baseUrl: string, reply: Reply)
    ensures IssueDetailsOf(baseUrl, reply).Ok? <==>
      && reply.Ok() && reply.body.Ok?
      && !Nothing(reply.body.value)
      && !Nothing(Get(reply.body.value, "fields"))
      && Converts(Get(reply.body.value, "key"))
      && var links := Get(Get(reply.body.value, "fields"), "issuelinks");
         (!Truthy(links) ||
          (links.Arr? && forall k :: 0 <= k < |links.elems| ==> !IsMalformedLink(links.elems[k])))
  {
    if reply.Ok() && reply.body.Ok? && !Nothing(reply.body.value) && !Nothing(Get(reply.body.value, "fields")) {
      var links := Get(Get(reply.body.value, "fields"), "issuelinks");
      if Truthy(links) && (links.Arr? || links.Str?) {
        CollectBlockingOkIff(Iterated(links, "issue.fields.issuelinks").value);
        if links.Str? {
          assert CodePoints(links.s)[0] == Str([links.s[0]]);
          assert IsMalformedLink(CodePoints(links.s)[0]);
        }
      }
    }
  }
}
