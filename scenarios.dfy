/** Worked cases: a concrete tracker response carried through extraction and
    composition, and a request body whose key has no string form. */
module Scenarios {
  import opened Wrappers
  import opened JsValue
  import opened Http
  import opened JiraIssue
  import opened SlackNotification
  import opened Validation

  const BaseUrl: string := "https://example.atlassian.net"

  function Link(typeName: string, direction: string, key: string, summary: string): Value {
    Obj(map[
      "type" := Obj(map["name" := Str(typeName)]),
      direction := Obj(map["key" := Str(key), "fields" := Obj(map["summary" := Str(summary)])])
    ])
  }

  /** Blocked by PROJ-2, blocking PROJ-3, related to PROJ-4. */
  const Links: seq<Value> := [
    Link("Blocks", "inwardIssue", "PROJ-2", "Fix login"),
    Link("Blocks", "outwardIssue", "PROJ-3", "Later work"),
    Link("Relates", "inwardIssue", "PROJ-4", "Docs")
  ]

  const Fields: Value := Obj(map["summary" := Str("Release 1.0"), "issuelinks" := Arr(Links)])

  const Issue: Value := Obj(map["key" := Str("PROJ-1"), "fields" := Fields])

  lemma IssueReadings()
    ensures Get(Issue, "key") == Str("PROJ-1")
    ensures Get(Issue, "fields") == Fields
    ensures Get(Fields, "issuelinks") == Arr(Links)
  {
  }

  lemma LinksAreWellFormed()
    ensures forall k :: 0 <= k < |Links| ==> !IsMalformedLink(Links[k])
  {
    assert Get(Links[1], "inwardIssue") == Undefined;
    assert Get(Get(Links[2], "type"), "name") == Str("Relates");
  }

  lemma OnlyFirstLinkBlocks()
    ensures Entries(BlockingLinks(Links)) == [BlockingIssue(Str("PROJ-2"), Str("Fix login"))]
  {
    assert IsBlockingLink(Links[0]);
    assert Get(Links[1], "inwardIssue") == Undefined;
    assert !IsBlockingLink(Links[1]);
    assert Get(Get(Links[2], "type"), "name") == Str("Relates");
    assert Links[1..][1..] == [Links[2]];
    assert BlockingLinks(Links) == [Links[0]];
  }

  /** Only the inward "Blocks" link is kept. */
  lemma OneInwardBlocker()
    ensures var r := IssueDetailsOf(BaseUrl, Reply(200, "OK", Ok(Issue)));
      && r.Ok?
      && r.value.key == Str("PROJ-1")
      && r.value.url == "https://example.atlassian.net/browse/PROJ-1"
      && r.value.blockingIssues == [BlockingIssue(Str("PROJ-2"), Str("Fix login"))]
  {
    var reply := Reply(200, "OK", Ok(Issue));
    IssueReadings();
    LinksAreWellFormed();
    OnlyFirstLinkBlocks();
    IssueDetailsSucceedsIff(BaseUrl, reply);
    DetailsOfIssue(BaseUrl, reply);
  }

  /** The one blocking issue is listed on one line under the heading. */
  lemma OneLineListed()
    ensures IncludedText([BlockingIssue(Str("PROJ-2"), Str("Fix login"))])
         == "*Issues included in this release:*\n" + Bullet + " PROJ-2: Fix login"
  {
  }

  /** A 404 from the tracker gives no details. */
  lemma NotFoundGivesNoDetails()
    ensures IssueDetailsOf(BaseUrl, Reply(404, "Not Found", Ok(Null)))
      == Err(Errors.JiraApiError(404, "Not Found"))
  {
  }

  /** The body `{"issue":{"key":{"toString":1}}}` passes validation, but its
      key has no string form: building the request URL throws before
      anything is sent. */
  lemma KeyWithOwnToString()
    ensures var body := Obj(map["issue" := Obj(map["key" := Obj(map["toString" := Number(1)])])]);
      && ValidateRequestBody(body).Pass?
      && !Converts(IssueKey(body))
      && Render(IssueKey(body)) == Err(CannotConvertToPrimitive)
  {
  }

  /** An array renders through `join`: `null` as the empty string, and an
      element without a string form makes the whole conversion throw. */
  lemma ArrayRendering()
    ensures Render(Arr([Str("a"), Null, Number(7)])) == Ok("a,,7")
    ensures Render(Arr([Str("a"), Obj(map["toString" := Null])])) == Err(CannotConvertToPrimitive)
  {
    var v := Arr([Str("a"), Null, Number(7)]);
    assert Render(Number(7)) == Ok("7") by {
      assert Text.Digit(7) == '7';
    }
    assert RenderElements(v, 2) == Ok("7");
    assert v.elems[1].Null? && v.elems[0] == Str("a");
    assert "" + "," + "7" == ",7";
    assert RenderElements(v, 1) == Ok(",7");
    assert "a" + "," + ",7" == "a,,7";
  }
}
