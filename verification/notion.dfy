/** The read side: decoding a Notion database-query result into the
    site's flat `Project` records (src/lib/notion.ts). */
module Notion {
  import opened Wrappers

  /** A project as the site renders it. */
  datatype Project = Project(
    id: string,
    name: string,
    description: string,
    agency: string,
    client: string,
    roles: seq<string>,
    technologies: seq<string>,
    year: Option<int>,
    url: string)

  /** One rich-text span as Notion returns it; only `plain_text` is read. */
  datatype RichText = RichText(plainText: string)

  /** One tag of a multi-select property; only `name` is read. */
  datatype MultiSelectOption = MultiSelectOption(name: string)

  /** The type-tagged containers around each property value. */
  datatype TitleProperty = TitleProperty(title: seq<RichText>)
  datatype RichTextProperty = RichTextProperty(richText: seq<RichText>)
  datatype MultiSelectProperty = MultiSelectProperty(multiSelect: seq<MultiSelectOption>)
  datatype NumberProperty = NumberProperty(number: Option<int>)
  datatype UrlProperty = UrlProperty(url: Option<string>)

  /** The property bag of a page: every property may be absent. */
  datatype PageProperties = PageProperties(
    name: Option<TitleProperty>,
    description: Option<RichTextProperty>,
    agency: Option<RichTextProperty>,
    client: Option<RichTextProperty>,
    roles: Option<MultiSelectProperty>,
    technologies: Option<MultiSelectProperty>,
    year: Option<NumberProperty>,
    link: Option<UrlProperty>)

  datatype NotionPage = NotionPage(id: string, properties: PageProperties)

  /** A page with no properties at all. */
  const EmptyProperties := PageProperties(None, None, None, None, None, None, None, None)

  // ---------------------------------------------------------------------
  // Rich text
  // ---------------------------------------------------------------------

  /** Sum of the lengths of the spans' plain text. */
  function TotalLength(spans: seq<RichText>): nat
  {
    if |spans| == 0 then 0 else |spans[0].plainText| + TotalLength(spans[1..])
  }

  /** Where span `i` starts in the joined text: the length of all spans before it. */
  function Offset(spans: seq<RichText>, i: nat): nat
    requires i <= |spans|
  {
    TotalLength(spans[..i])
  }

  /** `spans.map(t => t.plain_text).join('')`. */
  function JoinPlainText(spans: seq<RichText>): string
  {
    if |spans| == 0 then "" else spans[0].plainText + JoinPlainText(spans[1..])
  }

  /** The start of span `i` is the length of the first span plus the start of
      span `i - 1` in the rest. */
  lemma {:induction false} OffsetStep(spans: seq<RichText>, i: nat)
    requires 0 < i <= |spans|
    ensures Offset(spans, i) == |spans[0].plainText| + Offset(spans[1..], i - 1)
  {
    var prefix := spans[..i];
    assert prefix[0] == spans[0];
    assert prefix[1..] == spans[1..][..i - 1];
  }

  /** The joined text lays the spans out end to end, in order: its length is
      the total length and span `i` occupies exactly the slice starting at
      its offset. Length and layout together determine the text. */
  lemma {:induction false} JoinPlainTextLayout(spans: seq<RichText>)
    ensures |JoinPlainText(spans)| == TotalLength(spans)
    ensures forall i :: 0 <= i < |spans| ==>
              && Offset(spans, i) + |spans[i].plainText| <= |JoinPlainText(spans)|
              && JoinPlainText(spans)[Offset(spans, i) .. Offset(spans, i) + |spans[i].plainText|]
                 == spans[i].plainText
  {
    if |spans| > 0 {
      var head := spans[0].plainText;
      var rest := spans[1..];
      JoinPlainTextLayout(rest);
      var joined := JoinPlainText(spans);
      assert joined == head + JoinPlainText(rest);
      forall i | 0 <= i < |spans|
        ensures Offset(spans, i) + |spans[i].plainText| <= |joined|
        ensures joined[Offset(spans, i) .. Offset(spans, i) + |spans[i].plainText|] == spans[i].plainText
      {
        if i == 0 {
          assert spans[..0] == [];
        } else {
          OffsetStep(spans, i);
          assert spans[i] == rest[i - 1];
          var k := Offset(rest, i - 1);
          var m := |rest[i - 1].plainText|;
          assert joined[|head| + k .. |head| + k + m] == JoinPlainText(rest)[k .. k + m];
        }
      }
    }
  }

  /** `getRichText`: absent or empty span lists give "", otherwise the spans'
      plain text laid out end to end. */
  function GetRichText(items: Option<seq<RichText>>): (r: string)
    ensures items.None? || |items.value| == 0 ==> r == ""
    ensures items.Some? ==> |r| == TotalLength(items.value)
    ensures items.Some? ==>
              forall i :: 0 <= i < |items.value| ==>
                && Offset(items.value, i) + |items.value[i].plainText| <= |r|
                && r[Offset(items.value, i) .. Offset(items.value, i) + |items.value[i].plainText|]
                   == items.value[i].plainText
  {
    if items.None? || |items.value| == 0 then ""
    else
      JoinPlainTextLayout(items.value);
      JoinPlainText(items.value)
  }

  // ---------------------------------------------------------------------
  // Multi-select
  // ---------------------------------------------------------------------

  /** `tags.map(s => s.name)`. */
  function Names(tags: seq<MultiSelectOption>): (r: seq<string>)
    ensures |r| == |tags|
    ensures forall i :: 0 <= i < |tags| ==> r[i] == tags[i].name
  {
    if |tags| == 0 then [] else [tags[0].name] + Names(tags[1..])
  }

  /** `getMultiSelect`: absent or empty tag lists give [], otherwise the tag
      names in the same order. */
  function GetMultiSelect(items: Option<seq<MultiSelectOption>>): (r: seq<string>)
    ensures items.None? ==> r == []
    ensures items.Some? ==> |r| == |items.value|
    ensures items.Some? ==> forall i :: 0 <= i < |items.value| ==> r[i] == items.value[i].name
  {
    if items.None? || |items.value| == 0 then [] else Names(items.value)
  }

  // ---------------------------------------------------------------------
  // Page transformation
  // ---------------------------------------------------------------------

  /** `props.Name?.title` */
  function TitleSpans(p: Option<TitleProperty>): Option<seq<RichText>>
  {
    if p.Some? then Some(p.value.title) else None
  }

  /** `props.X?.rich_text` */
  function RichTextSpans(p: Option<RichTextProperty>): Option<seq<RichText>>
  {
    if p.Some? then Some(p.value.richText) else None
  }

  /** `props.X?.multi_select` */
  function Tags(p: Option<MultiSelectProperty>): Option<seq<MultiSelectOption>>
  {
    if p.Some? then Some(p.value.multiSelect) else None
  }

  /** `props.Year?.number ?? null`: `??` only replaces undefined and null. */
  function YearOf(p: Option<NumberProperty>): Option<int>
  {
    if p.Some? then p.value.number else None
  }

  /** `props.Link?.url || ''`: `||` also replaces the empty string, which
      here gives the same value back. */
  function UrlOf(p: Option<UrlProperty>): string
  {
    if p.Some? && p.value.url.Some? && p.value.url.value != "" then p.value.url.value else ""
  }

  /** `transformPage`: flattens the property bag with fixed defaults. */
  function TransformPage(page: NotionPage): (r: Project)
    ensures r.id == page.id
    ensures page.properties.name.None? ==> r.name == ""
    ensures page.properties.description.None? ==> r.description == ""
    ensures page.properties.agency.None? ==> r.agency == ""
    ensures page.properties.client.None? ==> r.client == ""
    ensures page.properties.roles.None? ==> r.roles == []
    ensures page.properties.technologies.None? ==> r.technologies == []
    ensures page.properties.name.Some? ==> r.name == JoinPlainText(page.properties.name.value.title)
    ensures page.properties.description.Some? ==>
              r.description == JoinPlainText(page.properties.description.value.richText)
    ensures page.properties.agency.Some? ==> r.agency == JoinPlainText(page.properties.agency.value.richText)
    ensures page.properties.client.Some? ==> r.client == JoinPlainText(page.properties.client.value.richText)
    ensures page.properties.roles.Some? ==> r.roles == Names(page.properties.roles.value.multiSelect)
    ensures page.properties.technologies.Some? ==>
              r.technologies == Names(page.properties.technologies.value.multiSelect)
    ensures r.year.None? <==> page.properties.year.None? || page.properties.year.value.number.None?
    ensures r.year.Some? ==> page.properties.year == Some(NumberProperty(r.year))
    ensures r.url == "" <==>
              || page.properties.link.None?
              || page.properties.link.value.url.None?
              || page.properties.link.value.url.value == ""
    ensures r.url != "" ==> page.properties.link == Some(UrlProperty(Some(r.url)))
  {
    var props := page.properties;
    Project(
      page.id,
      GetRichText(TitleSpans(props.name)),
      GetRichText(RichTextSpans(props.description)),
      GetRichText(RichTextSpans(props.agency)),
      GetRichText(RichTextSpans(props.client)),
      GetMultiSelect(Tags(props.roles)),
      GetMultiSelect(Tags(props.technologies)),
      YearOf(props.year),
      UrlOf(props.link))
  }

  /** A page without properties decodes to the all-defaults project. */
  lemma EmptyPageDefaults(id: string)
    ensures TransformPage(NotionPage(id, EmptyProperties))
            == Project(id, "", "", "", "", [], [], None, "")
  {
  }

  /** `results.map(transformPage)`. */
  function TransformAll(pages: seq<NotionPage>): (r: seq<Project>)
    ensures |r| == |pages|
    ensures forall i :: 0 <= i < |pages| ==> r[i] == TransformPage(pages[i])
  {
    if |pages| == 0 then [] else [TransformPage(pages[0])] + TransformAll(pages[1..])
  }

  // ---------------------------------------------------------------------
  // fetchProjects, with the HTTP exchange abstracted to an outcome value
  // ---------------------------------------------------------------------

  const ApiBase := "https://api.notion.com/v1"
  const NotionVersion := "2022-06-28"

  datatype SortDirection = Ascending | Descending
  datatype Sort = Sort(property: string, direction: SortDirection)

  /** The one request `fetchProjects` issues: endpoint, bearer token,
      API version and the requested sort. */
  datatype QueryRequest = QueryRequest(
    url: string,
    authorization: string,
    notionVersion: string,
    sorts: seq<Sort>)

  /** The parsed body of a successful query: one page of results. */
  datatype QueryResponse = QueryResponse(
    results: seq<NotionPage>,
    hasMore: bool,
    nextCursor: Option<string>)

  /** A response body: either the expected JSON shape or anything that makes
      `response.json()` or the mapping throw. */
  datatype Body = Json(response: QueryResponse) | Malformed

  /** What the network gave back for the request: a thrown transport error,
      or a response with a status and a body. */
  datatype Outcome = Thrown | Responded(status: int, body: Body)

  /** What one call did: the request it issued, if any, and what it returned. */
  datatype FetchRun = FetchRun(request: Option<QueryRequest>, projects: seq<Project>)

  /** `response.ok` of the Fetch standard: a status in the range 200 to 299. */
  predicate IsOk(status: int)
  {
    200 <= status <= 299
  }

  /** `!token || !databaseId` is false: both are set and non-empty
      (an empty environment string is falsy). */
  predicate Configured(token: Option<string>, databaseId: Option<string>)
  {
    token.Some? && token.value != "" && databaseId.Some? && databaseId.value != ""
  }

  const DatabasesPrefix := ApiBase + "/databases/"
  const QuerySuffix := "/query"
  const BearerPrefix := "Bearer "

  function BuildQuery(token: string, databaseId: string): (q: QueryRequest)
  {
    QueryRequest(
      DatabasesPrefix + databaseId + QuerySuffix,
      BearerPrefix + token,
      NotionVersion,
      [Sort("Year", Descending)])
  }

  /** The query names the configured database and token, and asks the server
      for newest years first. */
  lemma BuildQueryNamesConfig(token: string, databaseId: string)
    ensures var q := BuildQuery(token, databaseId);
            && |DatabasesPrefix| + |QuerySuffix| <= |q.url|
            && q.url[|DatabasesPrefix| .. |q.url| - |QuerySuffix|] == databaseId
            && q.url[..|DatabasesPrefix|] == DatabasesPrefix
            && q.url[|q.url| - |QuerySuffix|..] == QuerySuffix
            && |BearerPrefix| <= |q.authorization|
            && q.authorization[..|BearerPrefix|] == BearerPrefix
            && q.authorization[|BearerPrefix|..] == token
            && q.notionVersion == NotionVersion
            && q.sorts == [Sort("Year", Descending)]
  {
    var q := BuildQuery(token, databaseId);
    assert q.url == DatabasesPrefix + (databaseId + QuerySuffix);
  }

  /** `fetchProjects`: never fails outward; every failure gives []. */
  function FetchProjects(token: Option<string>, databaseId: Option<string>, outcome: Outcome): (run: FetchRun)
    ensures !Configured(token, databaseId) ==> run.request.None? && run.projects == []
    ensures Configured(token, databaseId) ==> run.request == Some(BuildQuery(token.value, databaseId.value))
    ensures outcome.Thrown? ==> run.projects == []
    ensures outcome.Responded? && !IsOk(outcome.status) ==> run.projects == []
    ensures outcome.Responded? && outcome.body.Malformed? ==> run.projects == []
    ensures Configured(token, databaseId) && outcome.Responded? && IsOk(outcome.status) && outcome.body.Json? ==>
              && |run.projects| == |outcome.body.response.results|
              && forall i :: 0 <= i < |run.projects| ==>
                   run.projects[i] == TransformPage(outcome.body.response.results[i])
  {
    if !Configured(token, databaseId) then
      FetchRun(None, [])
    else
      var request := Some(BuildQuery(token.value, databaseId.value));
      match outcome
      case Thrown => FetchRun(request, [])
      case Responded(status, body) =>
        if !IsOk(status) then FetchRun(request, [])
        else match body
          case Malformed => FetchRun(request, [])
          case Json(response) => FetchRun(request, TransformAll(response.results))
  }

  /** A non-empty result can only come from a successful, well-formed response
      to an issued request, and each project is the decoding of a page. */
  lemma NonEmptyMeansSuccess(token: Option<string>, databaseId: Option<string>, outcome: Outcome)
    requires FetchProjects(token, databaseId, outcome).projects != []
    ensures Configured(token, databaseId)
    ensures outcome.Responded? && IsOk(outcome.status) && outcome.body.Json?
    ensures |outcome.body.response.results| > 0
  {
  }

  /** Only the first page is used: `has_more` and `next_cursor` change nothing. */
  lemma FetchIgnoresPagination(
    token: Option<string>, databaseId: Option<string>, status: int,
    results: seq<NotionPage>, more1: bool, cursor1: Option<string>, more2: bool, cursor2: Option<string>)
    ensures FetchProjects(token, databaseId, Responded(status, Json(QueryResponse(results, more1, cursor1))))
            == FetchProjects(token, databaseId, Responded(status, Json(QueryResponse(results, more2, cursor2))))
  {
  }
}
