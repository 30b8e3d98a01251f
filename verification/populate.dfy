/** The write side: the seeding script that turns each hard-coded project
    into a `pages.create` property bag and counts what the API accepted
    (scripts/populate-notion.ts). */
module Populate {

  /** One entry of the script's hard-coded project list. */
  datatype SeedProject = SeedProject(
    name: string,
    url: string,
    description: string,
    agency: string,
    client: string,
    roles: seq<string>,
    technologies: seq<string>,
    year: int)

  /** `{ text: { content } }`: one span as written. */
  datatype TextContent = TextContent(content: string)
  datatype SpanInput = SpanInput(text: TextContent)

  /** `{ name }`: one tag as written. */
  datatype TagInput = TagInput(name: string)

  datatype TitleInput = TitleInput(title: seq<SpanInput>)
  datatype RichTextInput = RichTextInput(richText: seq<SpanInput>)
  datatype MultiSelectInput = MultiSelectInput(multiSelect: seq<TagInput>)
  datatype NumberInput = NumberInput(number: int)
  datatype UrlInput = UrlInput(url: string)

  /** The property bag passed to `pages.create`: every property is written. */
  datatype CreateProperties = CreateProperties(
    name: TitleInput,
    description: RichTextInput,
    agency: RichTextInput,
    client: RichTextInput,
    roles: MultiSelectInput,
    technologies: MultiSelectInput,
    year: NumberInput,
    link: UrlInput)

  datatype CreatePageRequest = CreatePageRequest(parentDatabaseId: string, properties: CreateProperties)

  /** A text field written as a single span. */
  function SingleSpan(s: string): (r: seq<SpanInput>)
    ensures |r| == 1 && r[0].text.content == s
  {
    [SpanInput(TextContent(s))]
  }

  /** `xs.map(x => ({ name: x }))`. */
  function TagList(xs: seq<string>): (r: seq<TagInput>)
    ensures |r| == |xs|
    ensures forall i :: 0 <= i < |xs| ==> r[i].name == xs[i]
  {
    if |xs| == 0 then [] else [TagInput(xs[0])] + TagList(xs[1..])
  }

  /** The request body `createProject` sends for one project. */
  function CreateProject(databaseId: string, project: SeedProject): (req: CreatePageRequest)
    ensures req.parentDatabaseId == databaseId
    ensures |req.properties.name.title| == 1 && req.properties.name.title[0].text.content == project.name
    ensures |req.properties.description.richText| == 1
            && req.properties.description.richText[0].text.content == project.description
    ensures |req.properties.agency.richText| == 1
            && req.properties.agency.richText[0].text.content == project.agency
    ensures |req.properties.client.richText| == 1
            && req.properties.client.richText[0].text.content == project.client
    ensures |req.properties.roles.multiSelect| == |project.roles|
    ensures forall i :: 0 <= i < |project.roles| ==> req.properties.roles.multiSelect[i].name == project.roles[i]
    ensures |req.properties.technologies.multiSelect| == |project.technologies|
    ensures forall i :: 0 <= i < |project.technologies| ==>
              req.properties.technologies.multiSelect[i].name == project.technologies[i]
    ensures req.properties.year.number == project.year
    ensures req.properties.link.url == project.url
  {
    CreatePageRequest(
      databaseId,
      CreateProperties(
        TitleInput(SingleSpan(project.name)),
        RichTextInput(SingleSpan(project.description)),
        RichTextInput(SingleSpan(project.agency)),
        RichTextInput(SingleSpan(project.client)),
        MultiSelectInput(TagList(project.roles)),
        MultiSelectInput(TagList(project.technologies)),
        NumberInput(project.year),
        UrlInput(project.url)))
  }

  /** How many attempts the API accepted. */
  function CountCreated(created: seq<bool>): (n: nat)
    ensures n <= |created|
  {
    if |created| == 0 then 0
    else CountCreated(created[..|created| - 1]) + (if created[|created| - 1] then 1 else 0)
  }

  /** Every attempt was accepted exactly when the count reaches the total. */
  lemma {:induction false} CountCreatedAll(created: seq<bool>)
    ensures CountCreated(created) == |created| <==> forall i :: 0 <= i < |created| ==> created[i]
  {
    if |created| > 0 {
      var init := created[..|created| - 1];
      CountCreatedAll(init);
      assert forall i :: 0 <= i < |init| ==> init[i] == created[i];
    }
  }

  /** `populateDatabase`: attempts every project once, in order, whatever
      the earlier attempts did; `created[i]` is whether `pages.create`
      accepted attempt `i`. */
  method PopulateDatabase(databaseId: string, projects: seq<SeedProject>, created: seq<bool>)
    returns (successCount: nat, failCount: nat, attempts: seq<CreatePageRequest>)
    requires |created| == |projects|
    ensures successCount + failCount == |projects|
    ensures successCount <= |projects| && failCount <= |projects|
    ensures successCount == CountCreated(created)
    ensures successCount == |projects| <==> forall i :: 0 <= i < |created| ==> created[i]
    ensures |attempts| == |projects|
    ensures forall i :: 0 <= i < |projects| ==> attempts[i] == CreateProject(databaseId, projects[i])
  {
    successCount := 0;
    failCount := 0;
    attempts := [];
    var k := 0;
    while k < |projects|
      invariant 0 <= k <= |projects|
      invariant successCount + failCount == k
      invariant successCount == CountCreated(created[..k])
      invariant |attempts| == k
      invariant forall i :: 0 <= i < k ==> attempts[i] == CreateProject(databaseId, projects[i])
    {
      attempts := attempts + [CreateProject(databaseId, projects[k])];
      assert created[..k + 1][..k] == created[..k];
      if created[k] {
        successCount := successCount + 1;
      } else {
        failCount := failCount + 1;
      }
      k := k + 1;
    }
    assert created[..k] == created;
    CountCreatedAll(created);
  }
}
