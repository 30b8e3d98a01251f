/** Writing a project with the seeding script and reading it back through
    the site's decoder gives the project back. */
module RoundTrip {
  import opened Wrappers
  import opened Notion
  import opened Populate

  /** The spans read back carry, one for one, the content that was written. */
  predicate SpansReadBack(written: seq<SpanInput>, read: seq<RichText>)
  {
    |written| == |read| && forall i :: 0 <= i < |read| ==> read[i].plainText == written[i].text.content
  }

  /** The tags read back carry, one for one, the names that were written. */
  predicate TagsReadBack(written: seq<TagInput>, read: seq<MultiSelectOption>)
  {
    |written| == |read| && forall i :: 0 <= i < |read| ==> read[i].name == written[i].name
  }

  /** A page as Notion returns it after storing `props` faithfully. */
  predicate ReadsBackAs(props: CreateProperties, page: NotionPage)
  {
    var p := page.properties;
    && p.name.Some? && SpansReadBack(props.name.title, p.name.value.title)
    && p.description.Some? && SpansReadBack(props.description.richText, p.description.value.richText)
    && p.agency.Some? && SpansReadBack(props.agency.richText, p.agency.value.richText)
    && p.client.Some? && SpansReadBack(props.client.richText, p.client.value.richText)
    && p.roles.Some? && TagsReadBack(props.roles.multiSelect, p.roles.value.multiSelect)
    && p.technologies.Some? && TagsReadBack(props.technologies.multiSelect, p.technologies.value.multiSelect)
    && p.year == Some(NumberProperty(Some(props.year.number)))
    && p.link == Some(UrlProperty(Some(props.link.url)))
  }

  function ReadSpans(written: seq<SpanInput>): (r: seq<RichText>)
    ensures SpansReadBack(written, r)
  {
    if |written| == 0 then [] else [RichText(written[0].text.content)] + ReadSpans(written[1..])
  }

  function ReadTags(written: seq<TagInput>): (r: seq<MultiSelectOption>)
    ensures TagsReadBack(written, r)
  {
    if |written| == 0 then [] else [MultiSelectOption(written[0].name)] + ReadTags(written[1..])
  }

  /** A store that returns each span's content as its plain text. */
  function FaithfulStore(id: string, props: CreateProperties): (page: NotionPage)
    ensures page.id == id
    ensures ReadsBackAs(props, page)
  {
    NotionPage(id, PageProperties(
      Some(TitleProperty(ReadSpans(props.name.title))),
      Some(RichTextProperty(ReadSpans(props.description.richText))),
      Some(RichTextProperty(ReadSpans(props.agency.richText))),
      Some(RichTextProperty(ReadSpans(props.client.richText))),
      Some(MultiSelectProperty(ReadTags(props.roles.multiSelect))),
      Some(MultiSelectProperty(ReadTags(props.technologies.multiSelect))),
      Some(NumberProperty(Some(props.year.number))),
      Some(UrlProperty(Some(props.link.url)))))
  }

  /** A single written span reads back as its own content. */
  lemma SingleSpanReadBack(s: string, read: seq<RichText>)
    requires SpansReadBack(SingleSpan(s), read)
    ensures JoinPlainText(read) == s
  {
    assert read[0].plainText == s;
    assert read[1..] == [];
  }

  /** A written tag list reads back as the same strings, in order. */
  lemma TagListReadBack(xs: seq<string>, read: seq<MultiSelectOption>)
    requires TagsReadBack(TagList(xs), read)
    ensures Names(read) == xs
  {
  }

  /** Encoding a project and decoding the stored page gives back every field;
      the year comes back present. */
  lemma RoundTrip(databaseId: string, project: SeedProject, page: NotionPage)
    requires ReadsBackAs(CreateProject(databaseId, project).properties, page)
    ensures var r := TransformPage(page);
            && r.id == page.id
            && r.name == project.name
            && r.description == project.description
            && r.agency == project.agency
            && r.client == project.client
            && r.roles == project.roles
            && r.technologies == project.technologies
            && r.year == Some(project.year)
            && r.url == project.url
  {
    var props := CreateProject(databaseId, project).properties;
    var p := page.properties;
    SingleSpanReadBack(project.name, p.name.value.title);
    SingleSpanReadBack(project.description, p.description.value.richText);
    SingleSpanReadBack(project.agency, p.agency.value.richText);
    SingleSpanReadBack(project.client, p.client.value.richText);
    TagListReadBack(project.roles, p.roles.value.multiSelect);
    TagListReadBack(project.technologies, p.technologies.value.multiSelect);
  }
}
