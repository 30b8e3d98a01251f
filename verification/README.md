# Notion project adapter, modelled in Dafny

This project models the data path of a portfolio site whose project list
lives in a Notion database:

- the read side, `src/lib/notion.ts`: `getRichText` joins the plain text of
  rich-text spans, `getMultiSelect` projects tag names, `transformPage`
  flattens a page's optional, type-tagged properties into a `Project` with
  fixed defaults (`""`, `[]`, `null`), and `fetchProjects` issues one query
  and collapses every failure to an empty list;
- the write side, `scripts/populate-notion.ts`: `createProject` builds the
  same property bag from a flat project, and `populateDatabase` attempts
  every project and counts successes and failures.

Files: `wrappers.dfy` (an `Option` type standing for `undefined`/`null`),
`notion.dfy` (module `Notion`, the read side), `populate.dfy` (module
`Populate`, the write side), `roundtrip.dfy` (module `RoundTrip`, writing a
project and decoding it back).

The HTTP exchange is abstracted: `Notion.FetchProjects` takes the token and
database id as optional strings (in place of the environment) and an
`Outcome` value standing for whatever the network produced for the request
(a thrown error, or a status and a body that is either the expected JSON or
malformed). It returns the request it would issue, if any, together with the
projects. Likewise `Populate.PopulateDatabase` takes, for each attempt,
whether `pages.create` accepted it.

Behaviours of the code the model keeps:

- `??` (src/lib/notion.ts:67) replaces only `undefined` and `null`, so any
  number that comes back for `Year`, 0 included, is kept;
- `response.json()` and the mapping sit inside the `try`
  (src/lib/notion.ts:82-113), so every failure there gives `[]`;
- a token or database id that is set but empty counts as missing, because
  the code tests them with `!` (src/lib/notion.ts:77).

## Model

| member | source | states |
|---|---|---|
| Notion.GetRichText | src/lib/notion.ts:44-47 | an absent or empty span list gives ""; otherwise the result's length is the sum of the span lengths and span i sits, unchanged, at the offset given by the lengths of the spans before it |
| Notion.JoinPlainTextLayout | src/lib/notion.ts:46 | joining with '' lays the spans out end to end in order: total length is the sum of lengths and each span is the slice at its offset |
| Notion.Names | src/lib/notion.ts:52 | mapping tags to names keeps the length, and element i is the name of tag i |
| Notion.GetMultiSelect | src/lib/notion.ts:50-53 | an absent tag list gives []; otherwise same length as the input and element i is the name of tag i |
| Notion.TransformPage | src/lib/notion.ts:56-70 | id is copied; each absent text property gives "" and each absent multi-select gives []; present ones are joined or projected; year is null exactly when Year is absent or its number is null, else that number; url is "" exactly when Link is absent, null or "", else Link.url |
| Notion.EmptyPageDefaults | src/lib/notion.ts:56-69 | a page without any property decodes to the all-defaults project ("" for text, [] for tags, null year, "" url) |
| Notion.TransformAll | src/lib/notion.ts:107 | mapping the results keeps their number and order: project i is the decoding of page i |
| Notion.FetchProjects | src/lib/notion.ts:73-114 | missing or empty token or database id gives [] and issues no request; otherwise exactly the Year-descending query for that database is issued; a thrown error, a status outside 200-299 or a malformed body gives []; a well-formed successful response gives the results decoded pointwise, same length and order, with no local sorting |
| Notion.NonEmptyMeansSuccess | src/lib/notion.ts:77-113 | a non-empty result only comes from a configured call whose response was ok and well-formed and had at least one page |
| Notion.FetchIgnoresPagination | src/lib/notion.ts:106-109 | has_more and next_cursor never change the result: only the first page is used |
| Notion.BuildQueryNamesConfig | src/lib/notion.ts:83-97 | the query URL is the databases endpoint with the database id between the prefix and "/query", the authorization header is "Bearer " followed by the token, the version header is 2022-06-28, and the one sort is Year descending |
| Populate.TagList | scripts/populate-notion.ts:217-222 | a string list becomes a tag list of the same length whose element i has name equal to string i |
| Populate.CreateProject | scripts/populate-notion.ts:176-230 | the request targets the given database; Name, Description, Agency and Client are each exactly one span whose content is the matching field; Roles and Technologies have the project's length and order; Year.number is the year and Link.url the url, unchanged |
| Populate.CountCreatedAll | scripts/populate-notion.ts:242-254 | the success count reaches the total exactly when every attempt was accepted |
| Populate.PopulateDatabase | scripts/populate-notion.ts:239-260 | every project is attempted once, in order, even after failures; afterwards successCount + failCount is the number of projects, each is at most that total, and successCount is the number of accepted attempts |
| RoundTrip.SingleSpanReadBack | scripts/populate-notion.ts:181-189 | a field written as one span reads back as its own content when the span's plain text equals its content |
| RoundTrip.TagListReadBack | scripts/populate-notion.ts:217-222 | a written tag list reads back, through getMultiSelect's name projection, as the original strings in order |
| RoundTrip.RoundTrip | scripts/populate-notion.ts:180-229 | if the stored page returns each span's content as its plain text and the tags, year and url as written, decoding it with transformPage gives back name, description, agency, client, roles, technologies, year and url |

## Left out

- The HTTP request itself, its headers as transmitted, JSON serialisation and parsing, and `response.text()`: network I/O, represented by the `Outcome` input and the `QueryRequest` description.
- Environment reads (`import.meta.env`, `process.env`, `dotenv`): the token and database id are parameters.
- Console diagnostics, the 300 ms rate-limit delay and async sequencing: side effects and timing.
- The `@notionhq/client` `pages.create` call: a foreign library; its acceptance of each attempt is an input boolean, and the response object it returns is not modelled.
- The Year-descending sort is performed by the server; the model records that it is requested and never claims the output is sorted.
- Pagination through `has_more`/`next_cursor`: the code never follows it, so neither does the model.
- Notion.TransformPage: `Year.number` is a JavaScript floating-point number; the model uses unbounded integers, so NaN, fractions and infinities are not modelled.
- A page without `properties` and a body whose `results` is not an array throw inside the `try`; the model folds them into the single `Malformed` body, which gives `[]` as the code does.
- Shape violations that do not throw (a span without `plain_text`, which `join('')` renders as "", and a tag without `name`, which leaves `undefined` in the list) are outside the model: its spans and tags always carry their text.
- src/data/projects.ts and astro.config.mjs: static data and build configuration, no logic.
- The hard-coded project list of the seeding script: data, not logic; `PopulateDatabase` takes any list.
