/**
 * The records the pipeline passes between its stages (types/job.ts).
 *
 * Optional text fields that the code only ever tests for truthiness
 * (`result.title || ""`, `if (!result.url)`) are plain strings in which ""
 * stands for "absent": for the code the two are the same.
 */
module Jobs {
  import opened Basics

  /** The trust tier of a source. */
  datatype Layer = Curated | Discovery

  /** A listing's remote scope. The classifier copies the scope a language
      model returns without checking it, so besides the three values the type
      names a listing can carry whatever text came back (`Unlisted(Some(text))`)
      or nothing at all (`Unlisted(None)`, the field undefined). */
  datatype RemoteScope = Global | CountryRestricted | UnknownScope | Unlisted(raw: Option<string>)

  /** A normalised job listing. datePosted, an ISO calendar date in the
      source, is the day number since the epoch (UTC). */
  datatype JobListing = JobListing(
    id: string,
    title: string,
    company: string,
    location: string,
    salary: Option<string>,
    datePosted: int,
    sourceBoard: string,
    sourceUrl: string,
    description: string,
    isRemote: bool,
    remoteScope: RemoteScope,
    allowedCountries: seq<string>,
    layer: Layer)

  /** A curated job board: its display name and the site-scoping part of its query. */
  datatype BoardConfig = BoardConfig(name: string, siteQuery: string, layer: Layer)

  /** One raw search result. metadataDate is `metadata?.date`; the metadata
      fields the pipeline never reads are not kept. */
  datatype FirecrawlResult = FirecrawlResult(
    url: string,
    title: string,
    description: string,
    markdown: string,
    content: string,
    metadataDate: string)

  /** The two envelope shapes of a search response: `data.web` or `results`. */
  datatype WebData = WebData(web: Option<seq<FirecrawlResult>>)
  datatype FirecrawlResponse = FirecrawlResponse(data: Option<WebData>, results: Option<seq<FirecrawlResult>>)

  datatype DedupMethod = Llm | UrlOnly

  datatype Meta = Meta(
    totalResults: int,
    boardsSearched: int,
    boardsSucceeded: seq<string>,
    boardsFailed: seq<string>,
    discoveryIncluded: bool,
    duplicatesRemoved: int,
    dedupMethod: DedupMethod)

  datatype ApiError = ApiError(code: string, message: string)

  /** The JSON body of the search endpoint's reply. */
  datatype SearchResponse = SearchResponse(
    success: bool,
    results: seq<JobListing>,
    meta: Meta,
    error: Option<ApiError>)
}
