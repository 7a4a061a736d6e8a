/** The records plugins emit and the database stores. */
module Domain {
  import opened Wrappers
  import opened Json

  datatype ExternalLink = ExternalLink(
    url: string,
    provider: Option<string>,
    caption: Option<string>,
    kind: Option<string>,
    externalId: Option<string>,
    metadata: JsonMap)

  datatype SourceRecord = SourceRecord(
    sourceName: string,
    sourceUrl: string,
    title: string,
    brandRaw: string,
    performersRaw: seq<string>,
    coverUrls: seq<string>,
    pageUrls: seq<string>,
    externalLinks: seq<ExternalLink>,
    issueNo: Option<string>,
    releaseDate: Option<string>,
    postDate: Option<string>,
    brandNormalized: Option<string>,
    normalizerId: Option<string>,
    normalizerVersion: Option<string>,
    extra: JsonMap)
}
