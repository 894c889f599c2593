/**
 * Values shared by the modules: the provider's status codes, embeddings, and
 * the records that flow from per-page extraction into the keyword ranking.
 */
module PageData {
  import opened StableSort

  /** The provider's `status_code` for success. */
  const StatusOk := 20000
  /** The provider's `status_code` for a task that is not ready yet. */
  const StatusNotFound := 40400

  /** An embedding vector, as the embedding service returns it. */
  type Embedding = seq<real>

  /** One element of a keyword-density entry's `items`, as the provider sends it. */
  datatype DensityItem = DensityItem(keyword: string, frequency: int, other: map<string, string>)

  /** One element of a keyword-density `result` list. A missing or null `items` is `[]`. */
  datatype DensityEntry = DensityEntry(items: seq<DensityItem>)

  /** A density item once per-page processing has added its `similarity`. */
  datatype KeywordRecord = KeywordRecord(keyword: string, frequency: int, similarity: real, other: map<string, string>)

  /** One `htags` entry: a tag name and its heading texts (a null list is `[]`). */
  datatype HeadingGroup = HeadingGroup(tag: string, headings: seq<string>)

  /** What the instant-pages call yields for a URL; a missing or null `htags` is `[]`. */
  datatype PageDetails = PageDetails(headings: seq<HeadingGroup>, imagesCount: int, wordCount: int)

  /** The dictionary `process_url` returns for a page. */
  datatype PageAnalysis = PageAnalysis(
    url: string,
    headings: seq<HeadingGroup>,
    imagesCount: int,
    wordCount: int,
    relevantKeywords: seq<KeywordRecord>,
    allKeywords: seq<KeywordRecord>)

  /** Sort key `x['frequency']`. */
  function FrequencyKey(r: KeywordRecord): Key {
    Key(0.0, r.frequency)
  }

  /** Sort key `(x['similarity'], x['frequency'])`. */
  function SimilarityFrequencyKey(r: KeywordRecord): Key {
    Key(r.similarity, r.frequency)
  }
}
