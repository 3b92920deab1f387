/**
 * The loosely typed records that flow between the pipeline's stages:
 * metadata dictionaries, stored documents and search sources.
 */
module Documents {
  import opened Wrappers

  /** A metadata value: a string, an integer, a float, or anything else. */
  datatype MetaValue = Str(s: string) | Int(i: int) | Real(r: real) | Opaque

  /** A metadata dictionary keyed by field name. */
  type Metadata = map<string, MetaValue>

  /**
   * A stored or retrieved text fragment with its metadata and the id the
   * vector store gave it. Every insertion gets a fresh id, so two copies of
   * one chunk stored twice are different documents: equality compares the
   * id as well as the text and metadata.
   */
  datatype Document = Document(id: Option<string>, pageContent: string, metadata: Metadata)

  /**
   * One entry of the session's `sources_data`: the metadata of a search
   * result or crawled page, and the `stored_in_db` latch.
   */
  datatype Source = Source(metadata: Metadata, storedInDb: bool)

  /** A fetched page: converted text and the loader's metadata. */
  datatype Page = Page(content: string, metadata: Metadata)

  /** One item of the loader's url-to-page dictionary. */
  datatype Fetched = Fetched(url: string, page: Page)

  /** The string stored under `link`, if there is one. */
  function LinkOf(md: Metadata): (r: Option<string>)
    ensures r.Some? <==> "link" in md && md["link"].Str?
    ensures r.Some? ==> md["link"] == Str(r.value)
  {
    if "link" in md && md["link"].Str? then Some(md["link"].s) else None
  }

  /** The page the loader returned for `url`, reading its items as a dictionary. */
  function LookupPage(loaded: seq<Fetched>, url: string): (r: Option<Page>)
    ensures r.Some? <==> exists i :: 0 <= i < |loaded| && loaded[i].url == url
    ensures r.Some? ==> Fetched(url, r.value) in loaded
  {
    if |loaded| == 0 then None
    else if loaded[0].url == url then Some(loaded[0].page)
    else
      var rest := LookupPage(loaded[1..], url);
      assert forall i :: 1 <= i < |loaded| ==> loaded[i] == loaded[1..][i - 1];
      rest
  }
}
