/** The document search tool (app/core/tools.py, `DocumentSearchTool._run`):
    search results are formatted one by one, with long texts cut to a
    500-character preview and missing metadata given defaults, and every
    failure is turned into an error string instead of an exception. The
    query embedding and the index search are remote; their outcome is a
    parameter here. The JSON text rendering of the output is not modelled. */
module Tools {
  import opened Common
  import Embedding
  import VectorStores

  const PreviewLength: nat := 500
  const Ellipsis: string := "..."
  const ErrorPrefix: string := "Error searching documents: "
  /** What `len()` raises on an integer. */
  const NoLenMessage: string := "object of type 'int' has no len()"

  /** One entry of `search_results`. */
  datatype FormattedResult = FormattedResult(text: string, score: real, filename: MetaValue, chunkIndex: MetaValue)

  /** What `_run` returns: the search results to be rendered as JSON, or an
      error string. */
  datatype ToolOutput = SearchJson(results: seq<FormattedResult>) | ErrorText(text: string)

  /** A text as it is shown: up to 500 characters unchanged, a longer one cut
      to its first 500 characters followed by "...". */
  function Preview(text: string): (r: string)
    ensures |text| <= PreviewLength ==> r == text
    ensures |text| > PreviewLength ==> |r| == PreviewLength + |Ellipsis|
    ensures |text| > PreviewLength ==>
      (r[..PreviewLength] == text[..PreviewLength] && r[PreviewLength..] == Ellipsis)
  {
    if |text| > PreviewLength then text[..PreviewLength] + Ellipsis else text
  }

  /** A preview never exceeds 503 characters, always begins with the text's
      first characters, and a preview of a preview is the preview. (A text
      of 500 characters followed by "..." is its own preview.) */
  lemma PreviewProperties(text: string)
    ensures |Preview(text)| <= 503
    ensures var n := if |text| < PreviewLength then |text| else PreviewLength;
      Preview(text)[..n] == text[..n]
    ensures Preview(Preview(text)) == Preview(text)
  {
  }

  /** One result formatted: `len` of a text that is not a string raises. */
  function Format(result: VectorStores.SearchResult): (r: Result<FormattedResult, Error>)
    ensures r.Failure? <==> result.text.Int?
    ensures r.Failure? ==> r.error == TypeError(NoLenMessage)
    ensures r.Success? ==>
      && r.value.text == Preview(result.text.s)
      && r.value.score == result.score
      && r.value.filename == Get(result.metadata, "filename", Str("unknown"))
      && r.value.chunkIndex == Get(result.metadata, "chunk_index", Int(0))
  {
    match result.text
    case Int(_) => Failure(TypeError(NoLenMessage))
    case Str(t) =>
      Success(FormattedResult(
        Preview(t),
        result.score,
        Get(result.metadata, "filename", Str("unknown")),
        Get(result.metadata, "chunk_index", Int(0))))
  }

  /** Missing metadata keys read as filename "unknown" and chunk index 0;
      present ones are taken as stored. */
  lemma FormatDefaults(result: VectorStores.SearchResult)
    requires result.text.Str?
    ensures "filename" !in result.metadata ==> Format(result).value.filename == Str("unknown")
    ensures "chunk_index" !in result.metadata ==> Format(result).value.chunkIndex == Int(0)
    ensures "filename" in result.metadata ==> Format(result).value.filename == result.metadata["filename"]
    ensures "chunk_index" in result.metadata ==>
      Format(result).value.chunkIndex == result.metadata["chunk_index"]
  {
  }

  /** The formatting loop: one entry per result, in order, or the error of
      the first result that cannot be formatted. */
  method FormatResults(results: seq<VectorStores.SearchResult>)
    returns (r: Result<seq<FormattedResult>, Error>)
    ensures r.Success? <==> forall k :: 0 <= k < |results| ==> results[k].text.Str?
    ensures r.Success? ==>
      (|r.value| == |results|
       && forall k :: 0 <= k < |results| ==> Format(results[k]) == Success(r.value[k]))
    ensures r.Failure? ==> r.error == TypeError(NoLenMessage)
  {
    var formatted: seq<FormattedResult> := [];
    for i := 0 to |results|
      invariant |formatted| == i
      invariant forall k :: 0 <= k < i ==> results[k].text.Str? && Format(results[k]) == Success(formatted[k])
    {
      var entry := Format(results[i]);
      if entry.Failure? {
        return Failure(entry.error);
      }
      formatted := formatted + [entry.value];
    }
    r := Success(formatted);
  }

  /** `_run` as evidently intended: the outcome of embedding the query and
      searching the index is formatted, and any exception, raised by the
      search or by the formatting, becomes the error string. It never raises. */
  method Run(search: Result<seq<VectorStores.SearchResult>, Error>) returns (out: ToolOutput)
    ensures search.Failure? ==> out == ErrorText(ErrorPrefix + search.error.Text())
    ensures search.Success? && (forall k :: 0 <= k < |search.value| ==> search.value[k].text.Str?) ==>
      && out.SearchJson? && |out.results| == |search.value|
      && forall k :: 0 <= k < |search.value| ==> Format(search.value[k]) == Success(out.results[k])
    ensures search.Success? && (exists k :: 0 <= k < |search.value| && search.value[k].text.Int?) ==>
      out == ErrorText(ErrorPrefix + NoLenMessage)
  {
    if search.Failure? {
      return ErrorText(ErrorPrefix + search.error.Text());
    }
    var formatted := FormatResults(search.value);
    match formatted
    case Success(entries) => out := SearchJson(entries);
    case Failure(e) => out := ErrorText(ErrorPrefix + e.Text());
  }

  // ---------------------------------------------------------------------------
  // `_run` as written
  // ---------------------------------------------------------------------------

  function DigitChar(d: nat): (c: char)
    requires d < 10
    ensures '0' <= c <= '9' && c as int - '0' as int == d
  {
    ('0' as int + d) as char
  }

  /** `str(n)` for a natural number. */
  function NatToString(n: nat): (s: string)
    ensures |s| >= 1 && forall k :: 0 <= k < |s| ==> '0' <= s[k] <= '9'
    decreases n
  {
    if n < 10 then [DigitChar(n)] else NatToString(n / 10) + [DigitChar(n % 10)]
  }

  /** `a, b = xs`: Python's unpacking of a list into two names. */
  function Unpack2<T>(xs: seq<T>): (r: Result<(T, T), Error>)
    ensures r.Success? <==> |xs| == 2
    ensures r.Success? ==> r.value == (xs[0], xs[1])
    ensures |xs| < 2 ==> r == Failure(ValueError(
      "not enough values to unpack (expected 2, got " + NatToString(|xs|) + ")"))
    ensures |xs| > 2 ==> r == Failure(ValueError("too many values to unpack (expected 2)"))
  {
    if |xs| == 2 then Success((xs[0], xs[1]))
    else if |xs| < 2 then
      Failure(ValueError("not enough values to unpack (expected 2, got " + NatToString(|xs|) + ")"))
    else Failure(ValueError("too many values to unpack (expected 2)"))
  }

  /** `_run` as written: `generate_embeddings([query])` returns a list of one
      vector, which line 35 unpacks into two names. The unpacking always
      fails, so every call returns the same error string, whatever the query
      and whatever the index holds, and the index is never searched. */
  method RunAsWritten(query: string, generator: Embedding.EmbeddingGenerator) returns (out: ToolOutput)
    modifies generator.openaiClient
    ensures out == ErrorText(ErrorPrefix + "not enough values to unpack (expected 2, got 1)")
    ensures generator.openaiClient.requests
            == old(generator.openaiClient.requests) + [Embedding.Request(query, generator.embeddingModel)]
  {
    var embedded := generator.GenerateEmbeddings([query], "openai");
    assert Embedding.RequestsFor([query], generator.embeddingModel) == [Embedding.Request(query, generator.embeddingModel)];
    var pair := Unpack2(embedded.value);
    // One query text gives one vector, so the unpacking always raises and
    // the search and formatting steps are never reached.
    assert pair.Failure?;
    out := ErrorText(ErrorPrefix + pair.error.Text());
  }

  /** The discrepancy: unpacking the one-vector list of a single query
      raises, whatever the vector. */
  lemma UnpackOneVector(v: Embedding.Vector)
    ensures Unpack2([v]) == Failure(ValueError("not enough values to unpack (expected 2, got 1)"))
  {
    assert |[v]| == 1;
    assert NatToString(1) == "1";
    assert "not enough values to unpack (expected 2, got " + NatToString(1) + ")"
           == "not enough values to unpack (expected 2, got 1)";
  }
}
