/** The embedding dispatcher (app/core/embedding.py): a backend chosen by
    name, the OpenAI path calling the remote model once per text, and the
    sentence-transformer path encoding the whole batch at once. Both remote
    models are opaque functions; the OpenAI client records the requests it
    is sent, so that the number and order of remote calls can be stated. */
module Embedding {
  import opened Common

  type Vector = seq<real>

  /** One `embeddings.create(input=…, model=…)` request. */
  datatype Request = Request(input: string, model: string)

  /** The backends `generate_embeddings` accepts by name. */
  datatype Backend = OpenAI | SentenceTransformer

  /** The OpenAI client: `embed` is what the remote model answers for an
      input and a model name; `requests` is every request sent so far. */
  class OpenAIClient {
    const embed: (string, string) -> Vector
    var requests: seq<Request>

    constructor (embed: (string, string) -> Vector)
      ensures this.embed == embed && requests == []
    {
      this.embed := embed;
      requests := [];
    }

    /** `embeddings.create(input, model).data[0].embedding`. */
    method CreateEmbedding(input: string, model: string) returns (v: Vector)
      modifies this
      ensures v == embed(input, model)
      ensures requests == old(requests) + [Request(input, model)]
    {
      requests := requests + [Request(input, model)];
      v := embed(input, model);
    }
  }

  /** The requests the OpenAI path sends for `texts`: one per text, in order. */
  function RequestsFor(texts: seq<string>, model: string): (rs: seq<Request>)
    ensures |rs| == |texts|
    ensures forall k :: 0 <= k < |texts| ==> rs[k].input == texts[k] && rs[k].model == model
  {
    seq(|texts|, k requires 0 <= k < |texts| => Request(texts[k], model))
  }

  /** The backend a model name selects; any other name is a ValueError. */
  function SelectBackend(model: string): (r: Result<Backend, Error>)
    ensures r == Success(OpenAI) <==> model == "openai"
    ensures r == Success(SentenceTransformer) <==> model == "sentence-transformer"
    ensures r.Failure? <==> model != "openai" && model != "sentence-transformer"
    ensures r.Failure? ==> r.error == ValueError("Unknown embedding model: " + model)
  {
    if model == "openai" then Success(OpenAI)
    else if model == "sentence-transformer" then Success(SentenceTransformer)
    else Failure(ValueError("Unknown embedding model: " + model))
  }

  /** What `generate_embeddings(texts, model)` returns or raises: the OpenAI
      model's answer for each text in order, the sentence-transformer's batch
      encoding, or the ValueError for an unknown name. */
  function Embeddings(generator: EmbeddingGenerator, texts: seq<string>, model: string)
    : (r: Result<seq<Vector>, Error>)
    ensures r.Failure? <==> SelectBackend(model).Failure?
    ensures r.Failure? ==> r.error == ValueError("Unknown embedding model: " + model)
    ensures model == "openai" ==>
      && r.Success? && |r.value| == |texts|
      && forall k :: 0 <= k < |texts| ==>
           r.value[k] == generator.openaiClient.embed(texts[k], generator.embeddingModel)
    ensures model == "sentence-transformer" ==> r == Success(generator.sentenceTransformer(texts))
  {
    match SelectBackend(model)
    case Failure(e) => Failure(e)
    case Success(OpenAI) =>
      Success(seq(|texts|, k requires 0 <= k < |texts| =>
                    generator.openaiClient.embed(texts[k], generator.embeddingModel)))
    case Success(SentenceTransformer) => Success(generator.sentenceTransformer(texts))
  }

  /** `EmbeddingGenerator`: the OpenAI client with the configured embedding
      model name, and the sentence-transformer batch encoder. */
  class EmbeddingGenerator {
    const openaiClient: OpenAIClient
    const embeddingModel: string
    const sentenceTransformer: seq<string> -> seq<Vector>

    constructor (openaiClient: OpenAIClient, embeddingModel: string,
                 sentenceTransformer: seq<string> -> seq<Vector>)
      ensures this.openaiClient == openaiClient && this.embeddingModel == embeddingModel
      ensures this.sentenceTransformer == sentenceTransformer
    {
      this.openaiClient := openaiClient;
      this.embeddingModel := embeddingModel;
      this.sentenceTransformer := sentenceTransformer;
    }

    /** `generate_openai_embeddings`: one remote call per text, in order; one
        vector per text, the model's answer for that text. An empty list
        makes no call at all. */
    method GenerateOpenAIEmbeddings(texts: seq<string>) returns (embeddings: seq<Vector>)
      modifies openaiClient
      ensures |embeddings| == |texts|
      ensures forall k :: 0 <= k < |texts| ==>
        embeddings[k] == openaiClient.embed(texts[k], embeddingModel)
      ensures openaiClient.requests == old(openaiClient.requests) + RequestsFor(texts, embeddingModel)
    {
      embeddings := [];
      for i := 0 to |texts|
        invariant |embeddings| == i
        invariant forall k :: 0 <= k < i ==> embeddings[k] == openaiClient.embed(texts[k], embeddingModel)
        invariant openaiClient.requests
                  == old(openaiClient.requests) + RequestsFor(texts[..i], embeddingModel)
      {
        var v := openaiClient.CreateEmbedding(texts[i], embeddingModel);
        assert RequestsFor(texts[..i + 1], embeddingModel)
               == RequestsFor(texts[..i], embeddingModel) + [Request(texts[i], embeddingModel)];
        embeddings := embeddings + [v];
      }
      assert texts[..|texts|] == texts;
    }

    /** `generate_embeddings`: dispatch on the model name. The
        sentence-transformer path returns the batch encoding unfiltered and
        sends nothing to OpenAI; an unknown name sends nothing either. */
    method GenerateEmbeddings(texts: seq<string>, model: string)
      returns (r: Result<seq<Vector>, Error>)
      modifies openaiClient
      ensures SelectBackend(model).Failure? ==> r == Failure(SelectBackend(model).error)
      ensures model == "openai" ==>
        && r.Success? && |r.value| == |texts|
        && (forall k :: 0 <= k < |texts| ==> r.value[k] == openaiClient.embed(texts[k], embeddingModel))
        && openaiClient.requests == old(openaiClient.requests) + RequestsFor(texts, embeddingModel)
      ensures model != "openai" ==> openaiClient.requests == old(openaiClient.requests)
      ensures model == "sentence-transformer" ==> r == Success(sentenceTransformer(texts))
      ensures r == Embeddings(this, texts, model)
    {
      var backend := SelectBackend(model);
      if backend.Failure? {
        return Failure(backend.error);
      }
      match backend.value
      case OpenAI =>
        var embeddings := GenerateOpenAIEmbeddings(texts);
        assert embeddings == Embeddings(this, texts, model).value;
        r := Success(embeddings);
      case SentenceTransformer =>
        r := Success(sentenceTransformer(texts));
    }
  }
}
