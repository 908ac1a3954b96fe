/** The chunking engine (app/core/chunking.py): sentence-similarity chunking,
    token-window chunking with sentence-boundary trimming, and the dispatcher
    that selects a strategy by name. The tokenizer, the LangChain recursive
    splitter and the sentence-embedding similarity are opaque collaborators. */
module Chunking {
  import opened Common
  import opened Text

  type Token = int

  /** The tiktoken `cl100k_base` encoding: text to token ids and back. */
  datatype Tokenizer = Tokenizer(encode: string -> seq<Token>, decode: seq<Token> -> string)

  /** What a `DocumentChunker` works with: its encoding, LangChain's recursive
      character splitter (chunk size 1000, overlap 200), and the cosine
      similarity of the `all-MiniLM-L6-v2` embeddings of two sentences. */
  datatype Chunker = Chunker(
    encoding: Tokenizer,
    recursiveSplit: string -> seq<string>,
    similarity: (string, string) -> real)

  const SentenceSeparator: string := ". "
  const DefaultThreshold: real := 0.7
  const DefaultMaxTokens: int := 512

  // ---------------------------------------------------------------------------
  // Semantic chunking
  // ---------------------------------------------------------------------------

  /** `[p.strip() for p in pieces if p.strip()]`. */
  function Stripped(pieces: seq<string>): (r: seq<string>)
    ensures |r| <= |pieces|
    ensures forall k :: 0 <= k < |r| ==> r[k] != []
  {
    if |pieces| == 0 then []
    else (if Strip(pieces[0]) != [] then [Strip(pieces[0])] else []) + Stripped(pieces[1..])
  }

  /** The sentences of a text: its '.'-separated pieces, stripped, blanks dropped. */
  function Sentences(text: string): seq<string> {
    Stripped(Split(text, '.'))
  }

  /** Each stripped, non-blank piece keeps only characters of its piece and
      has no whitespace at either end. */
  lemma {:induction false} StrippedShape(pieces: seq<string>, c: char)
    requires forall k :: 0 <= k < |pieces| ==> c !in pieces[k]
    ensures forall k :: 0 <= k < |Stripped(pieces)| ==> c !in Stripped(pieces)[k]
    ensures forall k :: 0 <= k < |Stripped(pieces)| ==> !IsSpace(Stripped(pieces)[k][0])
    ensures forall k :: 0 <= k < |Stripped(pieces)| ==>
      !IsSpace(Stripped(pieces)[k][|Stripped(pieces)[k]| - 1])
  {
    if |pieces| > 0 {
      var rest := Stripped(pieces[1..]);
      StrippedShape(pieces[1..], c);
      var t := Strip(pieces[0]);
      StripKeepsOut(pieces[0], c);
      var head := if t != [] then [t] else [];
      assert Stripped(pieces) == head + rest;
      forall k | 0 <= k < |head + rest|
        ensures c !in (head + rest)[k]
        ensures !IsSpace((head + rest)[k][0])
        ensures !IsSpace((head + rest)[k][|(head + rest)[k]| - 1])
      {
        if k < |head| {
          assert (head + rest)[k] == t;
        } else {
          assert (head + rest)[k] == rest[k - |head|];
        }
      }
    }
  }

  /** Stripping only removes characters, so it brings in no separator. */
  lemma StripKeepsOut(p: string, c: char)
    requires c !in p
    ensures c !in Strip(p)
  {
    var t := Strip(p);
    var i := LeadingSpace(p);
    forall k | 0 <= k < |t|
      ensures t[k] != c
    {
      assert t[k] == p[i + k];
    }
  }

  /** Every sentence is non-blank, has no whitespace at either end and holds
      no '.'; there are no more sentences than '.'-separated pieces. */
  lemma SentenceShape(text: string)
    ensures |Sentences(text)| <= |Split(text, '.')|
    ensures forall k :: 0 <= k < |Sentences(text)| ==> Sentences(text)[k] != []
    ensures forall k :: 0 <= k < |Sentences(text)| ==> '.' !in Sentences(text)[k]
    ensures forall k :: 0 <= k < |Sentences(text)| ==>
      !IsSpace(Sentences(text)[k][0]) && !IsSpace(Sentences(text)[k][|Sentences(text)[k]| - 1])
  {
    StrippedShape(Split(text, '.'), '.');
  }

  /** The merge test of the loop: strictly above the threshold. */
  predicate Merges(similarity: (string, string) -> real, threshold: real, a: string, b: string) {
    similarity(a, b) > threshold
  }

  /** How the sentences are grouped: the last sentence joins the last group
      when it merges with its predecessor and opens a new group otherwise. */
  function Groups(ss: seq<string>, similarity: (string, string) -> real, threshold: real): (g: seq<seq<string>>)
    requires |ss| >= 1
    ensures 1 <= |g| <= |ss|
    ensures forall k :: 0 <= k < |g| ==> |g[k]| >= 1
    decreases |ss|
  {
    if |ss| == 1 then [[ss[0]]]
    else
      var g := Groups(ss[..|ss| - 1], similarity, threshold);
      if Merges(similarity, threshold, ss[|ss| - 2], ss[|ss| - 1]) then
        g[..|g| - 1] + [g[|g| - 1] + [ss[|ss| - 1]]]
      else
        g + [[ss[|ss| - 1]]]
  }

  /** Each group joined with ". ". */
  function Render(g: seq<seq<string>>): (r: seq<string>)
    ensures |r| == |g|
  {
    seq(|g|, k requires 0 <= k < |g| => Join(g[k], SentenceSeparator))
  }

  /** What `semantic_chunking(text, threshold)` returns. */
  function SemanticChunks(text: string, similarity: (string, string) -> real, threshold: real): seq<string> {
    var ss := Sentences(text);
    if |ss| < 2 then [text] else Render(Groups(ss, similarity, threshold))
  }

  /** The number of adjacent sentence pairs whose similarity is not strictly
      above the threshold. */
  function Breaks(ss: seq<string>, similarity: (string, string) -> real, threshold: real): nat
    decreases |ss|
  {
    if |ss| <= 1 then 0
    else Breaks(ss[..|ss| - 1], similarity, threshold)
         + (if Merges(similarity, threshold, ss[|ss| - 2], ss[|ss| - 1]) then 0 else 1)
  }

  lemma RenderSnoc(g: seq<seq<string>>, x: seq<string>)
    ensures Render(g + [x]) == Render(g) + [Join(x, SentenceSeparator)]
  {
    assert forall k :: 0 <= k < |g| ==> (g + [x])[k] == g[k];
  }

  /** The groups, read in order, are exactly the sentences. */
  lemma {:induction false} GroupsFlatten(ss: seq<string>, similarity: (string, string) -> real, threshold: real)
    requires |ss| >= 1
    ensures Flatten(Groups(ss, similarity, threshold)) == ss
    decreases |ss|
  {
    if |ss| == 1 {
      FlattenOne([ss[0]]);
    } else {
      GroupsFlatten(ss[..|ss| - 1], similarity, threshold);
      GroupsFlattenStep(ss, similarity, threshold);
    }
  }

  /** The last sentence lands at the end of the flattened groups. */
  lemma GroupsFlattenStep(ss: seq<string>, similarity: (string, string) -> real, threshold: real)
    requires |ss| >= 2
    requires Flatten(Groups(ss[..|ss| - 1], similarity, threshold)) == ss[..|ss| - 1]
    ensures Flatten(Groups(ss, similarity, threshold)) == ss
  {
    var init, x := ss[..|ss| - 1], ss[|ss| - 1];
    var g := Groups(init, similarity, threshold);
    var h := Groups(ss, similarity, threshold);
    if Merges(similarity, threshold, ss[|ss| - 2], x) {
      var front, last := g[..|g| - 1], g[|g| - 1];
      assert h == front + [last + [x]];
      FrontLast(g);
      FlattenSnocLast(front, last, x);
      assert Flatten(h) == Flatten(g) + [x];
    } else {
      assert h == g + [[x]];
      FlattenSnoc(g, x);
      assert Flatten(h) == Flatten(g) + [x];
    }
    FrontLast(ss);
  }

  /** One group plus one per break: equality with the threshold starts a new group. */
  lemma {:induction false} GroupsCount(ss: seq<string>, similarity: (string, string) -> real, threshold: real)
    requires |ss| >= 1
    ensures |Groups(ss, similarity, threshold)| == 1 + Breaks(ss, similarity, threshold)
    decreases |ss|
  {
    if |ss| > 1 {
      GroupsCount(ss[..|ss| - 1], similarity, threshold);
    }
  }

  /** Joining all groups' renderings equals joining all their members. */
  lemma {:induction false} JoinRender(g: seq<seq<string>>)
    requires |g| >= 1
    requires forall k :: 0 <= k < |g| ==> |g[k]| >= 1
    ensures Join(Render(g), SentenceSeparator) == Join(Flatten(g), SentenceSeparator)
  {
    if |g| == 1 {
      assert Flatten(g) == g[0] + Flatten([]);
      assert g[0] + [] == g[0];
    } else {
      var rest := g[1..];
      JoinRender(rest);
      assert Render(g) == [Render(g)[0]] + Render(rest);
      JoinConcat([Render(g)[0]], Render(rest), SentenceSeparator);
      assert Flatten(rest) != [] by {
        FlattenAppend([rest[0]], rest[1..]);
        assert [rest[0]] + rest[1..] == rest;
        assert Flatten([rest[0]]) == rest[0] + Flatten([]);
      }
      JoinConcat(g[0], Flatten(rest), SentenceSeparator);
    }
  }

  /** With two or more sentences, the chunks partition them: each chunk is a
      non-empty run of consecutive sentences joined with ". ", the runs read in
      order are the sentences, and joining the chunks with ". " is joining the
      sentences with ". ". */
  lemma SemanticPartition(text: string, similarity: (string, string) -> real, threshold: real)
    requires |Sentences(text)| >= 2
    ensures var g := Groups(Sentences(text), similarity, threshold);
      && Flatten(g) == Sentences(text)
      && (forall k :: 0 <= k < |g| ==> |g[k]| >= 1)
      && SemanticChunks(text, similarity, threshold) == Render(g)
      && Join(SemanticChunks(text, similarity, threshold), SentenceSeparator)
         == Join(Sentences(text), SentenceSeparator)
  {
    var ss := Sentences(text);
    GroupsFlatten(ss, similarity, threshold);
    JoinRender(Groups(ss, similarity, threshold));
  }

  /** With two or more sentences there is one chunk per break plus one,
      between 1 and the number of sentences. */
  lemma SemanticCount(text: string, similarity: (string, string) -> real, threshold: real)
    requires |Sentences(text)| >= 2
    ensures |SemanticChunks(text, similarity, threshold)|
            == 1 + Breaks(Sentences(text), similarity, threshold)
    ensures 1 <= |SemanticChunks(text, similarity, threshold)| <= |Sentences(text)|
  {
    GroupsCount(Sentences(text), similarity, threshold);
  }

  /** With fewer than two sentences the text comes back whole, unstripped. */
  lemma SemanticFewSentences(text: string, similarity: (string, string) -> real, threshold: real)
    requires |Sentences(text)| < 2
    ensures SemanticChunks(text, similarity, threshold) == [text]
  {
  }

  /** When no adjacent pair merges, every sentence is its own group. */
  lemma {:induction false} GroupsNoMerge(ss: seq<string>, similarity: (string, string) -> real, threshold: real)
    requires |ss| >= 1
    requires forall i :: 1 <= i < |ss| ==> !Merges(similarity, threshold, ss[i - 1], ss[i])
    ensures Groups(ss, similarity, threshold) == seq(|ss|, k requires 0 <= k < |ss| => [ss[k]])
    decreases |ss|
  {
    if |ss| > 1 {
      var init := ss[..|ss| - 1];
      GroupsNoMerge(init, similarity, threshold);
      assert !Merges(similarity, threshold, ss[|ss| - 2], ss[|ss| - 1]);
    }
  }

  /** When no adjacent pair is similar enough, the chunks are the sentences. */
  lemma SemanticNoMerge(text: string, similarity: (string, string) -> real, threshold: real)
    requires |Sentences(text)| >= 2
    requires forall k :: 0 <= k < |Sentences(text)| - 1 ==>
      !Merges(similarity, threshold, Sentences(text)[k], Sentences(text)[k + 1])
    ensures SemanticChunks(text, similarity, threshold) == Sentences(text)
  {
    var ss := Sentences(text);
    assert forall i :: 1 <= i < |ss| ==> !Merges(similarity, threshold, ss[i - 1], ss[i]) by {
      forall i | 1 <= i < |ss|
        ensures !Merges(similarity, threshold, ss[i - 1], ss[i])
      {
        assert !Merges(similarity, threshold, ss[(i - 1)], ss[(i - 1) + 1]);
      }
    }
    GroupsNoMerge(ss, similarity, threshold);
  }

  /** How one more sentence changes the grouping of a prefix. */
  lemma GroupsStep(ss: seq<string>, i: nat, similarity: (string, string) -> real, threshold: real)
    requires 1 <= i < |ss|
    ensures var g := Groups(ss[..i], similarity, threshold);
      var h := Groups(ss[..i + 1], similarity, threshold);
      if Merges(similarity, threshold, ss[i - 1], ss[i]) then
        h[..|h| - 1] == g[..|g| - 1] && h[|h| - 1] == g[|g| - 1] + [ss[i]]
      else
        h[..|h| - 1] == g && h[|h| - 1] == [ss[i]]
  {
    var t := ss[..i + 1];
    assert t[..|t| - 1] == ss[..i];
    assert t[|t| - 2] == ss[i - 1] && t[|t| - 1] == ss[i];
  }

  /** `semantic_chunking`: fewer than two sentences give the text back whole;
      otherwise the merge loop groups them. */
  method SemanticChunking(text: string, similarity: (string, string) -> real, threshold: real)
    returns (chunks: seq<string>)
    ensures chunks == SemanticChunks(text, similarity, threshold)
  {
    var sentences := Sentences(text);
    if |sentences| < 2 {
      return [text];
    }
    chunks := MergeSentences(sentences, similarity, threshold);
  }

  /** The loop state of `semantic_chunking` after sentence i - 1: the chunks
      already closed and the group still open. */
  predicate MergeState(ss: seq<string>, i: nat, similarity: (string, string) -> real, threshold: real,
                       chunks: seq<string>, current: seq<string>)
    requires 1 <= i <= |ss|
  {
    var g := Groups(ss[..i], similarity, threshold);
    chunks == Render(g[..|g| - 1]) && current == g[|g| - 1]
  }

  /** One iteration of the merge loop keeps the loop state: a merging
      sentence joins the open group, any other closes it and opens its own. */
  lemma MergeStep(ss: seq<string>, i: nat, similarity: (string, string) -> real, threshold: real,
                  chunks: seq<string>, current: seq<string>)
    requires 1 <= i < |ss|
    requires MergeState(ss, i, similarity, threshold, chunks, current)
    ensures similarity(ss[i - 1], ss[i]) > threshold ==>
      MergeState(ss, i + 1, similarity, threshold, chunks, current + [ss[i]])
    ensures similarity(ss[i - 1], ss[i]) <= threshold ==>
      MergeState(ss, i + 1, similarity, threshold, chunks + [Join(current, SentenceSeparator)], [ss[i]])
  {
    var g := Groups(ss[..i], similarity, threshold);
    GroupsStep(ss, i, similarity, threshold);
    if similarity(ss[i - 1], ss[i]) <= threshold {
      RenderSnoc(g[..|g| - 1], g[|g| - 1]);
      FrontLast(g);
    }
  }

  /** The last group closed: the loop state at the end is the whole rendering. */
  lemma MergeFinish(ss: seq<string>, similarity: (string, string) -> real, threshold: real,
                    chunks: seq<string>, current: seq<string>)
    requires 1 <= |ss|
    requires MergeState(ss, |ss|, similarity, threshold, chunks, current)
    ensures |current| > 0
    ensures chunks + [Join(current, SentenceSeparator)] == Render(Groups(ss, similarity, threshold))
  {
    assert ss[..|ss|] == ss;
    var g := Groups(ss, similarity, threshold);
    RenderSnoc(g[..|g| - 1], g[|g| - 1]);
    FrontLast(g);
  }

  /** The merge loop of `semantic_chunking`, proved against Groups. */
  method MergeSentences(sentences: seq<string>, similarity: (string, string) -> real, threshold: real)
    returns (chunks: seq<string>)
    requires |sentences| >= 1
    ensures chunks == Render(Groups(sentences, similarity, threshold))
  {
    chunks := [];
    var current := [sentences[0]];
    assert sentences[..1] == [sentences[0]];
    for i := 1 to |sentences|
      invariant MergeState(sentences, i, similarity, threshold, chunks, current)
    {
      MergeStep(sentences, i, similarity, threshold, chunks, current);
      if similarity(sentences[i - 1], sentences[i]) > threshold {
        current := current + [sentences[i]];
      } else {
        chunks := chunks + [Join(current, SentenceSeparator)];
        current := [sentences[i]];
      }
    }
    MergeFinish(sentences, similarity, threshold, chunks, current);
    if |current| > 0 {
      chunks := chunks + [Join(current, SentenceSeparator)];
    }
  }

  // ---------------------------------------------------------------------------
  // Token-window chunking
  // ---------------------------------------------------------------------------

  /** The token windows of stride and width `m`: consecutive, non-overlapping. */
  function Windows(tokens: seq<Token>, m: nat): (w: seq<seq<Token>>)
    requires m > 0
    ensures forall k :: 0 <= k < |w| ==> 1 <= |w[k]| <= m
    decreases |tokens|
  {
    if |tokens| == 0 then []
    else if |tokens| <= m then [tokens]
    else [tokens[..m]] + Windows(tokens[m..], m)
  }

  /** Cut a decoded window back to its last '.' when that '.' lies beyond 80%
      of its length (`rfind('.') > len * 0.8`, as the exact test 5p > 4n). */
  function TrimToSentence(t: string): (r: string)
    ensures |r| <= |t| && r == t[..|r|]
    ensures |r| < |t| ==> |r| >= 1 && r[|r| - 1] == '.' && 5 * (|r| - 1) > 4 * |t|
  {
    var p := RFind(t, '.');
    if 5 * p > 4 * |t| then t[..p + 1] else t
  }

  /** TrimToSentence cuts exactly at the last '.': when it cuts, no '.'
      follows the cut, and when the last '.' lies beyond 80% of the window's
      length, the window is cut right after it. */
  lemma TrimAtLastPeriod(t: string)
    ensures var r := TrimToSentence(t);
      |r| < |t| ==> forall k :: |r| <= k < |t| ==> t[k] != '.'
    ensures forall p :: (0 <= p < |t| && t[p] == '.' && 5 * p > 4 * |t|
                         && (forall k :: p < k < |t| ==> t[k] != '.')) ==> TrimToSentence(t) == t[..p + 1]
  {
  }

  /** The chunk texts of the token windows: every window but the last is trimmed. */
  function TokenChunks(tokens: seq<Token>, m: nat, decode: seq<Token> -> string): seq<string>
    requires m > 0
    decreases |tokens|
  {
    if |tokens| == 0 then []
    else if |tokens| <= m then [decode(tokens)]
    else [TrimToSentence(decode(tokens[..m]))] + TokenChunks(tokens[m..], m, decode)
  }

  /** What `custom_chunking(text, max_tokens)` returns: `range` refuses a zero
      step and yields nothing for a negative one. */
  function CustomChunks(text: string, maxTokens: int, encoding: Tokenizer): Result<seq<string>, Error> {
    if maxTokens == 0 then Failure(ValueError("range() arg 3 must not be zero"))
    else if maxTokens < 0 then Success([])
    else Success(TokenChunks(encoding.encode(text), maxTokens, encoding.decode))
  }

  /** There are ceil(n / m) windows: the fewest windows of width m that cover n tokens. */
  lemma {:induction false} WindowsCount(tokens: seq<Token>, m: nat)
    requires m > 0
    ensures (|Windows(tokens, m)| - 1) * m < |tokens| <= |Windows(tokens, m)| * m
            || (|tokens| == 0 && |Windows(tokens, m)| == 0)
    decreases |tokens|
  {
    var n := |tokens|;
    if n > m {
      var c := |Windows(tokens[m..], m)|;
      WindowsCount(tokens[m..], m);
      assert |Windows(tokens, m)| == c + 1;
      assert (c + 1) * m == c * m + m;
      assert (c - 1) * m + m == c * m;
    }
  }

  /** The windows, read in order, are the tokens: no overlap, no gap. */
  lemma {:induction false} WindowsFlatten(tokens: seq<Token>, m: nat)
    requires m > 0
    ensures Flatten(Windows(tokens, m)) == tokens
    decreases |tokens|
  {
    if |tokens| == 0 {
    } else if |tokens| <= m {
      assert Flatten([tokens]) == tokens + Flatten([]);
      assert tokens + [] == tokens;
    } else {
      WindowsFlatten(tokens[m..], m);
      var w := Windows(tokens, m);
      assert w[1..] == Windows(tokens[m..], m);
      assert tokens[..m] + tokens[m..] == tokens;
    }
  }

  /** Window k covers tokens [k*m, min((k+1)*m, n)), and it is the last window
      exactly when (k+1)*m reaches n. */
  lemma {:induction false} WindowAt(tokens: seq<Token>, m: nat, k: nat)
    requires m > 0
    requires k < |Windows(tokens, m)|
    ensures k * m < |tokens|
    ensures Windows(tokens, m)[k] == tokens[k * m .. Min((k + 1) * m, |tokens|)]
    ensures k == |Windows(tokens, m)| - 1 <==> (k + 1) * m >= |tokens|
    decreases |tokens|
  {
    if |tokens| <= m {
      assert k == 0;
    } else if k == 0 {
      assert |Windows(tokens, m)| == 1 + |Windows(tokens[m..], m)|;
      assert |Windows(tokens[m..], m)| >= 1;
    } else {
      var rest := tokens[m..];
      WindowAt(rest, m, k - 1);
      ShiftedWindow(tokens, m, k);
      assert Windows(tokens, m)[k] == Windows(rest, m)[k - 1];
    }
  }

  /** Window k - 1 of the tokens after the first window is window k of the
      tokens. */
  lemma ShiftedWindow(tokens: seq<Token>, m: nat, k: nat)
    requires 0 < m < |tokens| && k >= 1 && (k - 1) * m < |tokens| - m
    ensures k * m < |tokens|
    ensures tokens[m..][(k - 1) * m .. Min(k * m, |tokens| - m)] == tokens[k * m .. Min((k + 1) * m, |tokens|)]
    ensures k * m >= |tokens| - m <==> (k + 1) * m >= |tokens|
  {
    MulSucc(k - 1, m);
    MulSucc(k, m);
    var lo, mid, hi := (k - 1) * m, k * m, (k + 1) * m;
    assert mid == lo + m && hi == mid + m;
    assert tokens[m..][lo .. Min(mid, |tokens| - m)] == tokens[mid .. Min(hi, |tokens|)];
  }

  lemma MulSucc(a: nat, m: nat)
    ensures (a + 1) * m == a * m + m
  {
  }

  /** One chunk per window: a non-final chunk is its decoded window trimmed to
      a sentence end, the final chunk is its decoded window untouched. */
  lemma {:induction false} TokenChunksAt(tokens: seq<Token>, m: nat, decode: seq<Token> -> string)
    requires m > 0
    ensures |TokenChunks(tokens, m, decode)| == |Windows(tokens, m)|
    ensures var w := Windows(tokens, m); var c := TokenChunks(tokens, m, decode);
      forall k :: 0 <= k < |w| ==>
        c[k] == (if k < |w| - 1 then TrimToSentence(decode(w[k])) else decode(w[k]))
    decreases |tokens|
  {
    if |tokens| > m {
      TokenChunksAt(tokens[m..], m, decode);
      assert |Windows(tokens[m..], m)| >= 1;
    }
  }

  /** The properties of token chunking together: one chunk per window of the
      encoded text, chunk k the decoding of tokens [k*m, min((k+1)*m, n)),
      trimmed only when that window is not the final one, and always a prefix
      of its decoded window. */
  lemma CustomShape(text: string, m: int, encoding: Tokenizer, k: nat)
    requires m > 0
    requires k < |TokenChunks(encoding.encode(text), m, encoding.decode)|
    ensures CustomChunks(text, m, encoding).Success?
    ensures |CustomChunks(text, m, encoding).value| == |Windows(encoding.encode(text), m)|
    ensures k * m < |encoding.encode(text)| && k * m <= (k + 1) * m
    ensures var tokens := encoding.encode(text);
      var chunk := CustomChunks(text, m, encoding).value[k];
      var window := tokens[k * m .. Min((k + 1) * m, |tokens|)];
      && chunk == (if (k + 1) * m < |tokens| then TrimToSentence(encoding.decode(window))
                   else encoding.decode(window))
      && chunk == encoding.decode(window)[..|chunk|]
  {
    var tokens := encoding.encode(text);
    TokenChunksAt(tokens, m, encoding.decode);
    WindowAt(tokens, m, k);
    assert (k + 1) * m == k * m + m;
  }

  /** The chunk of the window that starts at token i: decoded, and trimmed
      unless it is the last window. */
  function WindowChunk(tokens: seq<Token>, i: nat, m: nat, decode: seq<Token> -> string): string
    requires i < |tokens|
  {
    if i + m < |tokens| then TrimToSentence(decode(tokens[i..i + m])) else decode(tokens[i..])
  }

  /** `custom_chunking`: encode, then cut the tokens into windows; `range`
      refuses a zero step and yields nothing for a negative one. */
  method CustomChunking(text: string, maxTokens: int, encoding: Tokenizer)
    returns (r: Result<seq<string>, Error>)
    ensures r == CustomChunks(text, maxTokens, encoding)
  {
    var tokens := encoding.encode(text);
    if maxTokens == 0 {
      return Failure(ValueError("range() arg 3 must not be zero"));
    } else if maxTokens < 0 {
      return Success([]);
    }
    var chunks := ChunkWindows(tokens, maxTokens, encoding.decode);
    return Success(chunks);
  }

  /** The body of the window loop: slice, decode, and cut back to the last
      '.' when it lies beyond 80% of a window that is not the last. */
  method DecodeWindow(tokens: seq<Token>, i: nat, maxTokens: nat, decode: seq<Token> -> string)
    returns (chunkText: string)
    requires i < |tokens|
    ensures chunkText == WindowChunk(tokens, i, maxTokens, decode)
  {
    // The slice `tokens[i:i + max_tokens]` stops at the end of the tokens.
    var end := Min(i + maxTokens, |tokens|);
    chunkText := decode(tokens[i..end]);
    if i + maxTokens < |tokens| {
      var lastPeriod := RFind(chunkText, '.');
      if 5 * lastPeriod > 4 * |chunkText| {
        chunkText := chunkText[..lastPeriod + 1];
      }
    } else {
      assert tokens[i..end] == tokens[i..];
    }
  }

  /** The chunks of the windows that start at token i, i + m, ... : the
      loop of `custom_chunking` read as a recursion on the start index. */
  function ChunksFrom(tokens: seq<Token>, i: nat, m: nat, decode: seq<Token> -> string): seq<string>
    requires m > 0
    decreases |tokens| - i
  {
    if i >= |tokens| then [] else [WindowChunk(tokens, i, m, decode)] + ChunksFrom(tokens, i + m, m, decode)
  }

  /** Reading the windows by start index agrees with cutting the tokens
      from i on window by window. */
  lemma {:induction false} ChunksFromSuffix(tokens: seq<Token>, i: nat, m: nat, decode: seq<Token> -> string)
    requires m > 0 && i <= |tokens|
    ensures ChunksFrom(tokens, i, m, decode) == TokenChunks(tokens[i..], m, decode)
    decreases |tokens| - i
  {
    if i + m < |tokens| {
      ChunksFromSuffix(tokens, i + m, m, decode);
    }
    ChunksFromWindow(tokens, i, m, decode);
  }

  /** One window: if the readings agree from i + m on, they agree from i on. */
  lemma ChunksFromWindow(tokens: seq<Token>, i: nat, m: nat, decode: seq<Token> -> string)
    requires m > 0 && i <= |tokens|
    requires i + m < |tokens| ==>
      ChunksFrom(tokens, i + m, m, decode) == TokenChunks(tokens[i + m..], m, decode)
    ensures ChunksFrom(tokens, i, m, decode) == TokenChunks(tokens[i..], m, decode)
  {
    if i + m < |tokens| {
      ChunksFromInner(tokens, i, m, decode);
    } else {
      ChunksFromLast(tokens, i, m, decode);
    }
  }

  /** A window that is not the last: both readings trim it and go on at i + m. */
  lemma ChunksFromInner(tokens: seq<Token>, i: nat, m: nat, decode: seq<Token> -> string)
    requires m > 0 && i + m < |tokens|
    requires ChunksFrom(tokens, i + m, m, decode) == TokenChunks(tokens[i + m..], m, decode)
    ensures ChunksFrom(tokens, i, m, decode) == TokenChunks(tokens[i..], m, decode)
  {
    DropSlices(tokens, i, m);
  }

  /** The last window (or none): both readings end with its untrimmed chunk. */
  lemma ChunksFromLast(tokens: seq<Token>, i: nat, m: nat, decode: seq<Token> -> string)
    requires m > 0 && i <= |tokens| <= i + m
    ensures ChunksFrom(tokens, i, m, decode) == TokenChunks(tokens[i..], m, decode)
  {
    if i < |tokens| {
      assert ChunksFrom(tokens, i + m, m, decode) == [];
    }
  }

  /** The loop state of `custom_chunking` at token i: the chunks produced so
      far followed by the chunks of the windows from i on are all the chunks. */
  predicate WindowsState(tokens: seq<Token>, i: nat, m: nat, decode: seq<Token> -> string, chunks: seq<string>)
    requires m > 0
  {
    chunks + ChunksFrom(tokens, i, m, decode) == ChunksFrom(tokens, 0, m, decode)
  }

  /** One window keeps the loop state. */
  lemma ChunkWindowsStep(tokens: seq<Token>, i: nat, m: nat, decode: seq<Token> -> string,
                         chunks: seq<string>, chunkText: string)
    requires m > 0 && i < |tokens|
    requires WindowsState(tokens, i, m, decode, chunks)
    requires chunkText == WindowChunk(tokens, i, m, decode)
    ensures WindowsState(tokens, i + m, m, decode, chunks + [chunkText])
  {
    var later := ChunksFrom(tokens, i + m, m, decode);
    assert chunks + ([chunkText] + later) == (chunks + [chunkText]) + later;
  }

  /** Once the windows pass the end, the loop state gives all chunks. */
  lemma ChunkWindowsEnd(tokens: seq<Token>, i: nat, m: nat, decode: seq<Token> -> string, chunks: seq<string>)
    requires m > 0 && i >= |tokens|
    requires WindowsState(tokens, i, m, decode, chunks)
    ensures chunks == TokenChunks(tokens, m, decode)
  {
    AppendEmpty(chunks);
    ChunksFromSuffix(tokens, 0, m, decode);
    assert tokens[0..] == tokens;
  }

  /** The window loop of `custom_chunking`, proved against TokenChunks. */
  method ChunkWindows(tokens: seq<Token>, maxTokens: nat, decode: seq<Token> -> string)
    returns (chunks: seq<string>)
    requires maxTokens > 0
    ensures chunks == TokenChunks(tokens, maxTokens, decode)
  {
    chunks := [];
    var i: nat := 0;
    AppendEmpty(ChunksFrom(tokens, 0, maxTokens, decode));
    while i < |tokens|
      invariant WindowsState(tokens, i, maxTokens, decode, chunks)
      decreases |tokens| - i
    {
      var chunkText := DecodeWindow(tokens, i, maxTokens, decode);
      ChunkWindowsStep(tokens, i, maxTokens, decode, chunks, chunkText);
      chunks := chunks + [chunkText];
      i := i + maxTokens;
    }
    ChunkWindowsEnd(tokens, i, maxTokens, decode, chunks);
  }

  // ---------------------------------------------------------------------------
  // Dispatch
  // ---------------------------------------------------------------------------

  /** What `chunk_document(text, method)` returns or raises. */
  function DocumentChunks(text: string, methodName: string, chunker: Chunker): Result<seq<string>, Error> {
    if methodName == "recursive" then Success(chunker.recursiveSplit(text))
    else if methodName == "semantic" then Success(SemanticChunks(text, chunker.similarity, DefaultThreshold))
    else if methodName == "custom" then CustomChunks(text, DefaultMaxTokens, chunker.encoding)
    else Failure(ValueError("Unknown chunking method: " + methodName))
  }

  /** `chunk_document(text, method)`: the three strategies with their default
      parameters, and a ValueError for any other name. */
  method ChunkDocument(text: string, methodName: string, chunker: Chunker)
    returns (r: Result<seq<string>, Error>)
    ensures r == DocumentChunks(text, methodName, chunker)
    ensures methodName == "recursive" ==> r == Success(chunker.recursiveSplit(text))
    ensures methodName == "semantic" ==>
      r == Success(SemanticChunks(text, chunker.similarity, DefaultThreshold))
    ensures methodName == "custom" ==>
      r == CustomChunks(text, DefaultMaxTokens, chunker.encoding) && r.Success?
    ensures r.Failure? <==> methodName !in {"recursive", "semantic", "custom"}
    ensures r.Failure? ==> r.error == ValueError("Unknown chunking method: " + methodName)
  {
    if methodName == "recursive" {
      r := Success(chunker.recursiveSplit(text));
    } else if methodName == "semantic" {
      var chunks := SemanticChunking(text, chunker.similarity, DefaultThreshold);
      r := Success(chunks);
    } else if methodName == "custom" {
      r := CustomChunking(text, DefaultMaxTokens, chunker.encoding);
    } else {
      r := Failure(ValueError("Unknown chunking method: " + methodName));
    }
  }
}
