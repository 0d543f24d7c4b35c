/**
 * The OpenAI-facing service of lib/llm.ts, minus the network: API-key
 * validation in the constructor, cleaning of the model's reply
 * (`extractJsonFromMarkdown`), and the mapping of failures to the four
 * user-facing messages. The chat completion and `JSON.parse` are
 * parameters: a `Completion` value and a `parse` function.
 */
module Llm {
  import opened Wrappers
  import opened Strings

  datatype Energy = High | Medium | Low

  datatype MusicPreferences = MusicPreferences(genres: seq<string>, energy: real, valence: real,
                                               danceability: real, acousticness: real)

  datatype PersonalityAnalysis = PersonalityAnalysis(personalityType: string, description: string,
                                                     traits: seq<string>, musicPreferences: MusicPreferences)

  datatype SongRecommendation = SongRecommendation(query: string, reason: string, personalityMatch: seq<string>,
                                                   mood: string, energy: Energy)

  // ---------------------------------------------------------------------
  // Constructor: API-key validation
  // ---------------------------------------------------------------------

  const KEY_NOT_SET := "OPENAI_API_KEY environment variable is not set"
  const KEY_INVALID := "OPENAI_API_KEY invalid"
  const KEY_PREFIX := "sk-"

  /** A constructed service; the OpenAI client it wraps is represented by its key. */
  datatype LlmService = LlmService(apiKey: string)

  /**
   * `new LLMService()` with `OPENAI_API_KEY` read from the environment:
   * a missing or empty key and a key without the `sk-` prefix are rejected,
   * in that order.
   */
  function NewLlmService(apiKey: Option<string>): (r: Result<LlmService, string>)
    ensures r == Failure(KEY_NOT_SET) <==> apiKey.None? || apiKey.value == ""
    ensures r == Failure(KEY_INVALID) <==> apiKey.Some? && apiKey.value != "" && !StartsWith(apiKey.value, KEY_PREFIX)
    ensures r.Success? <==> apiKey.Some? && StartsWith(apiKey.value, KEY_PREFIX)
    ensures r.Success? ==> r.value.apiKey == apiKey.value
  {
    if apiKey.None? || apiKey.value == "" then Failure(KEY_NOT_SET)
    else if !StartsWith(apiKey.value, KEY_PREFIX) then Failure(KEY_INVALID)
    else Success(LlmService(apiKey.value))
  }

  // ---------------------------------------------------------------------
  // extractJsonFromMarkdown
  // ---------------------------------------------------------------------

  const FENCE := "```"
  const JSON_FENCE := "```json"

  /** Some `open` fence is followed, at or after its end, by a closing fence. */
  ghost predicate HasBlock(text: string, open: string)
  {
    exists i, j :: OccursAt(text, open, i) && OccursAt(text, FENCE, j) && i + |open| <= j
  }

  /**
   * `i` is the first occurrence of `open` and `j` the first closing fence at
   * or after its end: where the leftmost match of
   * `/<open>\s*([\s\S]*?)\s*```/` starts and where its closing fence sits.
   */
  ghost predicate BlockAt(text: string, open: string, i: int, j: int)
  {
    && OccursAt(text, open, i) && (forall k :: 0 <= k < i ==> !OccursAt(text, open, k))
    && i + |open| <= j && OccursAt(text, FENCE, j)
    && (forall k :: i + |open| <= k < j ==> !OccursAt(text, FENCE, k))
  }

  /**
   * The trimmed body of the leftmost block opened by `open`. The lazy
   * group, together with the two `\s*` around it, covers exactly the text
   * between the opening fence and the next closing fence, and `trim`
   * removes the whitespace either `\s*` took.
   */
  function FencedBlock(text: string, open: string): (r: Option<string>)
    requires open != []
    ensures r.Some? <==> HasBlock(text, open)
  {
    match IndexOf(text, open, 0)
    case None => None
    case Some(i) =>
      match IndexOf(text, FENCE, i + |open|)
      case None =>
        UnclosedFirstFence(text, open, i);
        None
      case Some(j) =>
        FirstBlock(text, open, i, j);
        Some(Trim(text[i + |open|..j]))
  }

  /** When the first opening fence is never closed, no later one is either. */
  lemma UnclosedFirstFence(text: string, open: string, i: nat)
    requires IndexOf(text, open, 0) == Some(i) && IndexOf(text, FENCE, i + |open|) == None
    ensures !HasBlock(text, open)
  {
    forall i', j' | OccursAt(text, open, i') && OccursAt(text, FENCE, j') ensures i' + |open| > j' {
      assert i <= i';
    }
  }

  lemma FirstBlock(text: string, open: string, i: nat, j: nat)
    requires IndexOf(text, open, 0) == Some(i) && IndexOf(text, FENCE, i + |open|) == Some(j)
    ensures HasBlock(text, open) && BlockAt(text, open, i, j)
    ensures forall i', j' :: BlockAt(text, open, i', j') ==> i' == i && j' == j
  {
    assert BlockAt(text, open, i, j);
    forall i', j' | BlockAt(text, open, i', j') ensures i' == i && j' == j {
      BlockAtUnique(text, open, i, j, i', j');
    }
  }

  /** The first occurrence and the next closing fence are determined by the text. */
  lemma BlockAtUnique(text: string, open: string, i: int, j: int, i': int, j': int)
    requires BlockAt(text, open, i, j) && BlockAt(text, open, i', j')
    ensures i == i' && j == j'
  {
  }

  /** Where a block exists, `FencedBlock` yields its trimmed body. */
  lemma FencedBlockBody(text: string, open: string, i: int, j: int)
    requires open != [] && BlockAt(text, open, i, j)
    ensures FencedBlock(text, open) == Some(Trim(text[i + |open|..j]))
  {
    var i0 := IndexOf(text, open, 0);
    assert i0 == Some(i);
    var j0 := IndexOf(text, FENCE, i + |open|);
    assert j0 == Some(j);
  }

  /**
   * `extractJsonFromMarkdown`: the body of the first ```` ```json ```` block
   * if there is one, else the body of the first ```` ``` ```` block, else
   * the whole text; trimmed in every case (see also the two lemmas below).
   */
  function ExtractJsonFromMarkdown(text: string): (r: string)
    ensures NoEdgeSpace(r)
    ensures |r| <= |text|
    ensures !HasBlock(text, JSON_FENCE) && !HasBlock(text, FENCE) ==> r == Trim(text)
  {
    match FencedBlock(text, JSON_FENCE)
    case Some(body) => body
    case None =>
      match FencedBlock(text, FENCE)
      case Some(body) => body
      case None => Trim(text)
  }

  /** With a ```` ```json ```` block present, its trimmed body is returned. */
  lemma ExtractJsonBlock(text: string, i: int, j: int)
    requires BlockAt(text, JSON_FENCE, i, j)
    ensures ExtractJsonFromMarkdown(text) == Trim(text[i + |JSON_FENCE|..j])
  {
    FencedBlockBody(text, JSON_FENCE, i, j);
  }

  /** Without a ```` ```json ```` block, the first plain ```` ``` ```` block's trimmed body is returned. */
  lemma ExtractCodeBlock(text: string, i: int, j: int)
    requires !HasBlock(text, JSON_FENCE) && BlockAt(text, FENCE, i, j)
    ensures ExtractJsonFromMarkdown(text) == Trim(text[i + |FENCE|..j])
  {
    FencedBlockBody(text, FENCE, i, j);
  }

  /** No code fence starts anywhere in `s`. */
  ghost predicate FenceFree(s: string)
  {
    forall k :: !OccursAt(s, FENCE, k)
  }

  lemma FenceFreeNoHasBlock(s: string)
    requires FenceFree(s)
    ensures !HasBlock(s, JSON_FENCE) && !HasBlock(s, FENCE)
  {
  }

  /** A reply without any code fence is returned trimmed. */
  lemma PlainReplyIsTrimmed(text: string)
    requires FenceFree(text)
    ensures ExtractJsonFromMarkdown(text) == Trim(text)
  {
    FenceFreeNoHasBlock(text);
  }

  /** A window lying inside a fence-free part of `s` is not a fence. */
  lemma FenceFreeWindow(s: string, body: string, off: int, k: int)
    requires FenceFree(body) && 0 <= off <= k && k + |FENCE| <= off + |body| <= |s|
    requires s[off..off + |body|] == body
    ensures !OccursAt(s, FENCE, k)
  {
    var t := k - off;
    var window := s[k..k + |FENCE|];
    var inBody := body[t..t + |FENCE|];
    forall u | 0 <= u < |FENCE| ensures window[u] == inBody[u] {
      assert body[t + u] == s[off..off + |body|][t + u];
    }
    assert window == inBody;
    assert !OccursAt(body, FENCE, t);
  }

  /** A window that contains a newline is not a fence. */
  lemma NewlineBreaksFence(s: string, k: int, n: int)
    requires 0 <= k <= n < k + |FENCE| <= |s| && s[n] == '\n'
    ensures !OccursAt(s, FENCE, k)
  {
    assert s[k..k + |FENCE|][n - k] == '\n';
  }

  lemma NewlinePaddedFenceFree(body: string)
    requires FenceFree(body)
    ensures FenceFree("\n" + body + "\n")
  {
    var mid := "\n" + body + "\n";
    assert mid[1..1 + |body|] == body;
    forall k | 0 <= k && k + |FENCE| <= |mid| ensures !OccursAt(mid, FENCE, k) {
      if k == 0 {
        NewlineBreaksFence(mid, k, 0);
      } else if k + |FENCE| == |mid| {
        NewlineBreaksFence(mid, k, |mid| - 1);
      } else {
        FenceFreeWindow(mid, body, 1, k);
      }
    }
  }

  /** A fence-free text ending in a newline, between ```` ```json ```` and ```` ``` ````, forms the first block. */
  lemma WrappedBlockAt(mid: string)
    requires FenceFree(mid) && mid != [] && mid[|mid| - 1] == '\n'
    ensures BlockAt(JSON_FENCE + mid + FENCE, JSON_FENCE, 0, |JSON_FENCE| + |mid|)
  {
    var text := JSON_FENCE + mid + FENCE;
    var j := |JSON_FENCE| + |mid|;
    assert text[..|JSON_FENCE|] == JSON_FENCE;
    assert text[j..j + |FENCE|] == FENCE;
    assert text[|JSON_FENCE|..j] == mid;
    forall k | |JSON_FENCE| <= k < j ensures !OccursAt(text, FENCE, k) {
      if k + |FENCE| <= j {
        FenceFreeWindow(text, mid, |JSON_FENCE|, k);
      } else if k + |FENCE| <= |text| {
        NewlineBreaksFence(text, k, j - 1);
      }
    }
  }

  /**
   * Round trip: a JSON body without fences or edge whitespace, wrapped the
   * way the model is asked to wrap it, comes back unchanged.
   */
  lemma WrappedJsonRoundTrip(body: string)
    requires FenceFree(body) && NoEdgeSpace(body)
    ensures ExtractJsonFromMarkdown(JSON_FENCE + "\n" + body + "\n" + FENCE) == body
  {
    var mid := "\n" + body + "\n";
    NewlinePaddedFenceFree(body);
    WrappedBlockAt(mid);
    var text := JSON_FENCE + mid + FENCE;
    assert JSON_FENCE + "\n" + body + "\n" + FENCE == text;
    ExtractJsonBlock(text, 0, |JSON_FENCE| + |mid|);
    assert text[|JSON_FENCE|..|JSON_FENCE| + |mid|] == mid;
    TrimNewlines(body);
  }

  lemma TrimNewlines(body: string)
    requires NoEdgeSpace(body)
    ensures Trim("\n" + body + "\n") == body
  {
    TrimPadded("\n", body, "\n");
  }

  // ---------------------------------------------------------------------
  // Error classification of analyzePersonality / generateSongRecommendations
  // ---------------------------------------------------------------------

  const QUOTA_EXCEEDED := "OpenAI API quota exceeded. Please check your billing details or try again later."
  const INVALID_API_KEY := "OpenAI API key is invalid. Please check your configuration."
  const INVALID_REQUEST := "Invalid request to OpenAI API. Please check the input data."
  const ANALYSIS_FAILED := "Failed to analyze personality. Please try again later."
  const RECOMMENDATIONS_FAILED := "Failed to generate song recommendations. Please try again later."

  datatype Operation = AnalyzePersonalityOp | GenerateSongRecommendationsOp

  /** The message an operation falls back to for any error without a recognised status. */
  function GenericMessage(op: Operation): string
  {
    match op
    case AnalyzePersonalityOp => ANALYSIS_FAILED
    case GenerateSongRecommendationsOp => RECOMMENDATIONS_FAILED
  }

  /**
   * The `catch` block: the caught error's `status` (absent for errors that
   * carry none, such as 'No response from OpenAI' or a parse failure)
   * chooses the message that is thrown instead.
   */
  function ErrorMessage(op: Operation, status: Option<int>): (msg: string)
    ensures msg == QUOTA_EXCEEDED <==> status == Some(429)
    ensures msg == INVALID_API_KEY <==> status == Some(401)
    ensures msg == INVALID_REQUEST <==> status == Some(400)
    ensures msg == GenericMessage(op) <==> status != Some(429) && status != Some(401) && status != Some(400)
  {
    if status == Some(429) then QUOTA_EXCEEDED
    else if status == Some(401) then INVALID_API_KEY
    else if status == Some(400) then INVALID_REQUEST
    else GenericMessage(op)
  }

  /**
   * What the chat-completion request produced: the first choice's message
   * content (absent when there is no choice or no content), or an error
   * thrown by the client, with the HTTP status it carries, if any.
   */
  datatype Completion = Answered(content: Option<string>) | ApiError(status: Option<int>)

  /** The reply text, when there is a non-empty one. */
  function ReplyText(completion: Completion): Option<string>
  {
    if completion.Answered? && completion.content.Some? && completion.content.value != "" then completion.content
    else None
  }

  /**
   * The common body of both operations: a missing reply throws inside the
   * `try`, the reply is cleaned and parsed, and every failure goes through
   * the `catch` block's classification.
   */
  function Complete<T>(op: Operation, completion: Completion, parse: string -> Option<T>): (r: Result<T, string>)
    ensures r.Success? <==> ReplyText(completion).Some? && parse(ExtractJsonFromMarkdown(ReplyText(completion).value)).Some?
    ensures r.Success? ==> r.value == parse(ExtractJsonFromMarkdown(ReplyText(completion).value)).value
    ensures r.Failure? ==> r.error == ErrorMessage(op, if completion.ApiError? then completion.status else None)
  {
    match completion
    case ApiError(status) => Failure(ErrorMessage(op, status))
    case Answered(content) =>
      if content.None? || content.value == "" then Failure(ErrorMessage(op, None))
      else
        match parse(ExtractJsonFromMarkdown(content.value))
        case None => Failure(ErrorMessage(op, None))
        case Some(v) => Success(v)
  }

  /** `analyzePersonality`. */
  function AnalyzePersonality(completion: Completion, parse: string -> Option<PersonalityAnalysis>): (r: Result<PersonalityAnalysis, string>)
    ensures r.Failure? ==> r.error in {QUOTA_EXCEEDED, INVALID_API_KEY, INVALID_REQUEST, ANALYSIS_FAILED}
    ensures r.Failure? && completion.Answered? ==> r.error == ANALYSIS_FAILED
    ensures r.Failure? && r.error != ANALYSIS_FAILED ==> completion.ApiError? && completion.status in {Some(429), Some(401), Some(400)}
    ensures completion.ApiError? ==> r == Failure(ErrorMessage(AnalyzePersonalityOp, completion.status))
    // it succeeds exactly when the model answered with text whose JSON parses, and returns what was parsed
    ensures r.Success? <==> ReplyText(completion).Some? && parse(ExtractJsonFromMarkdown(ReplyText(completion).value)).Some?
    ensures r.Success? ==> r.value == parse(ExtractJsonFromMarkdown(ReplyText(completion).value)).value
  {
    Complete(AnalyzePersonalityOp, completion, parse)
  }

  /** `generateSongRecommendations`. */
  function GenerateSongRecommendations(completion: Completion, parse: string -> Option<seq<SongRecommendation>>)
    : (r: Result<seq<SongRecommendation>, string>)
    ensures r.Failure? ==> r.error in {QUOTA_EXCEEDED, INVALID_API_KEY, INVALID_REQUEST, RECOMMENDATIONS_FAILED}
    ensures r.Failure? && completion.Answered? ==> r.error == RECOMMENDATIONS_FAILED
    ensures r.Failure? && r.error != RECOMMENDATIONS_FAILED ==> completion.ApiError? && completion.status in {Some(429), Some(401), Some(400)}
    ensures completion.ApiError? ==> r == Failure(ErrorMessage(GenerateSongRecommendationsOp, completion.status))
    // it succeeds exactly when the model answered with text whose JSON parses, and returns what was parsed
    ensures r.Success? <==> ReplyText(completion).Some? && parse(ExtractJsonFromMarkdown(ReplyText(completion).value)).Some?
    ensures r.Success? ==> r.value == parse(ExtractJsonFromMarkdown(ReplyText(completion).value)).value
  {
    Complete(GenerateSongRecommendationsOp, completion, parse)
  }
}
