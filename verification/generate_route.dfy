/**
 * The `POST` handler of the generate route: it builds the prompt for a
 * request body, sends it to the chat model, cleans the reply down to the
 * JSON object it should hold, parses it, and turns every failure into a
 * status-500 response with one of three messages.
 *
 * The chat model and `JSON.parse` are parameters of the handler: the model
 * is any function from a request to a reply (or an error), the parser any
 * partial function from text to a value.
 */
module GenerateRoute {
  import opened Wrappers
  import opened JsText
  import opened JsRegex
  import opened PromptBuilder

  // ---------------------------------------------------------------------------
  // Cleaning the reply
  // ---------------------------------------------------------------------------

  /** The opening fence of a JSON code block, matched ignoring case. */
  const JsonFence: string := "```json"

  /** `output.replace(/```json/gi, "").replace(/```/g, "").trim()` */
  function CleanedText(output: string): (r: string)
    ensures |r| <= |output|
    ensures r != [] ==> !IsJsWhitespace(r[0]) && !IsJsWhitespace(r[|r| - 1])
  {
    Trim(RemoveAll(RemoveAll(output, JsonFence, true), Fence, false))
  }

  /** After the fences are stripped and the text trimmed, no fence is left. */
  lemma CleanedTextHasNoFence(output: string)
    ensures !Includes(CleanedText(output), Fence)
  {
    var stripped := RemoveAll(RemoveAll(output, JsonFence, true), Fence, false);
    NoFenceAfterRemoval(RemoveAll(output, JsonFence, true));
    TrimExcludes(stripped, Fence);
  }

  /**
   * The text handed to `JSON.parse`: the cleaned reply, narrowed to its
   * brace match when it has one. It is brace-delimited whenever the cleaned
   * reply has a `}` after a `{`, and otherwise the cleaned reply itself.
   */
  function Normalize(content: Option<string>): (r: string)
    ensures BraceMatch(CleanedText(OrEmpty(content))).Some? ==> |r| >= 2 && r[0] == '{' && r[|r| - 1] == '}'
    ensures BraceMatch(CleanedText(OrEmpty(content))).Some? ==> r == BraceMatch(CleanedText(OrEmpty(content))).value
    ensures BraceMatch(CleanedText(OrEmpty(content))).None? ==> r == CleanedText(OrEmpty(content))
  {
    var c := CleanedText(OrEmpty(content));
    match BraceMatch(c)
    case Some(m) => m
    case None => c
  }

  /** The text handed to `JSON.parse` never holds a fence, and it is always a piece of the cleaned reply. */
  lemma NormalizedIsFenceFreePiece(content: Option<string>)
    ensures !Includes(Normalize(content), Fence)
    ensures Includes(CleanedText(OrEmpty(content)), Normalize(content))
  {
    var c := CleanedText(OrEmpty(content));
    CleanedTextHasNoFence(OrEmpty(content));
    var r := Normalize(content);
    match BraceMatch(c)
    case Some(m) =>
      assert r == m;
      var a := BraceSpan(c).value.start;
      IncludesIffOccurs(c, m);
      IncludesViaPiece(c, m, a, Fence);
    case None =>
      assert r == c;
      IncludesIffOccurs(c, c);
      assert OccursAt(c, c, 0);
  }

  /**
   * The reply cleaning as the handler performs it, reassigning `output`
   * step by step: default, strip the fences, trim, then narrow to the match.
   */
  method CleanOutput(content: Option<string>) returns (output: string)
    ensures output == Normalize(content)
  {
    output := OrEmpty(content);
    output := RemoveAll(output, JsonFence, true);
    output := RemoveAll(output, Fence, false);
    output := Trim(output);
    NormalizeSteps(content, output);
    var jsonMatch := BraceMatch(output);
    if jsonMatch.Some? {
      output := jsonMatch.value;
    }
  }

  /** `Normalize` one step at a time: the cleaned text, then its brace match if there is one. */
  lemma NormalizeSteps(content: Option<string>, cleaned: string)
    requires cleaned == Trim(RemoveAll(RemoveAll(OrEmpty(content), JsonFence, true), Fence, false))
    ensures BraceMatch(cleaned).Some? ==> Normalize(content) == BraceMatch(cleaned).value
    ensures BraceMatch(cleaned).None? ==> Normalize(content) == cleaned
  {
    assert cleaned == CleanedText(OrEmpty(content));
  }

  /** Trimming cannot cut into a brace-delimited block, so the block is still the match afterwards. */
  lemma BraceBlockSurvivesTrim(x: string, j: string, y: string)
    requires BraceFree(x) && BraceFree(y)
    requires |j| >= 2 && j[0] == '{' && j[|j| - 1] == '}'
    ensures BraceMatch(Trim(x + j + y)) == Some(j)
  {
    var k, m := TrimInFrame(x, j, y);
    BraceFreeSlice(x, k, |x|);
    BraceFreeSlice(y, 0, m);
    BraceMatchInFrame(x[k..], j, y[..m]);
  }

  /** The case-insensitive pass drops the opening fence and keeps everything up to the closing one. */
  lemma {:induction false} JsonFencePass(p: string, body: string, q: string)
    requires '`' !in p && '`' !in body
    ensures RemoveAll(p + JsonFence + body + Fence + q, JsonFence, true)
         == p + body + RemoveAll(Fence + q, JsonFence, true)
  {
    assert p + JsonFence + body + Fence + q == p + (JsonFence + (body + (Fence + q)));
    NoTickKept(p, JsonFence + (body + (Fence + q)), JsonFence, true);
    RemoveAllDropsLeadingMatch(JsonFence, body + (Fence + q), true);
    NoTickKept(body, Fence + q, JsonFence, true);
    assert p + (body + RemoveAll(Fence + q, JsonFence, true)) == p + body + RemoveAll(Fence + q, JsonFence, true);
  }

  /** The plain pass keeps backtick-free text in front as it is. */
  lemma PlainFencePass(front: string, u: string)
    requires '`' !in front
    ensures RemoveAll(front + u, Fence, false) == front + RemoveAll(u, Fence, false)
  {
    NoTickKept(front, u, Fence, false);
  }

  /**
   * A reply holding one fenced JSON block, `P` + "```json\n" + `J` + "\n```" + `Q`,
   * normalises to exactly `J`, when `J` is brace-delimited and has no
   * backtick, and the text around the block has no braces and `P` no backtick.
   */
  lemma FencedReplyYieldsBlock(p: string, j: string, q: string)
    requires BraceFree(p) && '`' !in p && BraceFree(q)
    requires |j| >= 2 && j[0] == '{' && j[|j| - 1] == '}' && '`' !in j
    ensures Normalize(Some(p + JsonFence + "\n" + j + "\n" + Fence + q)) == j
  {
    var reply := p + JsonFence + "\n" + j + "\n" + Fence + q;
    var body := "\n" + j + "\n";
    assert '`' !in body by {
      assert forall i :: 1 <= i < |body| - 1 ==> body[i] == j[i - 1];
    }
    assert reply == p + JsonFence + body + Fence + q;
    JsonFencePass(p, body, q);
    var u := RemoveAll(Fence + q, JsonFence, true);
    assert '`' !in p + body;
    PlainFencePass(p + body, u);
    var v := RemoveAll(u, Fence, false);
    assert BraceFree(v);
    assert p + body + v == (p + "\n") + j + ("\n" + v);
    assert BraceFree(p + "\n") && BraceFree("\n" + v);
    BraceBlockSurvivesTrim(p + "\n", j, "\n" + v);
  }

  /** A reply that is exactly a JSON object, with no fence, comes through unchanged. */
  lemma BareObjectUnchanged(j: string)
    requires |j| >= 2 && j[0] == '{' && j[|j| - 1] == '}' && '`' !in j
    ensures Normalize(Some(j)) == j
  {
    NoTickKept(j, [], JsonFence, true);
    NoTickKept(j, [], Fence, false);
    assert j + [] == j;
    BraceBlockSurvivesTrim([], j, []);
    assert [] + j + [] == j;
  }

  /** Cleaned text that is already brace-delimited passes the extraction unchanged, so extraction is idempotent. */
  lemma ExtractionIdempotent(content: Option<string>)
    ensures BraceMatch(Normalize(content)).Some? ==> BraceMatch(Normalize(content)) == Some(Normalize(content))
  {
    var c := CleanedText(OrEmpty(content));
    NormalizeSteps(content, c);
    MatchIsItsOwnMatch(c);
  }

  /** Extracting from a text's match gives the match again; text without a match is left as it is. */
  lemma MatchIsItsOwnMatch(c: string)
    ensures BraceMatch(c).Some? ==> BraceMatch(BraceMatch(c).value) == BraceMatch(c)
  {
    if BraceMatch(c).Some? {
      BraceDelimitedMatchesItself(BraceMatch(c).value);
    }
  }

  // ---------------------------------------------------------------------------
  // Classifying a failure
  // ---------------------------------------------------------------------------

  /** What was thrown: its `message` when it is a string, and its `status` when it is a number. */
  datatype Thrown = Thrown(message: Option<string>, status: Option<int>)

  const GenericFailure: string := "AI generation failed"
  const InputTooLong: string := "Input too long.  Please reduce the amount of text."
  const RateLimited: string := "Rate limit exceeded. Please try again in a moment."

  /** The context-length marker in the model service's error message. */
  const ContextMarker: string := "context_length_exceeded"

  predicate MentionsContextLength(err: Thrown) {
    err.message.Some? && Includes(err.message.value, ContextMarker)
  }

  /**
   * The message the route reports for a failure: the context-length check
   * is decided first, then status 429, and everything else is generic.
   */
  function ErrorMessage(err: Thrown): (m: string)
    ensures m == InputTooLong <==> MentionsContextLength(err)
    ensures m == RateLimited <==> !MentionsContextLength(err) && err.status == Some(429)
    ensures m == GenericFailure <==> !MentionsContextLength(err) && err.status != Some(429)
  {
    if MentionsContextLength(err) then InputTooLong
    else if err.status == Some(429) then RateLimited
    else GenericFailure
  }

  /** The handler's `errorMessage`, set to the generic text and overwritten by the first check that applies. */
  method ClassifyError(err: Thrown) returns (errorMessage: string)
    ensures errorMessage == ErrorMessage(err)
  {
    errorMessage := GenericFailure;
    if err.message.Some? && Includes(err.message.value, ContextMarker) {
      errorMessage := InputTooLong;
    } else if err.status == Some(429) {
      errorMessage := RateLimited;
    }
  }

  // ---------------------------------------------------------------------------
  // The handler
  // ---------------------------------------------------------------------------

  datatype Message = Message(role: string, content: string)

  /** The chat-completion request the handler sends (its sampling temperature is not modelled). */
  datatype ChatRequest = ChatRequest(model: string, messages: seq<Message>, maxTokens: nat)

  const ModelName: string := "llama-3.3-70b-versatile"
  const SystemInstruction: string := "Return strict JSON only.  No markdown."

  function RequestFor(prompt: string): (q: ChatRequest)
    ensures q.model == ModelName && q.maxTokens == 2000
    ensures |q.messages| == 2 && q.messages[0] == Message("system", SystemInstruction)
    ensures q.messages[1] == Message("user", prompt)
  {
    ChatRequest(ModelName, [Message("system", SystemInstruction), Message("user", prompt)], 2000)
  }

  /** `{ success: true, aiPortfolio }` or `{ success: false, error }` with its status. */
  datatype Response<J> = Generated(aiPortfolio: J) | Failed(status: nat, error: string)

  /**
   * `POST`: `body` is the parsed request body (or what reading it threw),
   * `complete` the chat model (the reply's `content`, which may be null,
   * or what the call threw), `parse` is `JSON.parse`. `sent` is the request
   * made to the model, if any.
   */
  method Post<J>(body: Result<RawBody, Thrown>,
                 complete: ChatRequest -> Result<Option<string>, Thrown>,
                 parse: string -> Result<J, Thrown>)
    returns (response: Response<J>, sent: Option<ChatRequest>)
    ensures response.Failed? ==> response.status == 500
    ensures body.Failure? ==> sent == None && response == Failed(500, ErrorMessage(body.error))
    ensures body.Success? ==> sent == Some(RequestFor(PromptFor(body.value)))
    ensures body.Success? ==>
      match complete(RequestFor(PromptFor(body.value)))
      case Failure(e) => response == Failed(500, ErrorMessage(e))
      case Success(content) =>
        match parse(Normalize(content))
        case Success(json) => response == Generated(json)
        case Failure(e) => response == Failed(500, ErrorMessage(e))
  {
    sent := None;
    var thrown: Thrown;
    match body {
      case Failure(e) =>
        thrown := e;
      case Success(b) =>
        var prompt := PromptFor(b);
        sent := Some(RequestFor(prompt));
        match complete(RequestFor(prompt)) {
          case Failure(e) =>
            thrown := e;
          case Success(content) =>
            var output := CleanOutput(content);
            match parse(output) {
              case Success(json) =>
                return Generated(json), sent;
              case Failure(e) =>
                thrown := e;
            }
        }
    }
    var errorMessage := ClassifyError(thrown);
    response := Failed(500, errorMessage);
  }
}
