/** The finance chat endpoint (`POST /api/finance-chatbot`): an API-key check, a local
    arithmetic intercept, and the translation of the generative-language provider's
    reply into an answer or an error.

    The arithmetic evaluator and the provider's HTTP call are oracles passed in as
    functions; the provider's reply is modelled by the fields the handler reads. */
module FinanceChatbot {
  import opened Js

  const SystemPrompt: string :=
    "You are FinanceBot, an expert in finance and financial calculations. Only answer questions related to finance, money, investments, interest, budgeting, and financial math. If a question is not related to finance or calculations, politely refuse."

  const MissingKeyMessage: string := "Gemini API key not set."
  const ApologyMessage: string := "Sorry, I couldn't compute that expression."
  const DefaultAnswer: string := "Sorry, I couldn't process that."

  /** What the endpoint sends back: `{ answer }` with status 200, or `{ error }` with a status.
      An answer of `None` stands for `{ answer: undefined }`, which serialises as `{}`. */
  datatype ChatResponse = Answer(answer: Option<string>) | ChatError(error: string, status: int)

  /** The single-turn request body `{ contents: [ { parts: [ { text } ] } ] }`. */
  datatype RequestContent = RequestContent(parts: seq<string>)
  datatype GeminiRequest = GeminiRequest(contents: seq<RequestContent>)

  /** The fields of the provider's JSON reply that the handler reads; an absent field is `None`. */
  datatype ApiError = ApiError(message: Option<string>)
  datatype Part = Part(text: Option<string>)
  datatype Content = Content(parts: Option<seq<Part>>)
  datatype Candidate = Candidate(content: Option<Content>, error: Option<ApiError>)
  datatype ReplyData = ReplyData(candidates: Option<seq<Candidate>>, error: Option<ApiError>)

  /** `JSON.parse(text)`: not JSON at all, the JSON literal `null`, or a value. A JSON value that
      is not an object (a number, a string, an array) has none of the fields read here and is
      the `ReplyData(None, None)` value. */
  datatype ParsedBody = NotJson | JsonNull | JsonValue(data: ReplyData)

  /** The outcome of `fetch` followed by `res.text()`: a thrown error's message, or the
      response's `ok` flag, its text and that text's parse. */
  datatype FetchResult = FetchFailed(message: string) | Fetched(ok: bool, text: string, body: ParsedBody)

  /** The TypeError message of reading `.error` from `null`. */
  const NullDataMessage: string := "Cannot read properties of null (reading 'error')"

  // A character of the intercept's class: a digit, one of + - * / ( ) . % ^, or white space.
  predicate IsCalcChar(c: char) {
    ('0' <= c <= '9') || c == '+' || c == '-' || c == '*' || c == '/' || c == '(' || c == ')'
    || c == '.' || c == '%' || c == '^' || IsSpace(c)
  }

  // The intercept's regular-expression test, anchored at both ends, on `message.trim()`.
  // It fires exactly when the message has a character that is not white space and every
  // character of the (untrimmed) message belongs to the class.
  function IsCalculation(message: string): (b: bool)
    ensures b <==>
      (exists i :: 0 <= i < |message| && !IsSpace(message[i]))
      && (forall i :: 0 <= i < |message| ==> IsCalcChar(message[i]))
  {
    var t := Trim(message);
    TrimEmptyIff(message);
    TrimmedCalcChars(message);
    |t| > 0 && forall i :: 0 <= i < |t| ==> IsCalcChar(t[i])
  }

  /** The trimmed message is all in the class exactly when the whole message is: the
      trimmed-off characters are white space, which the class contains. */
  lemma TrimmedCalcChars(message: string)
    ensures (forall i :: 0 <= i < |Trim(message)| ==> IsCalcChar(Trim(message)[i]))
            <==> (forall i :: 0 <= i < |message| ==> IsCalcChar(message[i]))
  {
    if forall i :: 0 <= i < |Trim(message)| ==> IsCalcChar(Trim(message)[i]) {
      TrimmedCalcCharsAll(message);
    }
    if forall i :: 0 <= i < |message| ==> IsCalcChar(message[i]) {
      AllCalcCharsTrimmed(message);
    }
  }

  lemma TrimmedCalcCharsAll(message: string)
    requires forall i :: 0 <= i < |Trim(message)| ==> IsCalcChar(Trim(message)[i])
    ensures forall i :: 0 <= i < |message| ==> IsCalcChar(message[i])
  {
    SliceCalcChars(message, Trim(message), |message| - |TrimStart(message)|);
  }

  /** A string whose middle slice is all in the class, and whose other characters are white
      space, is all in the class. */
  lemma SliceCalcChars(m: string, t: string, k: nat)
    requires k + |t| <= |m| && t == m[k..k + |t|]
    requires forall i :: 0 <= i < k ==> IsSpace(m[i])
    requires forall i :: k + |t| <= i < |m| ==> IsSpace(m[i])
    requires forall i :: 0 <= i < |t| ==> IsCalcChar(t[i])
    ensures forall i :: 0 <= i < |m| ==> IsCalcChar(m[i])
  {
    forall i | 0 <= i < |m| ensures IsCalcChar(m[i]) {
      if k <= i < k + |t| {
        assert m[i] == t[i - k];
      }
    }
  }

  lemma AllCalcCharsTrimmed(message: string)
    requires forall i :: 0 <= i < |message| ==> IsCalcChar(message[i])
    ensures forall i :: 0 <= i < |Trim(message)| ==> IsCalcChar(Trim(message)[i])
  {
    var t := Trim(message);
    var k := |message| - |TrimStart(message)|;
    forall i | 0 <= i < |t| ensures IsCalcChar(t[i]) {
      assert t[i] == message[k + i];
    }
  }

  /** The text sent to the provider: the system prompt, a blank line, and the user's question. */
  function CombinedMessage(message: string): (text: string)
    ensures StartsWith(text, SystemPrompt)
    ensures text[|SystemPrompt|..] == "\n\nUser question: " + message
  {
    SystemPrompt + "\n\nUser question: " + message
  }

  /** The request body for a message: one content holding one part. */
  function RequestFor(message: string): (req: GeminiRequest)
    ensures |req.contents| == 1 && req.contents[0].parts == [CombinedMessage(message)]
  {
    GeminiRequest([RequestContent([CombinedMessage(message)])])
  }

  /** The answer chosen from a successfully parsed reply. Only the first candidate is read:
      its first part's text when it has parts, else its error; with no candidates, the
      reply's own error; otherwise the default apology. */
  function SelectAnswer(data: ReplyData): (answer: Option<string>)
    ensures data.candidates.Some? && |data.candidates.value| > 0 ==>
      var c := data.candidates.value[0];
      if c.content.Some? && c.content.value.parts.Some? && |c.content.value.parts.value| > 0
      then answer == c.content.value.parts.value[0].text
      else if c.error.Some? then answer == Some("Error from AI: " + Template(c.error.value.message))
      else answer == Some(DefaultAnswer)
    ensures (data.candidates.None? || data.candidates.value == []) ==>
      answer == if data.error.Some? then Some("API Error: " + Template(data.error.value.message))
                else Some(DefaultAnswer)
  {
    if data.candidates.Some? && |data.candidates.value| > 0 then
      var candidate := data.candidates.value[0];
      if candidate.content.Some? && candidate.content.value.parts.Some?
         && |candidate.content.value.parts.value| > 0 then
        candidate.content.value.parts.value[0].text
      else if candidate.error.Some? then
        Some("Error from AI: " + Template(candidate.error.value.message))
      else
        Some(DefaultAnswer)
    else if data.error.Some? then
      Some("API Error: " + Template(data.error.value.message))
    else
      Some(DefaultAnswer)
  }

  /** Candidates after the first never influence the answer. */
  lemma OnlyFirstCandidate(c: Candidate, rest1: seq<Candidate>, rest2: seq<Candidate>, e1: Option<ApiError>, e2: Option<ApiError>)
    ensures SelectAnswer(ReplyData(Some([c] + rest1), e1)) == SelectAnswer(ReplyData(Some([c] + rest2), e2))
  {
  }

  /** The response built from the provider's reply. Unparsable text is an error before the
      HTTP status is looked at; a non-success status is an error carrying the reply's error
      message, or the raw text when that message is missing or empty; otherwise the selected
      answer. Reading `.error` from a `null` reply throws and is reported like a failed call. */
  function FromReply(f: FetchResult): (r: ChatResponse)
    ensures f.FetchFailed? ==> r == ChatError("Failed to contact Gemini API: " + f.message, 500)
    ensures f.Fetched? && f.body.NotJson? ==> r == ChatError("Gemini API returned non-JSON: " + f.text, 500)
    ensures f.Fetched? && f.body.JsonNull? ==> r == ChatError("Failed to contact Gemini API: " + NullDataMessage, 500)
    ensures f.Fetched? && f.body.JsonValue? && !f.ok ==>
      var e := f.body.data.error;
      r == ChatError(if e.Some? && Truthy(e.value.message) then e.value.message.value else f.text, 500)
    ensures f.Fetched? && f.body.JsonValue? && f.ok ==> r == Answer(SelectAnswer(f.body.data))
  {
    match f
    case FetchFailed(m) => ChatError("Failed to contact Gemini API: " + m, 500)
    case Fetched(ok, text, body) =>
      match body
      case NotJson => ChatError("Gemini API returned non-JSON: " + text, 500)
      case JsonNull => ChatError("Failed to contact Gemini API: " + NullDataMessage, 500)
      case JsonValue(data) =>
        if !ok then
          var message := if data.error.Some? then data.error.value.message else None;
          ChatError(OrElse(message, text), 500)
        else
          Answer(SelectAnswer(data))
  }

  /** The whole handler. `evaluate` stands for the arithmetic library (the rendered value, or
      `None` when it throws); `gemini` for the provider call. */
  function Post(message: string, apiKey: Option<string>,
                evaluate: string -> Option<string>, gemini: GeminiRequest -> FetchResult): (r: ChatResponse)
    ensures !Truthy(apiKey) ==> r == ChatError(MissingKeyMessage, 500)
    ensures Truthy(apiKey) && IsCalculation(message) ==>
      r == Answer(Some(if evaluate(message).Some? then "Result: " + evaluate(message).value else ApologyMessage))
    ensures Truthy(apiKey) && !IsCalculation(message) ==> r == FromReply(gemini(RequestFor(message)))
  {
    if !Truthy(apiKey) then
      ChatError(MissingKeyMessage, 500)
    else if IsCalculation(message) then
      match evaluate(message)
      case Some(value) => Answer(Some("Result: " + value))
      case None => Answer(Some(ApologyMessage))
    else
      FromReply(gemini(RequestFor(message)))
  }

  /** The key check comes first: without a key even a pure calculation is refused. */
  lemma MissingKeyBeforeIntercept(message: string, evaluate: string -> Option<string>, gemini: GeminiRequest -> FetchResult)
    requires IsCalculation(message)
    ensures Post(message, None, evaluate, gemini) == ChatError(MissingKeyMessage, 500)
    ensures Post(message, Some(""), evaluate, gemini) == ChatError(MissingKeyMessage, 500)
  {
  }

  /** An intercepted message never reaches the provider, and never yields an error status. */
  lemma InterceptSkipsProvider(message: string, apiKey: Option<string>, evaluate: string -> Option<string>,
                               g1: GeminiRequest -> FetchResult, g2: GeminiRequest -> FetchResult)
    requires Truthy(apiKey) && IsCalculation(message)
    ensures Post(message, apiKey, evaluate, g1) == Post(message, apiKey, evaluate, g2)
    ensures Post(message, apiKey, evaluate, g1).Answer?
  {
  }

  /** A message that is not a calculation is never evaluated locally: the evaluator is irrelevant. */
  lemma NonCalculationSkipsEvaluator(message: string, apiKey: Option<string>,
                                     e1: string -> Option<string>, e2: string -> Option<string>,
                                     gemini: GeminiRequest -> FetchResult)
    requires !IsCalculation(message)
    ensures Post(message, apiKey, e1, gemini) == Post(message, apiKey, e2, gemini)
  {
  }

  /** "2 + 2 * 3" is intercepted. */
  lemma CalculationExample()
    ensures IsCalculation("2 + 2 * 3")
  {
    var m := "2 + 2 * 3";
    assert !IsSpace(m[0]);
    assert forall i :: 0 <= i < |m| ==> IsCalcChar(m[i]);
  }

  /** A message with any character outside the class, such as a letter of a question in words,
      is not intercepted. */
  lemma NonCalcCharNotIntercepted(message: string, i: nat)
    requires i < |message| && !IsCalcChar(message[i])
    ensures !IsCalculation(message)
  {
  }

  /** A blank message is not intercepted. */
  lemma BlankExample()
    ensures !IsCalculation("   ")
  {
    assert TrimStart("   ") == "";
  }
}
