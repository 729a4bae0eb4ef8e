/**
 * The query panel of the AI-predictions screen: a question is sent only
 * when it is not blank, the prediction shown is the backend's answer or a
 * fixed fallback, and the loading flag is cleared after every request. Also
 * the colour band of a prediction's confidence.
 */
module AIPredictions {
  import opened Wrappers

  // ---------------------------------------------------------------------------
  // Confidence bands
  // ---------------------------------------------------------------------------

  const GreenBand: string := "text-green-600 bg-green-100"
  const YellowBand: string := "text-yellow-600 bg-yellow-100"
  const RedBand: string := "text-red-600 bg-red-100"

  /** `getConfidenceColor`: 85 and up green, 70 up to 85 yellow, below 70 red. */
  function ConfidenceColor(confidence: real): (band: string)
    ensures band == GreenBand <==> confidence >= 85.0
    ensures band == YellowBand <==> 70.0 <= confidence < 85.0
    ensures band == RedBand <==> confidence < 70.0
  {
    if confidence >= 85.0 then GreenBand
    else if confidence >= 70.0 then YellowBand
    else RedBand
  }

  /** The bands from worst to best: red 0, yellow 1, green 2. */
  function BandRank(band: string): nat {
    if band == GreenBand then 2 else if band == YellowBand then 1 else 0
  }

  /** A higher confidence never gets a worse band. */
  lemma ConfidenceMonotone(a: real, b: real)
    requires a <= b
    ensures BandRank(ConfidenceColor(a)) <= BandRank(ConfidenceColor(b))
  {
  }

  // ---------------------------------------------------------------------------
  // Blank input
  // ---------------------------------------------------------------------------

  /** The white space and line terminators that JavaScript's `trim` removes. */
  predicate IsJsWhitespace(c: char) {
    || c == '\t' || c == '\n' || c == '\U{000B}' || c == '\U{000C}' || c == '\r' || c == ' '
    || c == '\U{00A0}' || c == '\U{1680}' || ('\U{2000}' <= c <= '\U{200A}')
    || c == '\U{2028}' || c == '\U{2029}' || c == '\U{202F}' || c == '\U{205F}'
    || c == '\U{3000}' || c == '\U{FEFF}'
  }

  /** Every character is white space (the empty string included). */
  predicate Blank(s: string) {
    forall i :: 0 <= i < |s| ==> IsJsWhitespace(s[i])
  }

  /** `s` without its leading white space. */
  function TrimStart(s: string): (r: string)
    ensures |r| <= |s| && r == s[|s| - |r|..]
    ensures r == [] || !IsJsWhitespace(r[0])
    ensures forall i :: 0 <= i < |s| - |r| ==> IsJsWhitespace(s[i])
  {
    if s != [] && IsJsWhitespace(s[0]) then TrimStart(s[1..]) else s
  }

  /** `s` without its trailing white space. */
  function TrimEnd(s: string): (r: string)
    ensures |r| <= |s| && r == s[..|r|]
    ensures r == [] || !IsJsWhitespace(r[|r| - 1])
    ensures forall i :: |r| <= i < |s| ==> IsJsWhitespace(s[i])
  {
    if s != [] && IsJsWhitespace(s[|s| - 1]) then TrimEnd(s[..|s| - 1]) else s
  }

  /** `s.trim()`. */
  function Trim(s: string): (r: string)
    ensures |r| <= |s|
  {
    TrimEnd(TrimStart(s))
  }

  /** `!input.trim()` holds exactly for blank input. */
  lemma TrimEmptyIffBlank(s: string)
    ensures Trim(s) == "" <==> Blank(s)
  {
    var t := TrimStart(s);
    if Trim(s) == "" {
      // Trimming the end of `t` removed all of it, yet `t` cannot start with white space.
      assert t == [];
    }
  }

  // ---------------------------------------------------------------------------
  // The backend's reply
  // ---------------------------------------------------------------------------

  /** The body `{ query, top_k, include_images }` posted to `/query`. */
  datatype QueryRequest = QueryRequest(query: string, topK: int, includeImages: bool)

  /**
   * `res.data`: a string still to be parsed, an object whose `answer` may
   * be missing, or `null`.
   */
  datatype ReplyBody = TextBody(raw: string) | ObjectBody(answer: Option<string>) | NullBody

  /**
   * What `JSON.parse` makes of a string: an error, `null`, an object with
   * an optional `answer`, or another value (a number, a string, an array),
   * which has no `answer`.
   */
  datatype JsonParse = ParseError | ParsedNull | ParsedObject(answer: Option<string>) | ParsedOther

  /** The outcome of the `/query` request. */
  datatype QueryOutcome = Replied(body: ReplyBody) | RequestFailed

  const NoAnswer: string := "No answer available."
  const ParseApology: string := "Sorry, could not parse a valid answer from the backend."

  /**
   * The answer shown for a reply: its `answer` when it is a non-empty
   * string, "No answer available." when it is missing or empty, and the
   * apology when the text does not parse or the value read is `null`
   * (reading `.answer` of `null` throws into the same `catch`).
   */
  function AnswerOf(body: ReplyBody, parse: string -> JsonParse): (answer: string)
    ensures answer != ""
    ensures body.ObjectBody? && body.answer.Some? && body.answer.value != "" ==> answer == body.answer.value
    ensures body.ObjectBody? && (body.answer.None? || body.answer == Some("")) ==> answer == NoAnswer
    ensures body.NullBody? ==> answer == ParseApology
    ensures body.TextBody? && parse(body.raw) in {ParseError, ParsedNull} ==> answer == ParseApology
    ensures body.TextBody? && parse(body.raw) == ParsedOther ==> answer == NoAnswer
  {
    match body
    case NullBody => ParseApology
    case ObjectBody(a) => if a.Some? && a.value != "" then a.value else NoAnswer
    case TextBody(raw) =>
      match parse(raw)
      case ParseError => ParseApology
      case ParsedNull => ParseApology
      case ParsedOther => NoAnswer
      case ParsedObject(a) => if a.Some? && a.value != "" then a.value else NoAnswer
  }

  /** A string reply and the object it parses to give the same answer. */
  lemma TextReplyAsObject(raw: string, parse: string -> JsonParse)
    requires parse(raw).ParsedObject?
    ensures AnswerOf(TextBody(raw), parse) == AnswerOf(ObjectBody(parse(raw).answer), parse)
  {
  }

  /** The prediction shown after a request: the answer of a reply, empty after a failure. */
  function PredictionAfter(outcome: QueryOutcome, parse: string -> JsonParse): (prediction: string)
    ensures outcome.RequestFailed? <==> prediction == ""
  {
    match outcome
    case RequestFailed => ""
    case Replied(body) => AnswerOf(body, parse)
  }

  // ---------------------------------------------------------------------------
  // The panel
  // ---------------------------------------------------------------------------

  /** The query panel: the question typed, the prediction shown and the loading flag. */
  class PredictionPanel {
    var input: string
    var prediction: string
    var isLoading: bool

    constructor ()
      ensures input == "" && prediction == "" && !isLoading
    {
      input := "";
      prediction := "";
      isLoading := false;
    }

    /** The input box's `onChange`. */
    method SetInput(text: string)
      modifies this
      ensures input == text && prediction == old(prediction) && isLoading == old(isLoading)
    {
      input := text;
    }

    /**
     * `handlePredict`, with the request abstracted as `post` and
     * `JSON.parse` as `parse`. Blank input sends nothing and changes
     * nothing. Otherwise the question is posted as it was typed, with
     * `top_k` 100 and no images; `sent` is that request. The loading flag is
     * set for the request and cleared after it in every case.
     */
    method HandlePredict(post: QueryRequest -> QueryOutcome, parse: string -> JsonParse)
      returns (sent: Option<QueryRequest>)
      modifies this
      ensures input == old(input)
      ensures Blank(old(input)) ==>
        sent == None && prediction == old(prediction) && isLoading == old(isLoading)
      ensures !Blank(old(input)) ==>
        && sent == Some(QueryRequest(old(input), 100, false))
        && prediction == PredictionAfter(post(sent.value), parse)
        && !isLoading
    {
      TrimEmptyIffBlank(input);
      if Trim(input) == "" {
        return None;
      }
      isLoading := true;
      var request := QueryRequest(input, 100, false);
      sent := Some(request);
      var outcome := post(request);
      match outcome {
        case RequestFailed =>
          prediction := "";
        case Replied(body) =>
          var answer := AnswerOf(body, parse);
          prediction := answer;
      }
      isLoading := false;
    }
  }
}
