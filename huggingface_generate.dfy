/**
 * The text-generation edge function: which field of the model's reply becomes the answer,
 * how an echoed prompt is cut off, the short-answer fallback, and the fallback replies for a
 * loading model and for every error. The HTTP exchange itself is an input.
 */
module HuggingFaceGenerate {
  import opened Wrappers
  import opened Text

  /** One result object of the reply; a field is absent when it is not a string. */
  datatype Item = Item(generatedText: Option<string>, text: Option<string>)

  /** The parsed reply body: an array of results or a single result object. */
  datatype Payload = ArrayPayload(items: seq<Item>) | ObjectPayload(fields: Item)

  /** The request: a CORS preflight, or a POST whose body may carry a prompt. */
  datatype Request = Preflight | Post(prompt: Option<string>)

  /** What the upstream call gives: no reply at all, or a status with a body that may not parse. */
  datatype Body = Parsed(data: Payload) | Unparsable(message: string)
  datatype Upstream = Unreachable(message: string) | Reply(status: nat, statusText: string, body: Body)

  /** The function's answer: the preflight "ok", or a JSON body with its HTTP status. */
  datatype Response = PreflightOk | Json(status: nat, generatedText: string, error: Option<string>)

  /** A JavaScript string value is truthy when it is present and non-empty. */
  predicate Truthy(v: Option<string>) {
    v.Some? && v.value != []
  }

  /** The prompt in double quotes, as both fallback texts show it. */
  function Quoted(prompt: string): string {
    "\"" + prompt + "\""
  }

  /** The text when the model is still loading (status 503). */
  function LoadingText(prompt: string): string {
    "Generated response for: " + Quoted(prompt)
    + "\n\nThis is an educational response about your query. The AI model is currently loading - please try again in a moment for a more detailed response."
  }

  /** The text that replaces an empty or too short answer. */
  function EducationalText(prompt: string): string {
    "Educational response for: " + Quoted(prompt)
    + "\n\nThis topic involves important concepts that would benefit from further exploration. Consider researching the fundamentals and practical applications of this subject."
  }

  /** The text sent with every error. */
  const UnavailableText: string :=
    "The AI text generation service is temporarily unavailable. Please try again later or use the other AI features available."

  /** The answer read from one result object: `generated_text`, else `text`, trimmed. */
  function FromItem(item: Item): string {
    if Truthy(item.generatedText) then Trim(item.generatedText.value)
    else if Truthy(item.text) then Trim(item.text.value)
    else ""
  }

  /** The answer read from the reply: the first element of a non-empty array, or the object. */
  function Extracted(data: Payload): string {
    match data
    case ArrayPayload(items) => if |items| > 0 then FromItem(items[0]) else ""
    case ObjectPayload(fields) => FromItem(fields)
  }

  /** With the prompt echoed in a non-empty answer, keep what follows its first occurrence, trimmed. */
  function Stripped(t: string, prompt: string): string {
    if t != [] && Contains(t, prompt) then Trim(t[IndexOf(t, prompt).value + |prompt|..]) else t
  }

  /** An answer shorter than ten characters is replaced by the educational text. */
  function WithFallback(t: string, prompt: string): string {
    if t == [] || |t| < 10 then EducationalText(prompt) else t
  }

  /**
   * The answer the function sends for a parsed reply: read, stripped of the prompt, then made
   * at least ten characters long, the three stages reassigning one local in turn.
   */
  method ExtractGeneratedText(data: Payload, prompt: string) returns (text: string)
    ensures text == WithFallback(Stripped(Extracted(data), prompt), prompt)
    ensures |text| >= 10
  {
    text := ReadAnswer(data);
    text := StripPrompt(text, prompt);
    text := ApplyFallback(text, prompt);
  }

  /** The response-format probing: the first element of a non-empty array, or the object. */
  method ReadAnswer(data: Payload) returns (text: string)
    ensures text == Extracted(data)
  {
    text := "";
    var first: Option<Item> := None;
    match data {
      case ArrayPayload(items) =>
        if |items| > 0 {
          first := Some(items[0]);
        }
      case ObjectPayload(fields) =>
        first := Some(fields);
    }
    if first.Some? {
      if Truthy(first.value.generatedText) {
        text := Trim(first.value.generatedText.value);
      } else if Truthy(first.value.text) {
        text := Trim(first.value.text.value);
      }
    }
  }

  /** The clean-up: cut an echoed prompt and what precedes it. */
  method StripPrompt(answer: string, prompt: string) returns (text: string)
    ensures text == Stripped(answer, prompt)
  {
    text := answer;
    if text != [] && Contains(text, prompt) {
      var index := IndexOf(text, prompt);
      if index.Some? {
        text := Trim(text[index.value + |prompt|..]);
      }
    }
  }

  /** The fallback for an answer with no meaningful content. */
  method ApplyFallback(answer: string, prompt: string) returns (text: string)
    ensures text == WithFallback(answer, prompt)
    ensures |text| >= 10
  {
    text := answer;
    if text == [] || |text| < 10 {
      FallbackTextsLong(prompt);
      text := EducationalText(prompt);
    }
  }

  /**
   * The read answer has no whitespace at either end; an array is read through its first
   * element exactly as that element alone would be, and an empty array gives nothing.
   */
  lemma ExtractedSpec(data: Payload)
    ensures IsTrimmed(Extracted(data))
    ensures data.ArrayPayload? && data.items != [] ==>
      Extracted(data) == Extracted(ObjectPayload(data.items[0]))
    ensures data == ArrayPayload([]) ==> Extracted(data) == []
    ensures data.ObjectPayload? && Truthy(data.fields.generatedText) ==>
      Extracted(data) == Trim(data.fields.generatedText.value)
    ensures data.ObjectPayload? && !Truthy(data.fields.generatedText) && Truthy(data.fields.text) ==>
      Extracted(data) == Trim(data.fields.text.value)
    ensures data.ObjectPayload? && !Truthy(data.fields.generatedText) && !Truthy(data.fields.text) ==>
      Extracted(data) == []
  {
    var item := match data case ArrayPayload(items) => if |items| > 0 then items[0] else Item(None, None)
                           case ObjectPayload(fields) => fields;
    if Truthy(item.generatedText) {
      TrimSpec(item.generatedText.value);
    } else if Truthy(item.text) {
      TrimSpec(item.text.value);
    }
  }

  /**
   * Stripping: with the prompt in the answer, the result is the trimmed rest after the first
   * occurrence and is shorter than the answer when the prompt is non-empty; otherwise the
   * answer is kept.
   */
  lemma StrippedSpec(t: string, prompt: string)
    ensures !Contains(t, prompt) || t == [] ==> Stripped(t, prompt) == t
    ensures t != [] && Contains(t, prompt) ==>
      exists i: nat :: OccursAt(t, prompt, i) && (forall j :: 0 <= j < i ==> !OccursAt(t, prompt, j))
                  && Stripped(t, prompt) == Trim(t[i + |prompt|..])
    ensures prompt != [] && Contains(t, prompt) ==> |Stripped(t, prompt)| < |t|
    ensures IsTrimmed(t) ==> IsTrimmed(Stripped(t, prompt))
  {
    if t != [] && Contains(t, prompt) {
      var i := IndexOf(t, prompt).value;
      var rest := t[i + |prompt|..];
      TrimSpec(rest);
      assert OccursAt(t, prompt, i);
    }
  }

  /**
   * The fallback: the answer is kept when it has at least ten characters, and otherwise
   * replaced by a text that quotes the prompt; either way the result is never that short.
   */
  lemma WithFallbackSpec(t: string, prompt: string)
    ensures |WithFallback(t, prompt)| >= 10
    ensures |t| >= 10 ==> WithFallback(t, prompt) == t
    ensures |t| < 10 ==> WithFallback(t, prompt) == EducationalText(prompt)
    ensures |t| < 10 ==> Contains(WithFallback(t, prompt), Quoted(prompt))
  {
    FallbackTextsLong(prompt);
    if |t| < 10 {
      EducationalTextQuotesPrompt(prompt);
    }
  }

  /** Each of the three fallback texts has at least ten characters. */
  lemma FallbackTextsLong(prompt: string)
    ensures |EducationalText(prompt)| >= 10
    ensures |LoadingText(prompt)| >= 10
    ensures |UnavailableText| >= 10
  {
  }

  /** The educational text quotes the prompt. */
  lemma EducationalTextQuotesPrompt(prompt: string)
    ensures Contains(EducationalText(prompt), Quoted(prompt))
  {
    ContainsInfix("Educational response for: ", Quoted(prompt),
      "\n\nThis topic involves important concepts that would benefit from further exploration. Consider researching the fundamentals and practical applications of this subject.");
  }

  /** The loading text quotes the prompt. */
  lemma LoadingTextQuotesPrompt(prompt: string)
    ensures Contains(LoadingText(prompt), Quoted(prompt))
  {
    ContainsInfix("Generated response for: ", Quoted(prompt),
      "\n\nThis is an educational response about your query. The AI model is currently loading - please try again in a moment for a more detailed response.");
  }

  /** The message thrown for a non-2xx status other than 503. */
  function ApiErrorMessage(status: nat, statusText: string): string {
    "HuggingFace API error: " + NatToString(status) + " " + statusText
  }

  /** The checks before the upstream call: the prompt first, then the key. */
  function MissingInputError(prompt: Option<string>, apiKey: Option<string>): Option<string> {
    if !Truthy(prompt) then Some("Prompt is required")
    else if !Truthy(apiKey) then Some("HF_API_KEY not configured")
    else None
  }

  /**
   * What the function answers once the prompt and key are present, given what the upstream
   * call gives: an error (no reply, a status other than 2xx and 503, a body that does not
   * parse) sends the unavailable text with the error's message; a 503 sends the loading
   * text; a parsed 2xx reply sends the extracted answer.
   */
  function UpstreamAnswer(prompt: string, upstream: Upstream): Response {
    match upstream
    case Unreachable(m) => Json(200, UnavailableText, Some(m))
    case Reply(status, statusText, body) =>
      if status < 200 || status >= 300 then
        if status == 503 then Json(200, LoadingText(prompt), None)
        else Json(200, UnavailableText, Some(ApiErrorMessage(status, statusText)))
      else match body
        case Unparsable(m) => Json(200, UnavailableText, Some(m))
        case Parsed(data) => Json(200, WithFallback(Stripped(Extracted(data), prompt), prompt), None)
  }

  /**
   * Every answer has status 200 and a text of at least ten characters; the error field is
   * absent exactly for a 503 or a parsed 2xx reply; a 503 answer quotes the prompt.
   */
  lemma UpstreamAnswerSpec(prompt: string, upstream: Upstream)
    ensures var r := UpstreamAnswer(prompt, upstream);
      && r.Json? && r.status == 200 && |r.generatedText| >= 10
      && (r.error.None? <==>
            upstream.Reply? && (upstream.status == 503
                                || (200 <= upstream.status < 300 && upstream.body.Parsed?)))
      && (upstream.Reply? && upstream.status == 503 ==> Contains(r.generatedText, Quoted(prompt)))
      && (upstream.Reply? && 200 <= upstream.status < 300 && upstream.body.Parsed? ==>
            r.generatedText == WithFallback(Stripped(Extracted(upstream.body.data), prompt), prompt))
  {
    FallbackTextsLong(prompt);
    match upstream {
      case Unreachable(m) =>
      case Reply(status, statusText, body) =>
        if status == 503 {
          LoadingTextQuotesPrompt(prompt);
        } else if 200 <= status < 300 && body.Parsed? {
          WithFallbackSpec(Stripped(Extracted(body.data), prompt), prompt);
        }
    }
  }

  /**
   * The function's handler, given the request, the configured key and what the upstream call
   * gives. A preflight is answered "ok"; a missing prompt, then a missing key, is answered with
   * the unavailable text and the error's message; otherwise the upstream reply decides.
   */
  function HandleRequest(req: Request, apiKey: Option<string>, upstream: Upstream): Response {
    if req.Preflight? then PreflightOk
    else
      var check := MissingInputError(req.prompt, apiKey);
      if check.Some? then Json(200, UnavailableText, check)
      else UpstreamAnswer(req.prompt.value, upstream)
  }

  /**
   * Every request other than a preflight gets status 200 and a text of at least ten
   * characters, never an empty one. A missing prompt is reported before a missing key, and
   * the error field is absent exactly when both are present and the upstream reply is a 503
   * or a parsed 2xx.
   */
  lemma {:induction false} HandleRequestSpec(req: Request, apiKey: Option<string>, upstream: Upstream)
    ensures var r := HandleRequest(req, apiKey, upstream);
      && (r.PreflightOk? <==> req.Preflight?)
      && (r.Json? ==> r.status == 200 && |r.generatedText| >= 10 && r.generatedText != [])
      && (req.Post? && !Truthy(req.prompt) ==> r.error == Some("Prompt is required"))
      && (req.Post? && Truthy(req.prompt) && !Truthy(apiKey) ==>
            r.error == Some("HF_API_KEY not configured"))
      && (r.Json? && r.error.None? <==>
            req.Post? && Truthy(req.prompt) && Truthy(apiKey) && upstream.Reply?
            && (upstream.status == 503
                || (200 <= upstream.status < 300 && upstream.body.Parsed?)))
  {
    FallbackTextsLong("");
    if req.Post? && MissingInputError(req.prompt, apiKey).None? {
      UpstreamAnswerSpec(req.prompt.value, upstream);
    }
  }
}
