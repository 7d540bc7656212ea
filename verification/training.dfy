/**
 Submission of one training record: the payload built from the record with
 JavaScript `||` defaults, the check that a question is present, and the
 classification of the training API's reply.
 */
module Training {
  import opened Wrappers

  /** The credential sent in every payload. */
  const ApiKey: string := "MAINPOINT"
  /** The language code used when a record names none. */
  const DefaultLanguage: string := "bn"
  /** The only `status_code` the training API uses to accept a record. */
  const CreatedStatus: int := 201

  /** One element of the input array. Every field may be missing; `kind` is the `type` field. */
  datatype Record = Record(
    question: Option<string>,
    answer: Option<string>,
    responseType: Option<string>,
    language: Option<string>,
    sentiment: Option<string>,
    category: Option<string>,
    response: Option<string>,
    kind: Option<string>,
    imageUrl: Option<string>)

  /** The JSON body posted for one record; `imageUrl == None` is sent as `null`. */
  datatype Payload = Payload(
    api: string,
    question: Option<string>,
    answer: string,
    responseType: string,
    language: string,
    sentiment: string,
    category: string,
    response: string,
    kind: string,
    imageUrl: Option<string>)

  /** A JavaScript string value is truthy exactly when it is present and not empty. */
  predicate Truthy(v: Option<string>) {
    v.Some? && v.value != ""
  }

  /** JavaScript `v || fallback` for a string-or-undefined `v`. */
  function Or(v: Option<string>, fallback: string): string {
    if Truthy(v) then v.value else fallback
  }

  /** JavaScript `v || null`. */
  function OrNull(v: Option<string>): Option<string> {
    if Truthy(v) then v else None
  }

  /** The payload built for a record, before the question is checked. */
  function Normalize(r: Record): (p: Payload)
    ensures p.api == ApiKey && p.question == r.question
  {
    Payload(
      ApiKey,
      r.question,
      Or(r.answer, ""),
      Or(r.responseType, "text"),
      Or(r.language, DefaultLanguage),
      Or(r.sentiment, "neutral"),
      Or(r.category, "general"),
      Or(r.response, Or(r.answer, "")),
      Or(r.kind, "good"),
      OrNull(r.imageUrl))
  }

  /**
   The payload carries the credential and the question as given, never leaves
   a defaulted field empty, and sends `response` as the record's response or
   else its answer.
   */
  lemma PayloadShape(r: Record)
    ensures var p := Normalize(r);
      && p.api == ApiKey && p.question == r.question
      && p.responseType != "" && p.language != "" && p.sentiment != ""
      && p.category != "" && p.kind != ""
      && (p.imageUrl == None || Truthy(p.imageUrl))
      && (Truthy(r.response) ==> p.response == r.response.value)
      && (!Truthy(r.response) ==> p.response == p.answer)
      && (p.response == "" ==> p.answer == "")
  {
  }

  /** A field that is missing or the empty string takes its default; any other value is kept. */
  lemma FieldDefaults(r: Record)
    ensures var p := Normalize(r);
      && (r.answer == None || r.answer == Some("") ==> p.answer == "")
      && (r.responseType == None || r.responseType == Some("") ==> p.responseType == "text")
      && (r.language == None || r.language == Some("") ==> p.language == "bn")
      && (r.sentiment == None || r.sentiment == Some("") ==> p.sentiment == "neutral")
      && (r.category == None || r.category == Some("") ==> p.category == "general")
      && (r.kind == None || r.kind == Some("") ==> p.kind == "good")
      && (r.imageUrl == None || r.imageUrl == Some("") ==> p.imageUrl == None)
      && (forall s :: r.answer == Some(s) && s != "" ==> p.answer == s)
      && (forall s :: r.responseType == Some(s) && s != "" ==> p.responseType == s)
      && (forall s :: r.language == Some(s) && s != "" ==> p.language == s)
      && (forall s :: r.sentiment == Some(s) && s != "" ==> p.sentiment == s)
      && (forall s :: r.category == Some(s) && s != "" ==> p.category == s)
      && (forall s :: r.kind == Some(s) && s != "" ==> p.kind == s)
      && (forall s :: r.imageUrl == Some(s) && s != "" ==> p.imageUrl == Some(s))
  {
  }

  /** `response` prefers `response`, then `answer`, then the empty string. */
  lemma ResponseFallback(r: Record)
    ensures var p := Normalize(r);
      && (Truthy(r.response) ==> p.response == r.response.value)
      && (!Truthy(r.response) && Truthy(r.answer) ==> p.response == r.answer.value)
      && (!Truthy(r.response) && !Truthy(r.answer) ==> p.response == "")
  {
  }

  /** A record holding only a question and an answer gets every default, with `response` equal to the answer (both may be empty). */
  lemma OnlyQuestionAndAnswer(q: string, a: string)
    ensures Normalize(Record(Some(q), Some(a), None, None, None, None, None, None, None))
         == Payload(ApiKey, Some(q), a, "text", "bn", "neutral", "general", a, "good", None)
  {
  }

  /** The record with every empty optional field replaced by a missing one. */
  function Blank(v: Option<string>): Option<string> {
    if v == Some("") then None else v
  }

  function DropEmpty(r: Record): Record {
    Record(r.question, Blank(r.answer), Blank(r.responseType), Blank(r.language),
           Blank(r.sentiment), Blank(r.category), Blank(r.response), Blank(r.kind),
           Blank(r.imageUrl))
  }

  /** An empty optional field is treated exactly like a missing one. */
  lemma EmptyMeansAbsent(r: Record)
    ensures Normalize(DropEmpty(r)) == Normalize(r)
  {
  }

  /** The record that would carry a payload's values as given fields. */
  function AsRecord(p: Payload): Record {
    Record(p.question, Some(p.answer), Some(p.responseType), Some(p.language),
           Some(p.sentiment), Some(p.category), Some(p.response), Some(p.kind), p.imageUrl)
  }

  /** Normalisation is stable: a payload fed back as a record normalises to itself. */
  lemma NormalizeStable(r: Record)
    ensures Normalize(AsRecord(Normalize(r))) == Normalize(r)
  {
  }

  /** A JSON value found in the reply's `status_code` field. */
  datatype JsValue = JsNumber(n: int) | JsString(s: string) | JsOther

  /**
   What a POST of one payload yields: a transport failure (connection error,
   timeout, a non-2xx status that the HTTP client throws on, a reply body
   that cannot be read), or a reply body whose `status_code` may be missing.
   */
  datatype Outcome = TransportError | Body(statusCode: Option<JsValue>)

  /** The reply accepts the record: `status_code` is strictly equal to the number 201. */
  function Accepted(o: Outcome): (ok: bool)
    ensures ok <==> o == Body(Some(JsNumber(CreatedStatus)))
  {
    match o
    case TransportError => false
    case Body(code) =>
      match code
      case Some(JsNumber(n)) => n == CreatedStatus
      case _ => false
  }

  /** One submission: the request posted, if any, and whether it succeeded. */
  datatype Step = Step(request: Option<Payload>, success: bool)

  /**
   Submits one record, given the reply the network would give to its request.
   A record without a truthy question is rejected before any request is made.
   */
  function TrainOne(r: Record, reply: Outcome): (s: Step)
    ensures s.request.Some? <==> Truthy(r.question)
    ensures s.request.Some? ==> s.request.value == Normalize(r)
    ensures s.success <==> Truthy(r.question) && reply == Body(Some(JsNumber(CreatedStatus)))
  {
    var p := Normalize(r);
    if !Truthy(p.question) then Step(None, false)
    else Step(Some(p), Accepted(reply))
  }
}
