/** Response handling of `submitForm`: how the reply to the POST request is classified
    as a success or a failure with a message, and the notices shown to the operator. */
module Submission {
  import opened Wrappers
  import opened Decimal

  /** A parsed JSON value; of an object only the two fields the handler reads are kept.
      An array is kept as the text `String()` gives for it. */
  datatype Json =
    | JNull
    | JBool(b: bool)
    | JNum(n: int)
    | JStr(s: string)
    | JArray(text: string)
    | JObject(status: Option<Json>, message: Option<Json>)

  /** The response body as `res.json()` sees it. */
  datatype Body = Unparsable | Parsed(value: Json)

  /** What `fetch` delivers: a rejection with its error message, or a response. */
  datatype Reply =
    | NetworkError(reason: string)
    | Response(status: nat, statusText: string, body: Body)

  datatype Outcome = Success | Failure(message: string)

  const SUCCESS_STATUS: string := "success"
  const FALLBACK_MESSAGE: string := "Apps Script returned an error"
  /** The TypeError reading `status` of a `null` body raises (V8's wording). */
  const NULL_BODY_MESSAGE: string := "Cannot read properties of null (reading 'status')"
  /** Written as two literals so that proofs can read its first character. */
  const SUCCESS_NOTICE: string := "Thank you. " + "Your New Client Questionnaire has been submitted."
  const ERROR_NOTICE_PREFIX: string := "Error submitting form: "

  /** `res.ok`: the status is in the range 200-299. */
  predicate IsOk(status: nat)
  {
    200 <= status <= 299
  }

  /** JavaScript truthiness of a JSON value. */
  predicate Truthy(v: Json)
  {
    match v
    case JNull => false
    case JBool(b) => b
    case JNum(n) => n != 0
    case JStr(s) => s != ""
    case JArray(_) => true
    case JObject(_, _) => true
  }

  /** `String(v)`, as `new Error(v)` takes it for its message. */
  function JsString(v: Json): string
  {
    match v
    case JNull => "null"
    case JBool(b) => if b then "true" else "false"
    case JNum(n) => IntToString(n)
    case JStr(s) => s
    case JArray(text) => text
    case JObject(_, _) => "[object Object]"
  }

  /** The message of the error thrown for a response that is not ok. */
  function HttpMessage(status: nat, statusText: string): string
  {
    "HTTP " + NatToString(status) + " " + statusText
  }

  /** Reads the status code and reason phrase back out of such a message. */
  function ParseHttpMessage(m: string): Option<(nat, string)>
  {
    if |m| < 5 || m[..5] != "HTTP " then None
    else
      var d := LeadingDigits(m[5..]);
      if d == [] || |m| < 6 + |d| || m[5 + |d|] != ' ' then None
      else Some((DigitsValue(d), m[6 + |d|..]))
  }

  /** The failure message names the status code and the reason phrase, unambiguously. */
  lemma HttpMessageRoundTrip(status: nat, statusText: string)
    ensures ParseHttpMessage(HttpMessage(status, statusText)) == Some((status, statusText))
  {
    var d := NatToString(status);
    var m := HttpMessage(status, statusText);
    assert m == "HTTP " + (d + (" " + statusText));
    assert m[..5] == "HTTP " && m[5..] == d + (" " + statusText);
    LeadingDigitsOfConcat(d, " " + statusText);
    assert m[6 + |d|..] == statusText;
    NatToStringRoundTrip(status);
  }

  /** The body declares an application error: a truthy `status` other than "success". */
  predicate DeclaresError(v: Json)
  {
    v.JObject? && v.status.Some? && Truthy(v.status.value) && v.status.value != JStr(SUCCESS_STATUS)
  }

  /** `data.message || "Apps Script returned an error"`, as an error message. */
  function AppMessage(message: Option<Json>): string
  {
    if message.Some? && Truthy(message.value) then JsString(message.value) else FALLBACK_MESSAGE
  }

  /** The outcome of one submission, as the promise chain settles it. */
  function Classify(r: Reply): (o: Outcome)
    ensures o == Success <==>
              r.Response? && IsOk(r.status) && (r.body.Parsed? ==> r.body.value != JNull && !DeclaresError(r.body.value))
  {
    match r
    case NetworkError(reason) => Failure(reason)
    case Response(status, statusText, body) =>
      if !IsOk(status) then Failure(HttpMessage(status, statusText))
      else match body
        case Unparsable => Success
        case Parsed(v) =>
          if v == JNull then Failure(NULL_BODY_MESSAGE)
          else if DeclaresError(v) then Failure(AppMessage(v.message))
          else Success
  }

  /** A response that is not ok fails with "HTTP <status> <reason>". */
  lemma NotOkFails(status: nat, statusText: string, body: Body)
    requires !IsOk(status)
    ensures Classify(Response(status, statusText, body)) == Failure(HttpMessage(status, statusText))
  {
  }

  /** A request that never reached the endpoint fails with the rejection's own message. */
  lemma NetworkErrorFails(reason: string)
    ensures Classify(NetworkError(reason)) == Failure(reason)
  {
  }

  /** An ok response whose body is JSON `null` fails with the TypeError of reading its `status`. */
  lemma NullBodyFails(status: nat, statusText: string)
    requires IsOk(status)
    ensures Classify(Response(status, statusText, Parsed(JNull))) == Failure(NULL_BODY_MESSAGE)
  {
  }

  /** An ok response whose body does not parse counts as success. */
  lemma UnparsableOkSucceeds(status: nat, statusText: string)
    requires IsOk(status)
    ensures Classify(Response(status, statusText, Unparsable)) == Success
  {
  }

  /** An ok response whose body declares an error fails with the body's message, or the fallback. */
  lemma DeclaredErrorFails(status: nat, statusText: string, st: Json, message: Option<Json>)
    requires IsOk(status) && Truthy(st) && st != JStr(SUCCESS_STATUS)
    ensures message.Some? && Truthy(message.value) ==>
              Classify(Response(status, statusText, Parsed(JObject(Some(st), message)))) == Failure(JsString(message.value))
    ensures message.None? || !Truthy(message.value) ==>
              Classify(Response(status, statusText, Parsed(JObject(Some(st), message)))) == Failure(FALLBACK_MESSAGE)
  {
  }

  /** A missing, falsy or "success" status in an ok response's object body means success. */
  lemma NoDeclaredErrorSucceeds(status: nat, statusText: string, st: Option<Json>, message: Option<Json>)
    requires IsOk(status)
    requires st.None? || !Truthy(st.value) || st.value == JStr(SUCCESS_STATUS)
    ensures Classify(Response(status, statusText, Parsed(JObject(st, message)))) == Success
  {
  }

  /** The notice the operator is shown for an outcome. */
  function Notice(o: Outcome): string
  {
    match o
    case Success => SUCCESS_NOTICE
    case Failure(m) => ERROR_NOTICE_PREFIX + m
  }

  /** The notice tells the operator the outcome and, for a failure, exactly its message:
      different outcomes never show the same notice. */
  lemma NoticeDeterminesOutcome(o1: Outcome, o2: Outcome)
    requires Notice(o1) == Notice(o2)
    ensures o1 == o2
  {
    var p := ERROR_NOTICE_PREFIX;
    if o1.Failure? && o2.Failure? {
      assert o1.message == Notice(o1)[|p|..];
      assert o2.message == Notice(o2)[|p|..];
    } else if o1.Failure? {
      SuccessNoticeIsNoFailureNotice(o1.message);
    } else if o2.Failure? {
      SuccessNoticeIsNoFailureNotice(o2.message);
    }
  }

  lemma SuccessNoticeIsNoFailureNotice(m: string)
    ensures Notice(Success) != Notice(Failure(m))
  {
    assert Notice(Failure(m))[0] == 'E';
    assert SUCCESS_NOTICE[0] == "Thank you. "[0] == 'T';
  }

  /** A declared error: status "error" with message "Sheet locked". */
  lemma SheetLockedExample()
    ensures Classify(Response(200, "OK", Parsed(JObject(Some(JStr("error")), Some(JStr("Sheet locked"))))))
            == Failure("Sheet locked")
  {
  }

  /** A server error: the notice names status 500. */
  lemma ServerErrorExample()
    ensures Classify(Response(500, "Internal Server Error", Unparsable)) == Failure("HTTP 500 Internal Server Error")
  {
  }
}
