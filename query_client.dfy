/**
 * The decision order of `BitqueryClient.execute_query`, with the HTTP exchange
 * abstracted to the reply it produced: a missing API key short-circuits before
 * anything is sent, then a transport exception, a non-200 status, a blank body
 * and an undecodable body each become a one-key `{"error": ...}` payload.
 */
module QueryClient {
  import opened PyJson

  const MissingKeyError := "BITQUERY_API_KEY not provided"
  const EmptyResponseError := "Empty response from API"
  const RequestFailedPrefix := "Request failed: "
  const InvalidJsonPrefix := "Invalid JSON response: "

  /** `str(e)` of the NameError raised when `except json.JSONDecodeError` is evaluated without `json` imported. */
  const JsonNameError := "name 'json' is not defined"

  /** How much of an undecodable body the intended message quotes. */
  const QuotedBodyLength := 200

  /**
   * What the POST produced: a reply with its status code, body text and the body
   * decoded as a JSON object (`None` when `response.json()` raises), or the text of
   * the exception httpx raised (timeout, connection failure, ...).
   */
  datatype HttpReply =
    | Reply(statusCode: int, text: string, decoded: Option<Dict>)
    | TransportFailure(message: string)

  /** The `{"error": message}` payload. */
  function ErrorEnvelope(message: string): (d: Dict)
    ensures Lookup(d, "error") == Some(Str(message))
    ensures |d| == 1
  {
    [("error", Str(message))]
  }

  /** The characters `str.strip()` removes (those for which `str.isspace()` holds). */
  predicate IsPyWhitespace(c: char)
  {
    c == ' ' || '\t' <= c <= '\r' || '\U{1c}' <= c <= '\U{1f}' || c == '\U{85}' || c == '\U{a0}' ||
    c == '\U{1680}' || '\U{2000}' <= c <= '\U{200a}' || c == '\U{2028}' || c == '\U{2029}' ||
    c == '\U{202f}' || c == '\U{205f}' || c == '\U{3000}'
  }

  /** `not s.strip()`: nothing but whitespace. */
  predicate IsBlank(s: string)
  {
    forall i :: 0 <= i < |s| ==> IsPyWhitespace(s[i])
  }

  /** `s.lstrip()`: the string after its leading whitespace. */
  function LStrip(s: string): (t: string)
    ensures |t| <= |s| && t == s[|s| - |t|..]
  {
    if s != [] && IsPyWhitespace(s[0]) then LStrip(s[1..]) else s
  }

  /** A string is blank exactly when stripping its leading whitespace leaves nothing. */
  lemma {:induction false} BlankIffStripEmpty(s: string)
    ensures IsBlank(s) <==> LStrip(s) == []
  {
    if s != [] && IsPyWhitespace(s[0]) {
      BlankIffStripEmpty(s[1..]);
      assert IsBlank(s) <==> IsBlank(s[1..]) by {
        if IsBlank(s[1..]) {
          forall i | 0 <= i < |s| ensures IsPyWhitespace(s[i]) {
            if i > 0 { assert s[i] == s[1..][i - 1]; }
          }
        }
      }
    }
  }

  function HttpStatusError(statusCode: int, text: string): string
  {
    "HTTP " + IntToDecimal(statusCode) + ": " + text
  }

  /** `f"Invalid JSON response: {response.text[:200]}..."` */
  function InvalidJsonError(text: string): string
  {
    InvalidJsonPrefix + text[..if |text| < QuotedBodyLength then |text| else QuotedBodyLength] + "..."
  }

  /**
   * `execute_query` as written: a body that does not decode makes Python evaluate
   * `json.JSONDecodeError`, and the NameError that raises is caught by the outer
   * `except Exception`.
   */
  function ExecuteQuery(apiKey: string, reply: HttpReply): (r: Dict)
    ensures Decoded(apiKey, reply) ==> r == reply.decoded.value
    ensures !Decoded(apiKey, reply) ==> |r| == 1 && HasKey(r, "error")
  {
    if apiKey == "" then ErrorEnvelope(MissingKeyError)
    else
      match reply
      case TransportFailure(m) => ErrorEnvelope(RequestFailedPrefix + m)
      case Reply(code, text, decoded) =>
        if code != 200 then ErrorEnvelope(HttpStatusError(code, text))
        else if IsBlank(text) then ErrorEnvelope(EmptyResponseError)
        else
          match decoded
          case Some(d) => d
          case None => ErrorEnvelope(RequestFailedPrefix + JsonNameError)
  }

  /** `execute_query` as its inner handler intends it: an undecodable body quotes the first 200 characters. */
  function ExecuteQueryIntended(apiKey: string, reply: HttpReply): (r: Dict)
    ensures Decoded(apiKey, reply) ==> r == reply.decoded.value
    ensures !Decoded(apiKey, reply) ==> |r| == 1 && HasKey(r, "error")
  {
    if apiKey == "" then ErrorEnvelope(MissingKeyError)
    else
      match reply
      case TransportFailure(m) => ErrorEnvelope(RequestFailedPrefix + m)
      case Reply(code, text, decoded) =>
        if code != 200 then ErrorEnvelope(HttpStatusError(code, text))
        else if IsBlank(text) then ErrorEnvelope(EmptyResponseError)
        else
          match decoded
          case Some(d) => d
          case None => ErrorEnvelope(InvalidJsonError(text))
  }

  /** The reply was received, accepted and decoded: the only case where the body itself is returned. */
  predicate Decoded(apiKey: string, reply: HttpReply)
  {
    apiKey != "" && reply.Reply? && reply.statusCode == 200 && !IsBlank(reply.text) && reply.decoded.Some?
  }

  /** The key check comes first: without a key the reply (the request is never sent) cannot matter. */
  lemma NoKeyNoRequest(reply1: HttpReply, reply2: HttpReply)
    ensures ExecuteQuery("", reply1) == ExecuteQuery("", reply2) == ErrorEnvelope(MissingKeyError)
    ensures ExecuteQueryIntended("", reply1) == ExecuteQueryIntended("", reply2) == ErrorEnvelope(MissingKeyError)
  {
  }

  /**
   * The contracts of both variants side by side, with what they add together: on the
   * decoded case the two variants return the same body.
   */
  lemma BodyOrEnvelope(apiKey: string, reply: HttpReply)
    ensures Decoded(apiKey, reply) ==>
      ExecuteQuery(apiKey, reply) == ExecuteQueryIntended(apiKey, reply) == reply.decoded.value
    ensures !Decoded(apiKey, reply) ==>
      |ExecuteQuery(apiKey, reply)| == 1 && HasKey(ExecuteQuery(apiKey, reply), "error") &&
      |ExecuteQueryIntended(apiKey, reply)| == 1 && HasKey(ExecuteQueryIntended(apiKey, reply), "error")
  {
  }

  /** Any status other than 200 is reported with its code and body, whatever the body is. */
  lemma NonOkStatusReported(apiKey: string, statusCode: int, text: string, decoded: Option<Dict>)
    requires apiKey != "" && statusCode != 200
    ensures ExecuteQuery(apiKey, Reply(statusCode, text, decoded)) ==
      ErrorEnvelope("HTTP " + IntToDecimal(statusCode) + ": " + text)
  {
  }

  /** An exception raised by the POST is reported with its text. */
  lemma TransportFailureReported(apiKey: string, message: string)
    requires apiKey != ""
    ensures ExecuteQuery(apiKey, TransportFailure(message)) == ErrorEnvelope(RequestFailedPrefix + message)
  {
  }

  /** A 200 reply whose body is only whitespace is "empty", even if something decoded. */
  lemma BlankBodyIsEmpty(apiKey: string, text: string, decoded: Option<Dict>)
    requires apiKey != "" && IsBlank(text)
    ensures ExecuteQuery(apiKey, Reply(200, text, decoded)) == ErrorEnvelope(EmptyResponseError)
  {
  }

  /**
   * As written, "Invalid JSON response" is never produced: whenever the result is an
   * error payload of `execute_query`'s own making, its message starts differently.
   */
  lemma InvalidJsonMessageUnreachable(apiKey: string, reply: HttpReply)
    requires !Decoded(apiKey, reply)
    ensures var message := Lookup(ExecuteQuery(apiKey, reply), "error").value;
      message.Str? && !(|InvalidJsonPrefix| <= |message.s| && message.s[..|InvalidJsonPrefix|] == InvalidJsonPrefix)
  {
    var message := Lookup(ExecuteQuery(apiKey, reply), "error").value;
    assert message.s[0] != 'I';
  }

  /** An accepted, non-blank body that does not decode yields the NameError text behind "Request failed: ". */
  lemma UndecodableBodyAsWritten(apiKey: string, text: string)
    requires apiKey != "" && !IsBlank(text)
    ensures ExecuteQuery(apiKey, Reply(200, text, None)) ==
      ErrorEnvelope(RequestFailedPrefix + JsonNameError)
  {
  }

  /** The concrete case: the body `x` from a 200 reply does not decode. */
  lemma UndecodableBodyExample()
    ensures ExecuteQuery("key", Reply(200, "x", None)) ==
      ErrorEnvelope(RequestFailedPrefix + JsonNameError)
    ensures ExecuteQueryIntended("key", Reply(200, "x", None)) ==
      ErrorEnvelope(InvalidJsonPrefix + "x" + "...")
  {
    assert "x"[0] == 'x';
    assert !IsBlank("x");
    assert "x"[..1] == "x";
  }

  /**
   * As intended, an undecodable body is quoted: the message is the prefix, then the
   * body's first `min(200, len)` characters, then "...".
   */
  lemma UndecodableBodyIntended(apiKey: string, text: string)
    requires apiKey != "" && !IsBlank(text)
    ensures var message := Lookup(ExecuteQueryIntended(apiKey, Reply(200, text, None)), "error").value.s;
      var quoted := message[|InvalidJsonPrefix|..|message| - 3];
      |InvalidJsonPrefix| + 3 <= |message| &&
      message[..|InvalidJsonPrefix|] == InvalidJsonPrefix &&
      message[|message| - 3..] == "..." &&
      |quoted| == (if |text| < 200 then |text| else 200) &&
      quoted == text[..|quoted|]
  {
  }

  /** The as-written and intended variants differ only on an accepted body that does not decode. */
  lemma VariantsAgreeElsewhere(apiKey: string, reply: HttpReply)
    requires !(apiKey != "" && reply.Reply? && reply.statusCode == 200 && !IsBlank(reply.text) && reply.decoded.None?)
    ensures ExecuteQuery(apiKey, reply) == ExecuteQueryIntended(apiKey, reply)
  {
  }
}
