/**
 * The results a request handler hands back to revel: an `ApiMessage` (a status code
 * with a message, rendered as `{code, message}`) or a JSON body, and the three
 * default messages of controller.go.
 */
module ApiMessages {
  import opened Wrappers
  import opened Values

  const StatusOK := 200
  const StatusBadRequest := 400
  const StatusUnauthorized := 401
  const StatusNotFound := 404
  const StatusTeapot := 418
  const StatusInternalServerError := 500

  /** The message used when the `apikit.internalservererror` setting is absent. */
  const DefaultInternalErrorText := "An unexpected error ocurred"

  datatype ApiMessage = ApiMessage(statusCode: int, message: string)

  /** A revel.Result as this library produces it: a message, or a success whose JSON
      payload is the given value. */
  datatype Outcome = Message(msg: ApiMessage) | Json(body: Value)

  function DefaultBadRequestMessage(): (r: Outcome)
    ensures r.Message? && r.msg.statusCode == StatusBadRequest
    ensures r.msg.message == "Improperly formatted request body"
  {
    Message(ApiMessage(StatusBadRequest, "Improperly formatted request body"))
  }

  function DefaultNotFoundMessage(): (r: Outcome)
    ensures r.Message? && r.msg.statusCode == StatusNotFound && r.msg.message == "Not Found"
  {
    Message(ApiMessage(StatusNotFound, "Not Found"))
  }

  /** `configured` is the `apikit.internalservererror` configuration value, if set. */
  function DefaultInternalServerErrorMessage(configured: Option<string>): (r: Outcome)
    ensures r.Message? && r.msg.statusCode == StatusInternalServerError
    ensures configured.Some? ==> r.msg.message == configured.value
    ensures configured.None? ==> r.msg.message == DefaultInternalErrorText
  {
    Message(ApiMessage(StatusInternalServerError,
      match configured case Some(text) => text case None => DefaultInternalErrorText))
  }

  /** fmt.Sprint of an unsigned integer: its decimal digits. */
  function DecimalString(n: nat): (s: string)
    ensures |s| > 0 && forall i :: 0 <= i < |s| ==> '0' <= s[i] <= '9'
    ensures n < 10 <==> |s| == 1
    decreases n
  {
    if n < 10 then [Digit(n)] else DecimalString(n / 10) + [Digit(n % 10)]
  }

  function Digit(d: nat): (c: char)
    requires d < 10
    ensures '0' <= c <= '9'
  {
    ['0', '1', '2', '3', '4', '5', '6', '7', '8', '9'][d]
  }

  /** The number a string of decimal digits denotes. */
  function DecimalValue(s: string): (n: nat)
    requires forall i :: 0 <= i < |s| ==> '0' <= s[i] <= '9'
    ensures |s| == 1 ==> n == (s[0] as int) - ('0' as int)
    decreases |s|
  {
    if |s| == 0 then 0
    else DecimalValue(s[..|s| - 1]) * 10 + ((s[|s| - 1] as int) - ('0' as int))
  }

  /** Reading back the decimal digits of n gives n, so distinct record IDs give
      distinct not-found messages. */
  lemma {:induction false} DecimalStringRoundTrip(n: nat)
    ensures DecimalValue(DecimalString(n)) == n
    decreases n
  {
    var s := DecimalString(n);
    if n >= 10 {
      DecimalStringRoundTrip(n / 10);
      assert s[..|s| - 1] == DecimalString(n / 10);
      assert s[|s| - 1] == Digit(n % 10);
    }
  }

  /** A number of two or more digits has no leading zero. */
  lemma {:induction false} DecimalStringNoLeadingZero(n: nat)
    requires n >= 10
    ensures DecimalString(n)[0] != '0'
    decreases n
  {
    if n / 10 >= 10 {
      DecimalStringNoLeadingZero(n / 10);
    }
  }
}
