/**
  The `/send-message` endpoint: validation of the request body, the chat id
  derived from the phone number, and the order in which the checks answer.
  The transport's answers (is the number registered, did the send throw)
  are parameters; the calls the endpoint makes are part of the outcome.
 */
module Dispatch {
  import opened Wrappers

  /** A field of the JSON request body: missing, a string, or some other
      JSON value (number, boolean, object, array, null) that is truthy or not. */
  datatype Field = Absent | Text(s: string) | NonText(truthy: bool)

  /** JavaScript truthiness of a field: only a non-empty string is a truthy string. */
  predicate Truthy(f: Field)
  {
    match f
    case Absent => false
    case Text(s) => s != ""
    case NonText(t) => t
  }

  /** `\d`: an ASCII digit. */
  predicate IsDigit(c: char)
  {
    '0' <= c <= '9'
  }

  /** `number.replace(/\D/g, "")`: the digits of `s`, in order. */
  function Digits(s: string): (d: string)
    ensures forall c :: c in d ==> IsDigit(c)
    ensures |d| <= |s|
  {
    if s == [] then []
    else (if IsDigit(s[0]) then [s[0]] else []) + Digits(s[1..])
  }

  /** The transport-addressable chat id for a phone number. */
  function ChatId(number: string): (id: string)
    ensures |id| >= 5 && id[|id| - 5..] == "@c.us"
    ensures forall i :: 0 <= i < |id| - 5 ==> IsDigit(id[i])
  {
    Digits(number) + "@c.us"
  }

  /** Removing non-digits keeps a string exactly when it has nothing but digits. */
  lemma {:induction false} DigitsKeepsOnlyDigits(s: string)
    ensures Digits(s) == s <==> forall c :: c in s ==> IsDigit(c)
  {
    if s != [] {
      DigitsKeepsOnlyDigits(s[1..]);
      if !IsDigit(s[0]) {
        assert |Digits(s)| <= |s[1..]|;
      } else {
        assert forall c :: c in s ==> c == s[0] || c in s[1..];
      }
    }
  }

  /** Digit extraction works piecewise. */
  lemma {:induction false} DigitsOfConcat(a: string, b: string)
    ensures Digits(a + b) == Digits(a) + Digits(b)
  {
    if a == [] {
      assert a + b == b;
    } else {
      assert (a + b)[1..] == a[1..] + b;
      DigitsOfConcat(a[1..], b);
    }
  }

  /** Separators (spaces, '+', '-', parentheses, anything but a digit) do
      not change the chat id a number maps to. */
  lemma ChatIdIgnoresSeparator(a: string, c: char, b: string)
    requires !IsDigit(c)
    ensures ChatId(a + [c] + b) == ChatId(a + b)
  {
    assert [c][1..] == [];
    assert Digits([c]) == [];
    DigitsOfConcat(a, [c]);
    assert Digits(a + [c]) == Digits(a) + [];
    assert Digits(a) + [] == Digits(a);
    DigitsOfConcat(a + [c], b);
    DigitsOfConcat(a, b);
  }

  /** The answer of `client.isRegisteredUser(chatId)`. */
  datatype Lookup = Registered | Unregistered | LookupFailed(reason: string)

  /** The JSON body of the HTTP response. */
  datatype Body = Failure(error: string) | FailureDetails(error: string, details: string) | Success(message: string)

  datatype Response = Response(status: nat, body: Body)

  /** The HTTP response (none when the handler throws before answering,
      as under Express 4, which leaves a rejected handler unanswered),
      the chat id looked up on the transport, and the (chat id, message)
      handed to `client.sendMessage`. */
  datatype Outcome = Outcome(response: Option<Response>, lookedUp: Option<string>, delivered: Option<(string, Field)>)

  const MissingFields: string := "Número e mensagem são obrigatórios!"
  const NotConnected: string := "Cliente do WhatsApp não está conectado!"
  const NotRegistered: string := "O número não está registrado no WhatsApp!"
  const SendFailed: string := "Erro ao enviar mensagem"

  /** One request to `/send-message`. A falsy field is refused with 400
      before anything else; a number that is not a string makes
      `number.replace` throw outside the try block, so no response is sent
      (Express 4 is assumed: under Express 5 the rejection reaches the
      default error handler, which answers 500);
      then a transport that is not ready gives 500; then an unregistered
      number gives 400; a lookup or send that throws gives 500 with details;
      only a registered number whose send succeeds gives 200. */
  function SendMessage(number: Field, message: Field, ready: bool, lookup: Lookup, sendError: Option<string>): (o: Outcome)
    ensures o.response == Some(Response(400, Failure(MissingFields))) <==> !Truthy(number) || !Truthy(message)
    ensures o.response == None <==> Truthy(number) && Truthy(message) && number.NonText?
    ensures o.response == Some(Response(500, Failure(NotConnected)))
            <==> Truthy(number) && Truthy(message) && number.Text? && !ready
    ensures o.lookedUp.Some? <==> Truthy(number) && Truthy(message) && number.Text? && ready
    ensures o.lookedUp.Some? ==> o.lookedUp.value == ChatId(number.s)
    ensures o.response == Some(Response(400, Failure(NotRegistered))) <==> o.lookedUp.Some? && lookup == Unregistered
    ensures o.delivered.Some? <==> o.lookedUp.Some? && lookup == Registered
    ensures o.delivered.Some? ==> o.delivered.value == (ChatId(number.s), message)
    ensures o.lookedUp.Some? && lookup.LookupFailed?
            ==> o.response == Some(Response(500, FailureDetails(SendFailed, lookup.reason)))
    ensures o.delivered.Some? && sendError.Some?
            ==> o.response == Some(Response(500, FailureDetails(SendFailed, sendError.value)))
    ensures (o.response.Some? && o.response.value.status == 200) <==> o.delivered.Some? && sendError == None
    ensures o.response.Some? && o.response.value.status == 200
            ==> o.response.value.body == Success("Mensagem enviada para " + number.s)
  {
    if !Truthy(number) || !Truthy(message) then
      Outcome(Some(Response(400, Failure(MissingFields))), None, None)
    else if number.NonText? then
      Outcome(None, None, None)
    else
      var chatId := ChatId(number.s);
      if !ready then
        Outcome(Some(Response(500, Failure(NotConnected))), None, None)
      else
        match lookup
        case LookupFailed(reason) =>
          Outcome(Some(Response(500, FailureDetails(SendFailed, reason))), Some(chatId), None)
        case Unregistered =>
          Outcome(Some(Response(400, Failure(NotRegistered))), Some(chatId), None)
        case Registered =>
          match sendError
          case Some(reason) =>
            Outcome(Some(Response(500, FailureDetails(SendFailed, reason))), Some(chatId), Some((chatId, message)))
          case None =>
            Outcome(Some(Response(200, Success("Mensagem enviada para " + number.s))), Some(chatId), Some((chatId, message)))
  }
}
