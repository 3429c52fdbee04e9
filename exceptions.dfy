/**
 * The error hierarchy of lib/simple_spark/exceptions.rb. Each Ruby class is
 * a kind; `Error#object` is the payload; `fail` becomes a returned value.
 */
module Exceptions {
  import opened Wrappers
  import opened Requests
  import Decimal

  datatype ErrorKind =
    | InvalidConfiguration
    | BadRequest
    | NotFound
    | UnprocessableEntity
    | ThrottleLimitExceeded

  /**
   * One entry of the server's `errors` array: the interpolated `message`
   * (empty when absent), the `code`, and the `description` when it is truthy.
   */
  datatype ErrorItem = ErrorItem(message: string, code: Option<int>, description: Option<string>)

  /** What `Error#object` holds: nil, `{ method: m }`, or the errors array. */
  datatype ErrorObject = NoObject | MethodObject(verb: MethodArg) | ErrorList(items: seq<ErrorItem>)

  /** A raised error: its class, its `object` (here `payload`) and its `message`. */
  datatype ApiError = ApiError(kind: ErrorKind, payload: ErrorObject, message: string)

  const DEFAULT_KEY := "default"

  /** `Error.status_codes`: status text to error class, with a fallback entry. */
  function StatusCodes(): (m: map<string, ErrorKind>)
    ensures DEFAULT_KEY in m && m[DEFAULT_KEY] == UnprocessableEntity
    ensures InvalidConfiguration !in m.Values
  {
    map[
      DEFAULT_KEY := UnprocessableEntity,
      "400" := BadRequest,
      "404" := NotFound,
      "422" := UnprocessableEntity,
      "420" := ThrottleLimitExceeded
    ]
  }

  /**
   * The status's decimal text is looked up in the table, falling back to
   * the `default` entry: 400, 404 and 420
   * have classes of their own; every other status, 429 and 500 included,
   * falls back to UnprocessableEntity.
   */
  function KindForStatus(status: int): (k: ErrorKind)
    ensures status == 400 ==> k == BadRequest
    ensures status == 404 ==> k == NotFound
    ensures status == 420 ==> k == ThrottleLimitExceeded
    ensures status !in {400, 404, 420} ==> k == UnprocessableEntity
  {
    var key := Decimal.ToS(status);
    Decimal.ToSInjective(status, 400);
    Decimal.ToSInjective(status, 404);
    Decimal.ToSInjective(status, 420);
    Decimal.ToSInjective(status, 422);
    assert Decimal.ToS(400) == "400" && Decimal.ToS(404) == "404";
    assert Decimal.ToS(420) == "420" && Decimal.ToS(422) == "422";
    assert key != DEFAULT_KEY;
    var codes := StatusCodes();
    if key in codes then codes[key] else codes[DEFAULT_KEY]
  }

  /** One item of the message: its text, then `: description` when present. */
  function Render(e: ErrorItem): (s: string)
    ensures e.description.None? ==> s == e.message
    ensures e.description.Some? ==> s == e.message + ": " + e.description.value
  {
    e.message + (if e.description.Some? then ": " + e.description.value else "")
  }

  /** The rendered items joined by `", "`, in input order. */
  function Message(items: seq<ErrorItem>): (s: string)
    ensures |items| == 0 ==> s == ""
    ensures |items| == 1 ==> s == Render(items[0])
  {
    if |items| == 0 then ""
    else if |items| == 1 then Render(items[0])
    else Render(items[0]) + ", " + Message(items[1..])
  }

  /**
   * `Error.fail_with_exception_for_status`: it always raises, so it is
   * modelled as the error it raises.
   */
  function FailWithExceptionForStatus(status: int, errors: seq<ErrorItem>): (e: ApiError)
    ensures e.kind == KindForStatus(status) && e.kind != InvalidConfiguration
    ensures e.payload == ErrorList(errors)
    ensures e.message == Message(errors)
  {
    ApiError(KindForStatus(status), ErrorList(errors), Message(errors))
  }

  /** Joining two non-empty lists of items joins their messages with `", "`. */
  lemma {:induction false} MessageAppend(a: seq<ErrorItem>, b: seq<ErrorItem>)
    requires |a| > 0 && |b| > 0
    ensures Message(a + b) == Message(a) + ", " + Message(b)
  {
    assert (a + b)[0] == a[0];
    if |a| == 1 {
      assert (a + b)[1..] == b;
    } else {
      assert (a + b)[1..] == a[1..] + b;
      MessageAppend(a[1..], b);
    }
  }

  /** Two items that differ only in their codes. */
  predicate SameText(e: ErrorItem, f: ErrorItem) {
    e.message == f.message && e.description == f.description
  }

  /** The message depends on the items' texts only: no code ever appears in it. */
  lemma {:induction false} MessageIgnoresCodes(a: seq<ErrorItem>, b: seq<ErrorItem>)
    requires |a| == |b|
    requires forall i :: 0 <= i < |a| ==> SameText(a[i], b[i])
    ensures Message(a) == Message(b)
  {
    if |a| > 1 {
      MessageIgnoresCodes(a[1..], b[1..]);
    }
  }

  /** Nor does the status: two statuses raise errors with the same message. */
  lemma MessageIgnoresStatus(s: int, t: int, errors: seq<ErrorItem>)
    ensures FailWithExceptionForStatus(s, errors).message == FailWithExceptionForStatus(t, errors).message
  {
  }

  /**
   * The item of spec/simple_spark/exceptions_spec.rb:6 under status 400:
   * the message is the item's text alone, not the status-and-code form that
   * test expects.
   */
  lemma ExceptionsSpecExample()
    ensures var e := FailWithExceptionForStatus(400, [ErrorItem("Test Error Message", Some(3005), None)]);
      && e.kind == BadRequest
      && e.message == "Test Error Message"
      && e.message != "Test Error Message 400 (Error Code: 3005)"
  {
  }
}
