/**
 * `getErrorMessage(error, fallbackMessage)` (client/lib/utils.ts): the first truthy
 * message among `error.response.data.message`, `error.message` and
 * `error.error.message`, else the fallback. Every lookup is an optional chain, so a
 * missing object anywhere along a path makes that message absent.
 */
module ErrorMessage {
  import opened Common

  datatype ResponseData = ResponseData(message: Option<string>)
  datatype Response = Response(data: Option<ResponseData>)
  datatype NestedError = NestedError(message: Option<string>)

  /** The fields of an error object that the selector looks at. */
  datatype ErrorObject = ErrorObject(response: Option<Response>, message: Option<string>, error: Option<NestedError>)

  const DefaultFallback := "An error occurred"

  /** `error?.response?.data?.message`. */
  function ResponseMessage(error: Option<ErrorObject>): Option<string> {
    if error.Some? && error.value.response.Some? && error.value.response.value.data.Some? then
      error.value.response.value.data.value.message
    else
      None
  }

  /** `error?.message`. */
  function OwnMessage(error: Option<ErrorObject>): Option<string> {
    if error.Some? then error.value.message else None
  }

  /** `error?.error?.message`. */
  function NestedMessage(error: Option<ErrorObject>): Option<string> {
    if error.Some? && error.value.error.Some? then error.value.error.value.message else None
  }

  function GetErrorMessage(error: Option<ErrorObject>, fallbackMessage: string := DefaultFallback): (r: string)
    ensures Truthy(ResponseMessage(error)) ==> r == ResponseMessage(error).value
    ensures !Truthy(ResponseMessage(error)) && Truthy(OwnMessage(error)) ==> r == OwnMessage(error).value
    ensures !Truthy(ResponseMessage(error)) && !Truthy(OwnMessage(error)) && Truthy(NestedMessage(error)) ==>
      r == NestedMessage(error).value
    ensures !Truthy(ResponseMessage(error)) && !Truthy(OwnMessage(error)) && !Truthy(NestedMessage(error)) ==>
      r == fallbackMessage
    ensures error.None? ==> r == fallbackMessage
    // An empty message never replaces the fallback.
    ensures r == fallbackMessage || r != ""
  {
    if Truthy(ResponseMessage(error)) then ResponseMessage(error).value
    else if Truthy(OwnMessage(error)) then OwnMessage(error).value
    else if Truthy(NestedMessage(error)) then NestedMessage(error).value
    else fallbackMessage
  }

  // ---------------------------------------------------------------------------
  // Reference definition: the first truthy candidate of a list
  // ---------------------------------------------------------------------------

  /** The messages the selector consults, in priority order. */
  function Candidates(error: Option<ErrorObject>): seq<Option<string>> {
    [ResponseMessage(error), OwnMessage(error), NestedMessage(error)]
  }

  /** The first truthy entry of `cs`, or `fallback` when there is none. */
  function FirstTruthy(cs: seq<Option<string>>, fallback: string): (r: string)
    ensures r == fallback || exists i :: 0 <= i < |cs| && Truthy(cs[i]) && r == cs[i].value
    decreases |cs|
  {
    if cs == [] then fallback
    else if Truthy(cs[0]) then cs[0].value
    else FirstTruthy(cs[1..], fallback)
  }

  /** FirstTruthy picks the earliest truthy entry, and the fallback only when none is truthy. */
  lemma {:induction false} FirstTruthyIsEarliest(cs: seq<Option<string>>, fallback: string, i: nat)
    requires i < |cs| && Truthy(cs[i])
    requires forall j :: 0 <= j < i ==> !Truthy(cs[j])
    ensures FirstTruthy(cs, fallback) == cs[i].value
    decreases i
  {
    if i > 0 {
      assert !Truthy(cs[0]);
      assert forall j :: 0 <= j < i - 1 ==> cs[1..][j] == cs[j + 1];
      FirstTruthyIsEarliest(cs[1..], fallback, i - 1);
    }
  }

  lemma {:induction false} FirstTruthyFallsBack(cs: seq<Option<string>>, fallback: string)
    requires forall j :: 0 <= j < |cs| ==> !Truthy(cs[j])
    ensures FirstTruthy(cs, fallback) == fallback
    decreases |cs|
  {
    if cs != [] {
      assert forall j :: 0 <= j < |cs| - 1 ==> cs[1..][j] == cs[j + 1];
      FirstTruthyFallsBack(cs[1..], fallback);
    }
  }

  /** The selector is the first-match chain over its candidates. */
  lemma GetErrorMessageIsFirstTruthy(error: Option<ErrorObject>, fallbackMessage: string)
    ensures GetErrorMessage(error, fallbackMessage) == FirstTruthy(Candidates(error), fallbackMessage)
  {
    var cs := Candidates(error);
    if Truthy(cs[0]) {
      FirstTruthyIsEarliest(cs, fallbackMessage, 0);
    } else if Truthy(cs[1]) {
      FirstTruthyIsEarliest(cs, fallbackMessage, 1);
    } else if Truthy(cs[2]) {
      FirstTruthyIsEarliest(cs, fallbackMessage, 2);
    } else {
      FirstTruthyFallsBack(cs, fallbackMessage);
    }
  }
}
