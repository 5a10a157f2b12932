/** The request-state hook of the game client
    (frontend-game/src/hooks/useGeminiApi.ts): a three-field state record
    that each request overwrites when it starts and again when it settles.
    The two requests themselves are calls into a library that is not part
    of this model; what they resolve to or throw is an input. */
module GeminiApi {
  import opened Wrappers

  /** A value a failed request throws: an `Error` with its message, or
      anything else. */
  datatype Thrown = ErrorObject(message: string) | OtherValue

  /** How an awaited library call ends. */
  datatype CallOutcome = Resolved(value: string) | Rejected(thrown: Thrown)

  const GenerateChartFailure := "Failed to generate chart"
  const GeminiRequestFailure := "Failed to make Gemini request"

  /** The message recorded for a failure: the `Error`'s own message, even an
      empty one, otherwise the call's fallback text. */
  function ErrorMessage(thrown: Thrown, fallback: string): (m: string)
    ensures thrown.ErrorObject? ==> m == thrown.message
    ensures thrown.OtherValue? ==> m == fallback
  {
    match thrown
    case ErrorObject(message) => message
    case OtherValue => fallback
  }

  class GeminiApiHook {
    var isLoading: bool
    var error: Option<string>
    var result: Option<string>

    /** Never both an error and a result, and neither while loading. */
    predicate Valid()
      reads this
    {
      !(error.Some? && result.Some?) && (isLoading ==> error.None? && result.None?)
    }

    /** The initial state: idle, no error, no result. */
    constructor ()
      ensures Valid()
      ensures !isLoading && error == None && result == None
    {
      isLoading := false;
      error := None;
      result := None;
    }

    /** The synchronous start of a request. */
    method Begin()
      modifies this
      ensures Valid()
      ensures isLoading && error == None && result == None
    {
      isLoading := true;
      error := None;
      result := None;
    }

    /** The end of a request once its awaited call has settled: the value
        as result, or the failure's message as error. */
    method Settle(outcome: CallOutcome, fallback: string) returns (r: Result<string, Thrown>)
      modifies this
      ensures Valid() && !isLoading
      ensures outcome.Resolved? ==> error == None && result == Some(outcome.value) && r == Ok(outcome.value)
      ensures outcome.Rejected? ==>
        error == Some(ErrorMessage(outcome.thrown, fallback)) && result == None && r == Err(outcome.thrown)
    {
      isLoading := false;
      match outcome {
        case Resolved(value) =>
          error := None;
          result := Some(value);
          r := Ok(value);
        case Rejected(thrown) =>
          error := Some(ErrorMessage(thrown, fallback));
          result := None;
          r := Err(thrown);
      }
    }

    /** `generateChart`, with the library call's outcome as input: the
        chart text is returned, or the thrown value is re-thrown. */
    method GenerateChart(outcome: CallOutcome) returns (r: Result<string, Thrown>)
      modifies this
      ensures Valid() && !isLoading
      ensures outcome.Resolved? ==> error == None && result == Some(outcome.value) && r == Ok(outcome.value)
      ensures outcome.Rejected? ==>
        error == Some(ErrorMessage(outcome.thrown, GenerateChartFailure)) && result == None
        && r == Err(outcome.thrown)
    {
      Begin();
      r := Settle(outcome, GenerateChartFailure);
    }

    /** `makeRequest`, with the library call's outcome as input. */
    method MakeRequest(outcome: CallOutcome) returns (r: Result<string, Thrown>)
      modifies this
      ensures Valid() && !isLoading
      ensures outcome.Resolved? ==> error == None && result == Some(outcome.value) && r == Ok(outcome.value)
      ensures outcome.Rejected? ==>
        error == Some(ErrorMessage(outcome.thrown, GeminiRequestFailure)) && result == None
        && r == Err(outcome.thrown)
    {
      Begin();
      r := Settle(outcome, GeminiRequestFailure);
    }

    /** `reset`: back to the initial state. */
    method Reset()
      modifies this
      ensures Valid()
      ensures !isLoading && error == None && result == None
    {
      isLoading := false;
      error := None;
      result := None;
    }
  }
}
