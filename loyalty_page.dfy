/**
 * The validated PredictLoyalty page: the component state `formData` and
 * `errors`, and the two handlers that change it. The effects the handlers
 * have outside the state, the POSTs issued and the toasts shown, are kept as
 * logs beside it.
 */
module LoyaltyPage {
  import opened Wrappers
  import opened Form
  import opened Validation
  import opened Notification

  datatype PageState = PageState(
    formData: FormData,
    errors: map<Field, string>,
    toasts: seq<Toast>,        // toasts shown, oldest first
    requests: seq<FormData>)   // bodies POSTed to the predictor, oldest first

  const Initial := PageState(Empty, map[], [], [])

  /** `handleChange`: exactly field `f` of `formData` becomes `v`. */
  function Change(s: PageState, f: Field, v: string): (r: PageState)
    ensures r.formData.Get(f) == v
    ensures forall g :: g != f ==> r.formData.Get(g) == s.formData.Get(g)
    ensures r.errors == s.errors && r.toasts == s.toasts && r.requests == s.requests
  {
    s.(formData := s.formData.With(f, v))
  }

  /**
   * `handleSubmit`: with a failing rule the errors are stored and nothing else
   * happens; otherwise exactly one request is made, and its response either
   * resets the form and clears the errors (with the score's toast) or leaves
   * the state alone (with the failure toast).
   */
  function Submit(s: PageState, parse: Coercion, response: Response): (r: PageState)
    ensures !Valid(s.formData, parse) ==>
      r == s.(errors := Validate(s.formData, parse)) && r.errors != map[]
    ensures Valid(s.formData, parse) ==> r.requests == s.requests + [s.formData]
    ensures Valid(s.formData, parse) && response.Responded? ==>
      && r.formData == Empty && r.errors == map[]
      && r.toasts == s.toasts + [ShowToastMessage(response.score, s.formData.name)]
    ensures Valid(s.formData, parse) && response == Rejected ==>
      && r.formData == s.formData && r.errors == s.errors
      && r.toasts == s.toasts + [FailureToast]
  {
    var validationErrors := Validate(s.formData, parse);
    ValidateEmptyIffValid(s.formData, parse);
    if |validationErrors| > 0 then
      s.(errors := validationErrors)
    else
      var posted := s.(requests := s.requests + [s.formData]);
      match response
      case Rejected =>
        posted.(toasts := s.toasts + [FailureToast])
      case Responded(score) =>
        posted.(formData := Empty, errors := map[],
                toasts := s.toasts + [ShowToastMessage(score, s.formData.name)])
  }

  /**
   * Right after a successful submission the form is empty, so submitting
   * again is blocked: all six errors are shown and no request is made.
   */
  lemma ResubmitAfterSuccessIsBlocked(s: PageState, parse: Coercion, score: Option<real>, next: Response)
    requires Valid(s.formData, parse)
    ensures var done := Submit(s, parse, Responded(score));
      && |Submit(done, parse, next).requests| == |done.requests|
      && forall f :: f in Submit(done, parse, next).errors
  {
    var done := Submit(s, parse, Responded(score));
    EmptyFormFailsEveryRule(parse);
    assert !Accepts(Name, done.formData.Get(Name), parse);
  }

  /**
   * A rejected request keeps the form as typed, so the user can resubmit: a
   * second attempt posts the same body again.
   */
  lemma RetryAfterFailurePostsSameBody(s: PageState, parse: Coercion, next: Response)
    requires Valid(s.formData, parse)
    ensures var failed := Submit(s, parse, Rejected);
      Submit(failed, parse, next).requests == s.requests + [s.formData, s.formData]
  {
  }

  /** A complete, valid record for the relationship "Alice". */
  const Alice := FormData("5", "2", "100", "50", "8", "Alice")

  /** The coercion reads the numerals of `Alice` as the numbers they spell. */
  predicate ReadsAliceNumerals(parse: Coercion) {
    && parse("5") == Some(5.0) && parse("2") == Some(2.0) && parse("100") == Some(100.0)
    && parse("50") == Some(50.0) && parse("8") == Some(8.0)
  }

  /**
   * Submitting `Alice`: one request, a reset form, and a toast that names
   * Alice and whose band follows the returned score.
   */
  lemma AliceSubmission(s: PageState, parse: Coercion, score: real)
    requires s.formData == Alice && ReadsAliceNumerals(parse)
    ensures var r := Submit(s, parse, Responded(Some(score)));
      && r.requests == s.requests + [Alice]
      && r.formData == Empty && r.errors == map[]
      && |r.toasts| == |s.toasts| + 1
      && JsString.Contains(r.toasts[|s.toasts|].message, "Alice")
      && (score >= 8.0 ==> r.toasts[|s.toasts|].severity == Success)
      && (5.0 <= score < 8.0 ==> r.toasts[|s.toasts|].severity == Warning)
      && (score < 5.0 ==> r.toasts[|s.toasts|].severity == Error)
  {
    AliceIsValid(parse);
    var r := Submit(s, parse, Responded(Some(score)));
    var t := ShowToastMessage(Some(score), "Alice");
    assert r.toasts == s.toasts + [t];
    assert r.toasts[|s.toasts|] == t;
  }

  lemma AliceIsValid(parse: Coercion)
    requires ReadsAliceNumerals(parse)
    ensures Valid(Alice, parse)
  {
    assert !JsString.IsWhitespace(Alice.name[0]);
    assert Accepts(Name, Alice.name, parse);
  }

  /**
   * `Alice` with an attendance of 150: the submission is blocked with the
   * attendance error alone, and nothing else changes.
   */
  lemma AttendanceOverHundredBlocks(s: PageState, parse: Coercion, response: Response)
    requires s.formData == Alice.With(Attendance, "150")
    requires ReadsAliceNumerals(parse) && parse("150") == Some(150.0)
    ensures Submit(s, parse, response) == s.(errors := map[Attendance := ErrorText(Attendance)])
  {
    forall g | g != Attendance ensures Accepts(g, s.formData.Get(g), parse) {
      assert !JsString.IsWhitespace(s.formData.name[0]);
    }
    SingleFailure(s.formData, Attendance, parse);
  }

  /** The component instance: its state and the effects its handlers have had. */
  class PredictLoyalty {
    var formData: FormData
    var errors: map<Field, string>
    var toasts: seq<Toast>
    var requests: seq<FormData>

    function Snapshot(): PageState
      reads this
    {
      PageState(formData, errors, toasts, requests)
    }

    /** `useState` with six empty fields and `useState({})`. */
    constructor ()
      ensures Snapshot() == Initial
    {
      formData := Empty;
      errors := map[];
      toasts := [];
      requests := [];
    }

    method HandleChange(f: Field, v: string)
      modifies this
      ensures Snapshot() == Change(old(Snapshot()), f, v)
    {
      formData := formData.With(f, v);
    }

    /** `parse` is the number coercion; `response` is what the POST yields, if it is made. */
    method HandleSubmit(parse: Coercion, response: Response)
      modifies this
      ensures Snapshot() == Submit(old(Snapshot()), parse, response)
    {
      var validationErrors := Validate(formData, parse);
      if |validationErrors| > 0 {
        errors := validationErrors;
        return;
      }
      requests := requests + [formData];
      match response {
        case Rejected =>
          toasts := toasts + [FailureToast];
        case Responded(score) =>
          toasts := toasts + [ShowToastMessage(score, formData.name)];
          formData := Empty;
          errors := map[];
      }
    }
  }
}
