/**
 * The earlier PredictLoyalty component: the same form without validation
 * and without an error object. Every submission POSTs the form.
 */
module LoyaltyComponent {
  import opened Form
  import opened Validation
  import opened Notification
  import LoyaltyPage

  datatype ComponentState = ComponentState(
    formData: FormData,
    toasts: seq<Toast>,        // toasts shown, oldest first
    requests: seq<FormData>)   // bodies POSTed to the predictor, oldest first

  const Initial := ComponentState(Empty, [], [])

  /** `handleChange`: exactly field `f` of `formData` becomes `v`. */
  function Change(s: ComponentState, f: Field, v: string): (r: ComponentState)
    ensures r.formData.Get(f) == v
    ensures forall g :: g != f ==> r.formData.Get(g) == s.formData.Get(g)
    ensures r.toasts == s.toasts && r.requests == s.requests
  {
    s.(formData := s.formData.With(f, v))
  }

  /**
   * `handleSubmit`: whatever the fields hold, one request is made; a response
   * resets the form with the score's toast, a rejection keeps the form with
   * the failure toast.
   */
  function Submit(s: ComponentState, response: Response): (r: ComponentState)
    ensures r.requests == s.requests + [s.formData]
    ensures response.Responded? ==>
      r.formData == Empty && r.toasts == s.toasts + [ShowToastMessage(response.score, s.formData.name)]
    ensures response == Rejected ==>
      r.formData == s.formData && r.toasts == s.toasts + [FailureToast]
  {
    var posted := s.(requests := s.requests + [s.formData]);
    match response
    case Rejected =>
      posted.(toasts := s.toasts + [FailureToast])
    case Responded(score) =>
      posted.(formData := Empty, toasts := s.toasts + [ShowToastMessage(score, s.formData.name)])
  }

  /** The part of the page's state this component also has. */
  function Project(p: LoyaltyPage.PageState): ComponentState {
    ComponentState(p.formData, p.toasts, p.requests)
  }

  /**
   * On a form whose every rule passes the two variants behave alike; on any
   * other form the page makes no request while this component still makes one.
   */
  lemma VariantsAgreeOnValidForms(p: LoyaltyPage.PageState, parse: Coercion, response: Response)
    ensures Valid(p.formData, parse) ==>
      Project(LoyaltyPage.Submit(p, parse, response)) == Submit(Project(p), response)
    ensures !Valid(p.formData, parse) ==>
      |LoyaltyPage.Submit(p, parse, response).requests| + 1 == |Submit(Project(p), response).requests|
  {
  }

  /** The component instance: its form and the effects its handlers have had. */
  class PredictLoyalty {
    var formData: FormData
    var toasts: seq<Toast>
    var requests: seq<FormData>

    function Snapshot(): ComponentState
      reads this
    {
      ComponentState(formData, toasts, requests)
    }

    constructor ()
      ensures Snapshot() == Initial
    {
      formData := Empty;
      toasts := [];
      requests := [];
    }

    method HandleChange(f: Field, v: string)
      modifies this
      ensures Snapshot() == Change(old(Snapshot()), f, v)
    {
      formData := formData.With(f, v);
    }

    /** `response` is what the POST yields. */
    method HandleSubmit(response: Response)
      modifies this
      ensures Snapshot() == Submit(old(Snapshot()), response)
    {
      requests := requests + [formData];
      match response {
        case Rejected =>
          toasts := toasts + [FailureToast];
        case Responded(score) =>
          toasts := toasts + [ShowToastMessage(score, formData.name)];
          formData := Empty;
      }
    }
  }
}
