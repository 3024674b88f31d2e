/**
 * The form record shared by both variants of the PredictLoyalty component:
 * six named text fields, all initially the empty string.
 */
module Form {
  import opened Wrappers

  /** The six input names; `e.target.name` is always one of them. */
  datatype Field =
    | Frequency   // Frequency_of_Communication
    | Help        // Help_in_Crises
    | Financial   // Financial_Support_Provided
    | Attendance  // Attendance_at_Events
    | Sentiment   // Sentiment_Score
    | Name        // Relationship_Name

  /** `formData`: the raw text of every input, exactly as typed. */
  datatype FormData = FormData(
    frequency: string,
    help: string,
    financial: string,
    attendance: string,
    sentiment: string,
    name: string)
  {
    /** `formData[f]` */
    function Get(f: Field): string {
      match f
      case Frequency => frequency
      case Help => help
      case Financial => financial
      case Attendance => attendance
      case Sentiment => sentiment
      case Name => name
    }

    /** `{...formData, [f]: v}`: field `f` now reads `v`, every other field reads as before. */
    function With(f: Field, v: string): (r: FormData)
      ensures r.Get(f) == v
      ensures forall g :: g != f ==> r.Get(g) == Get(g)
    {
      match f
      case Frequency => this.(frequency := v)
      case Help => this.(help := v)
      case Financial => this.(financial := v)
      case Attendance => this.(attendance := v)
      case Sentiment => this.(sentiment := v)
      case Name => this.(name := v)
    }
  }

  /** The initial state of the form and the state a successful submission resets it to. */
  const Empty := FormData("", "", "", "", "", "")

  /**
   * JavaScript's string-to-number coercion (`Number(s)`, which `isNaN` and the
   * relational operators apply to a string): `None` stands for NaN.
   */
  type Coercion = string -> Option<real>

  /** What the POST to the predictor yields: a rejection, or a body whose `loyalty_score` may be absent. */
  datatype Response = Rejected | Responded(score: Option<real>)
}
