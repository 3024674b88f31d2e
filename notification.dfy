/**
 * `showToastMessage` (identical in both variants of the component) and the
 * generic failure toast: a toast is modelled as the (severity, message) pair
 * handed to the notification library.
 */
module Notification {
  import opened Wrappers
  import opened JsString

  /** The toast types the component uses; `Info` is only the initial value of `type`. */
  datatype Severity = Info | Success | Warning | Error

  datatype Toast = Toast(severity: Severity, message: string)

  /**
   * The band of `loyaltyScore`. `None` stands for a missing or non-numeric
   * score: both comparisons with it are false, so it falls to the last branch.
   */
  function Band(score: Option<real>): (s: Severity)
    ensures s != Info
    ensures s == Success <==> score.Some? && score.value >= 8.0
    ensures s == Warning <==> score.Some? && 5.0 <= score.value < 8.0
    ensures s == Error <==> score == None || score.value < 5.0
  {
    if score.Some? && score.value >= 8.0 then Success
    else if score.Some? && score.value >= 5.0 then Warning
    else Error
  }

  /** The word of each band that its message mentions. */
  function Keyword(s: Severity): string {
    match s
    case Success => "high"
    case Warning => "average"
    case Error => "low"
    case Info => ""
  }

  // The text after the name, split around the band's word.
  const HighSuffix := "! You have a " + "high" + " loyalty score!"
  const AverageSuffix := ", your loyalty score is " + "average" + ". Keep nurturing those relationships!"
  const LowSuffix := ", your loyalty score is " + "low" + ". Consider improving your connections."

  /**
   * `showToastMessage(loyaltyScore, relationshipName)`: the toast carries the
   * score's band and a message that names the relationship and the band's word.
   */
  function ShowToastMessage(score: Option<real>, name: string): (t: Toast)
    ensures t.severity == Band(score)
    ensures t.severity != Info
    ensures Contains(t.message, name)
    ensures Contains(t.message, Keyword(t.severity))
  {
    var severity := Band(score);
    var (prefix, suffix) :=
      match severity
      case Success => ("\U{1F389} Congratulations ", HighSuffix)
      case Warning => ("\U{1F642} ", AverageSuffix)
      case _ => ("\U{1F61F} Sorry ", LowSuffix);
    ContainsMiddle(prefix, name, suffix);
    KeywordInSuffix(severity, prefix, name, suffix);
    Toast(severity, prefix + name + suffix)
  }

  lemma KeywordInSuffix(severity: Severity, prefix: string, name: string, suffix: string)
    requires severity == Success ==> suffix == HighSuffix
    requires severity == Warning ==> suffix == AverageSuffix
    requires severity == Error ==> suffix == LowSuffix
    requires severity != Info
    ensures Contains(prefix + name + suffix, Keyword(severity))
  {
    if severity == Success {
      ContainsMiddle("! You have a ", "high", " loyalty score!");
    } else if severity == Warning {
      ContainsMiddle(", your loyalty score is ", "average", ". Keep nurturing those relationships!");
    } else {
      ContainsMiddle(", your loyalty score is ", "low", ". Consider improving your connections.");
    }
    ContainsInTail(prefix + name, suffix, Keyword(severity));
  }

  /** `toast.error(...)` after the request is rejected. */
  const FailureToast := Toast(Error, "Error predicting loyalty score. Please try again.")

  /**
   * Bands are ordered by score, and a missing score is classified like any
   * score below 5.
   */
  lemma BandMonotone(x: real, y: real)
    requires x <= y
    ensures Band(Some(x)) == Success ==> Band(Some(y)) == Success
    ensures Band(Some(y)) == Error ==> Band(Some(x)) == Error
    ensures Band(None) == Band(Some(x)) <==> x < 5.0
  {
  }
}
