/**
 * `validateInput` of the validated PredictLoyalty page: every field is
 * checked on its own and contributes one error message when it fails.
 */
module Validation {
  import opened Wrappers
  import opened JsString
  import opened Form

  /** The message stored under each key of the error object. */
  function ErrorText(f: Field): string {
    match f
    case Frequency => "Frequency of Communication must be a positive number."
    case Help => "Help in Crises must be a positive number."
    case Financial => "Financial Support Provided must be a positive number."
    case Attendance => "Attendance at Events must be a percentage (0-100)."
    case Sentiment => "Sentiment Score must be between 1 and 10."
    case Name => "Relationship Name cannot be empty."
  }

  /** Non-empty text (so truthy, even "0") that coerces to a number greater than zero. */
  predicate Positive(s: string, parse: Coercion) {
    s != "" && parse(s).Some? && parse(s).value > 0.0
  }

  /** Non-empty text that coerces to a number in the closed interval [lo, hi]. */
  predicate Within(s: string, parse: Coercion, lo: real, hi: real) {
    s != "" && parse(s).Some? && lo <= parse(s).value <= hi
  }

  /** The rule field `f` must satisfy for its value `s` to be accepted. */
  predicate Accepts(f: Field, s: string, parse: Coercion) {
    match f
    case Frequency | Help | Financial => Positive(s, parse)
    case Attendance => Within(s, parse, 0.0, 100.0)
    case Sentiment => Within(s, parse, 1.0, 10.0)
    case Name => !Blank(s)
  }

  /** Every field of `d` satisfies its rule. */
  predicate Valid(d: FormData, parse: Coercion) {
    forall f :: Accepts(f, d.Get(f), parse)
  }

  /** `!s || isNaN(s) || s <= 0` */
  predicate NotPositive(s: string, parse: Coercion) {
    s == "" || parse(s).None? || parse(s).value <= 0.0
  }

  /** `!s || isNaN(s) || s < lo || s > hi` */
  predicate OutOfRange(s: string, parse: Coercion, lo: real, hi: real) {
    s == "" || parse(s).None? || parse(s).value < lo || parse(s).value > hi
  }

  /** The condition of the `if` that guards field `f`'s error, as the page writes it. */
  predicate Fails(f: Field, s: string, parse: Coercion) {
    match f
    case Frequency | Help | Financial => NotPositive(s, parse)
    case Attendance => OutOfRange(s, parse, 0.0, 100.0)
    case Sentiment => OutOfRange(s, parse, 1.0, 10.0)
    case Name => s == "" || Trim(s) == ""
  }

  /** Each guard is the exact negation of its field's rule. */
  lemma FailsIffRejected(f: Field, s: string, parse: Coercion)
    ensures Fails(f, s, parse) <==> !Accepts(f, s, parse)
  {
  }

  /** Every key present carries its own field's message. */
  predicate Messages(errors: map<Field, string>) {
    forall g :: g in errors ==> errors[g] == ErrorText(g)
  }

  /** `if (Fails(f, data[f])) { errors[f] = message }` */
  function Check(errors: map<Field, string>, f: Field, d: FormData, parse: Coercion): (r: map<Field, string>)
    requires Messages(errors)
    ensures Messages(r)
    ensures forall g :: g in r <==> g in errors || (g == f && Fails(f, d.Get(f), parse))
  {
    if Fails(f, d.Get(f), parse) then errors[f := ErrorText(f)] else errors
  }

  /**
   * `validateInput(data)`: a field is a key of the result exactly when its own
   * rule rejects its value, and then it carries that field's message.
   */
  function Validate(d: FormData, parse: Coercion): (errors: map<Field, string>)
    ensures forall f :: f in errors <==> !Accepts(f, d.Get(f), parse)
    ensures forall f :: f in errors ==> errors[f] == ErrorText(f)
  {
    var e1 := Check(map[], Frequency, d, parse);
    var e2 := Check(e1, Help, d, parse);
    var e3 := Check(e2, Financial, d, parse);
    var e4 := Check(e3, Attendance, d, parse);
    var e5 := Check(e4, Sentiment, d, parse);
    var e6 := Check(e5, Name, d, parse);
    assert forall f :: f in e6 <==> Fails(f, d.Get(f), parse);
    forall f ensures Fails(f, d.Get(f), parse) <==> !Accepts(f, d.Get(f), parse) {
      FailsIffRejected(f, d.Get(f), parse);
    }
    e6
  }

  /** The error object is empty exactly when all six rules pass. */
  lemma ValidateEmptyIffValid(d: FormData, parse: Coercion)
    ensures Validate(d, parse) == map[] <==> Valid(d, parse)
  {
    var errors := Validate(d, parse);
    if !Valid(d, parse) {
      var f :| !Accepts(f, d.Get(f), parse);
      assert f in errors;
    }
  }

  /**
   * Editing one field never adds or removes another field's error, nor
   * changes its message.
   */
  lemma ValidateIsLocal(d: FormData, f: Field, v: string, parse: Coercion)
    ensures forall g :: g != f ==>
      (g in Validate(d, parse) <==> g in Validate(d.With(f, v), parse))
    ensures Validate(d.With(f, v), parse) - {f} == Validate(d, parse) - {f}
  {
    var before, after := Validate(d, parse), Validate(d.With(f, v), parse);
    forall g | g != f ensures g in before <==> g in after {
      assert d.With(f, v).Get(g) == d.Get(g);
    }
    SameKeysSameMap(after - {f}, before - {f});
  }

  /** Two error objects with the same keys are equal, since every key carries its own message. */
  lemma SameKeysSameMap(a: map<Field, string>, b: map<Field, string>)
    requires Messages(a) && Messages(b)
    requires forall g :: g in a <==> g in b
    ensures a == b
  {
    assert a.Keys == b.Keys;
  }

  /**
   * Frequency, Help and Financial: rejected when empty, not a number or at
   * most zero (zero itself included); accepted for any positive number.
   */
  lemma PositiveFieldRule(d: FormData, f: Field, parse: Coercion)
    requires f == Frequency || f == Help || f == Financial
    ensures d.Get(f) == "" ==> f in Validate(d, parse)
    ensures parse(d.Get(f)) == None ==> f in Validate(d, parse)
    ensures parse(d.Get(f)) == Some(0.0) ==> f in Validate(d, parse)
    ensures forall x :: parse(d.Get(f)) == Some(x) && x < 0.0 ==> f in Validate(d, parse)
    ensures forall x :: d.Get(f) != "" && parse(d.Get(f)) == Some(x) && x > 0.0 ==>
      f !in Validate(d, parse)
  {
  }

  /**
   * Attendance: a number is accepted exactly when it lies in [0, 100], both
   * edges included; text, empty or not numeric, is rejected.
   */
  lemma AttendanceRule(d: FormData, parse: Coercion, x: real)
    requires d.attendance != "" && parse(d.attendance) == Some(x)
    ensures Attendance !in Validate(d, parse) <==> 0.0 <= x <= 100.0
  {
  }

  /**
   * "0" is a non-empty, hence truthy, string: it gets past the emptiness test,
   * so an attendance of zero is accepted while the three positive fields
   * still reject it.
   */
  lemma ZeroTextPassesEmptinessTest(d: FormData, parse: Coercion)
    requires parse("0") == Some(0.0)
    requires d.attendance == "0" && d.frequency == "0"
    ensures Attendance !in Validate(d, parse)
    ensures Frequency in Validate(d, parse)
  {
  }

  /** Sentiment: a number is accepted exactly when it lies in [1, 10], both edges included. */
  lemma SentimentRule(d: FormData, parse: Coercion, x: real)
    requires d.sentiment != "" && parse(d.sentiment) == Some(x)
    ensures Sentiment !in Validate(d, parse) <==> 1.0 <= x <= 10.0
  {
  }

  /** Empty and non-numeric text fail both range rules. */
  lemma RangeFieldsRejectNonNumbers(d: FormData, parse: Coercion)
    ensures d.attendance == "" || parse(d.attendance) == None ==> Attendance in Validate(d, parse)
    ensures d.sentiment == "" || parse(d.sentiment) == None ==> Sentiment in Validate(d, parse)
  {
  }

  /** The name error is present exactly when every character of the name is whitespace. */
  lemma NameRule(d: FormData, parse: Coercion)
    ensures Name in Validate(d, parse) <==> forall i :: 0 <= i < |d.name| ==> IsWhitespace(d.name[i])
  {
  }

  /**
   * A field whose rule fails, in a record whose other fields all pass,
   * produces that field's error and no other.
   */
  lemma SingleFailure(d: FormData, f: Field, parse: Coercion)
    requires !Accepts(f, d.Get(f), parse)
    requires forall g :: g != f ==> Accepts(g, d.Get(g), parse)
    ensures Validate(d, parse) == map[f := ErrorText(f)]
  {
    var errors := Validate(d, parse);
    assert forall g :: g in errors <==> g == f;
    SingletonMap(errors, f, ErrorText(f));
  }

  lemma SingletonMap(m: map<Field, string>, f: Field, x: string)
    requires forall g :: g in m <==> g == f
    requires f in m && m[f] == x
    ensures m == map[f := x]
  {
    assert m.Keys == {f};
  }

  /** The reset (all-empty) form fails every one of the six rules. */
  lemma EmptyFormFailsEveryRule(parse: Coercion)
    ensures forall f :: f in Validate(Empty, parse)
  {
    forall f ensures f in Validate(Empty, parse) {
      assert Empty.Get(f) == "";
    }
  }
}
