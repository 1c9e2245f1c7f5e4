/**
 * The add-wage-increment form of a staff member: the increment amount, the field validation and
 * the payload sent. Wages are whole rupees; a wage is `None` when its input is empty or the
 * current wage is absent, which `parseFloat` turns into NaN.
 */
module WageIncrementForm {
  import opened Wrappers
  import opened Text

  /** The keys of the `errors` map. */
  datatype Field = NewWageField | EffectiveDateField | ReasonField

  const ValidWageRequired := "Valid new wage is required"
  const WageMustRise := "New wage must be higher than current wage"
  const EffectiveDateRequired := "Effective date is required"
  const ReasonRequired := "Reason is required"

  /** A parsed wage is truthy: a number, and not zero. */
  predicate Truthy(wage: Option<int>) {
    wage.Some? && wage.value != 0
  }

  /** `calculateIncrement`'s amount: the difference when both wages are truthy, otherwise 0. */
  function CalculateIncrement(newWage: Option<int>, oldWage: Option<int>): (amount: int)
    ensures Truthy(newWage) && Truthy(oldWage) ==> amount + oldWage.value == newWage.value
    ensures !(Truthy(newWage) && Truthy(oldWage)) ==> amount == 0
  {
    if Truthy(newWage) && Truthy(oldWage) then newWage.value - oldWage.value else 0
  }

  /** The first new-wage check: an empty input, or a wage that is not positive. */
  predicate WageMissingOrNonPositive(newWage: Option<int>) {
    newWage.None? || newWage.value <= 0
  }

  /** The second new-wage check; any comparison with NaN is false. */
  predicate WageNotRaised(newWage: Option<int>, currentWage: Option<int>) {
    newWage.Some? && currentWage.Some? && newWage.value <= currentWage.value
  }

  /** The successive conditional writes of `validateForm`, given the outcome of each check. */
  function ErrorsFor(wageMissing: bool, wageNotRaised: bool, dateMissing: bool, reasonBlank: bool): map<Field, string>
  {
    var e0: map<Field, string> := map[];
    var e1 := if wageMissing then e0[NewWageField := ValidWageRequired] else e0;
    var e2 := if wageNotRaised then e1[NewWageField := WageMustRise] else e1;
    var e3 := if dateMissing then e2[EffectiveDateField := EffectiveDateRequired] else e2;
    if reasonBlank then e3[ReasonField := ReasonRequired] else e3
  }

  /** Builds `newErrors` by the successive conditional writes of `validateForm`. */
  method CollectErrors(wageMissing: bool, wageNotRaised: bool, dateMissing: bool, reasonBlank: bool)
    returns (newErrors: map<Field, string>)
    ensures newErrors == ErrorsFor(wageMissing, wageNotRaised, dateMissing, reasonBlank)
  {
    newErrors := map[];
    if wageMissing {
      newErrors := newErrors[NewWageField := ValidWageRequired];
    }
    if wageNotRaised {
      newErrors := newErrors[NewWageField := WageMustRise];
    }
    if dateMissing {
      newErrors := newErrors[EffectiveDateField := EffectiveDateRequired];
    }
    if reasonBlank {
      newErrors := newErrors[ReasonField := ReasonRequired];
    }
  }

  /**
   * The `newErrors` map `validateForm` builds. Its reason check, `!reason.trim()`, holds exactly
   * for a blank reason, so it is written `Blank(reason)` here and in `ValidateForm`.
   */
  function FormErrors(newWage: Option<int>, currentWage: Option<int>, effectiveDate: string, reason: string): (errors: map<Field, string>)
    ensures NewWageField in errors <==> WageMissingOrNonPositive(newWage) || WageNotRaised(newWage, currentWage)
    ensures NewWageField in errors ==>
      errors[NewWageField] == if WageNotRaised(newWage, currentWage) then WageMustRise else ValidWageRequired
    ensures EffectiveDateField in errors <==> effectiveDate == ""
    ensures EffectiveDateField in errors ==> errors[EffectiveDateField] == EffectiveDateRequired
    ensures ReasonField in errors <==> Blank(reason)
    ensures ReasonField in errors <==> Trim(reason) == ""
    ensures ReasonField in errors ==> errors[ReasonField] == ReasonRequired
  {
    ErrorsFor(WageMissingOrNonPositive(newWage), WageNotRaised(newWage, currentWage), effectiveDate == "", Blank(reason))
  }

  /** The form passes exactly when every field is acceptable. */
  lemma ValidIff(newWage: Option<int>, currentWage: Option<int>, effectiveDate: string, reason: string)
    ensures FormErrors(newWage, currentWage, effectiveDate, reason) == map[] <==>
      && newWage.Some? && newWage.value > 0
      && (currentWage.None? || newWage.value > currentWage.value)
      && effectiveDate != ""
      && !Blank(reason)
  {
    var errors := FormErrors(newWage, currentWage, effectiveDate, reason);
    if errors != map[] {
      var k :| k in errors;
      assert k == NewWageField || k == EffectiveDateField || k == ReasonField;
    }
  }

  /** An accepted form against a known current wage is a strict raise, and records a positive increment when that wage is not zero. */
  lemma AcceptedIsStrictRaise(newWage: Option<int>, currentWage: Option<int>, effectiveDate: string, reason: string)
    requires FormErrors(newWage, currentWage, effectiveDate, reason) == map[]
    requires currentWage.Some?
    ensures newWage.Some? && newWage.value > currentWage.value
    ensures currentWage.value != 0 ==> CalculateIncrement(newWage, currentWage) > 0
  {
    ValidIff(newWage, currentWage, effectiveDate, reason);
  }

  /** A raise from a current wage of zero is accepted but records an increment of 0. */
  lemma RaiseFromZeroRecordsNoIncrement(newWage: int)
    requires newWage > 0
    ensures FormErrors(Some(newWage), Some(0), "2024-01-01", "promotion") == map[]
    ensures CalculateIncrement(Some(newWage), Some(0)) == 0
  {
    assert !IsSpace('p');
    assert Trim("promotion") != "" by {
      assert !Blank("promotion") by { assert !IsSpace("promotion"[0]); }
    }
    ValidIff(Some(newWage), Some(0), "2024-01-01", "promotion");
  }

  /** Without a current wage the raise check never fires, so any positive wage is accepted. */
  lemma MissingCurrentWageSkipsRaiseCheck(newWage: Option<int>, effectiveDate: string, reason: string)
    ensures NewWageField in FormErrors(newWage, None, effectiveDate, reason) <==> WageMissingOrNonPositive(newWage)
    ensures NewWageField in FormErrors(newWage, None, effectiveDate, reason) ==>
      FormErrors(newWage, None, effectiveDate, reason)[NewWageField] == ValidWageRequired
  {
  }

  /** The request body: the form fields, the new wage as a number, the previous wage and the increment. */
  datatype Payload = Payload(newWage: int, effectiveDate: string, reason: string, previousWage: Option<int>, incrementAmount: int)

  /** The form's state; `currentWage` is the prop it was opened with. */
  class WageIncrementForm {
    const currentWage: Option<int>
    var newWage: Option<int>
    var effectiveDate: string
    var reason: string
    var errors: map<Field, string>
    var submitError: Option<string>

    /** An empty wage and reason, the effective date set to today (supplied by the caller), no errors. */
    constructor (currentWage: Option<int>, today: string)
      ensures this.currentWage == currentWage && newWage.None? && effectiveDate == today && reason == ""
      ensures errors == map[] && submitError.None?
    {
      this.currentWage := currentWage;
      newWage := None;
      effectiveDate := today;
      reason := "";
      errors := map[];
      submitError := None;
    }

    /** The three inputs' `onChange`. */
    method SetNewWage(value: Option<int>)
      modifies this
      ensures newWage == value && effectiveDate == old(effectiveDate) && reason == old(reason) && errors == old(errors)
      ensures submitError == old(submitError)
    {
      newWage := value;
    }

    method SetEffectiveDate(value: string)
      modifies this
      ensures effectiveDate == value && newWage == old(newWage) && reason == old(reason) && errors == old(errors)
      ensures submitError == old(submitError)
    {
      effectiveDate := value;
    }

    method SetReason(value: string)
      modifies this
      ensures reason == value && newWage == old(newWage) && effectiveDate == old(effectiveDate) && errors == old(errors)
      ensures submitError == old(submitError)
    {
      reason := value;
    }

    /** `validateForm`: records the errors and reports whether there are none. */
    method ValidateForm() returns (valid: bool)
      modifies this
      ensures errors == FormErrors(newWage, currentWage, effectiveDate, reason)
      ensures valid <==> errors == map[]
      ensures newWage == old(newWage) && effectiveDate == old(effectiveDate) && reason == old(reason)
      ensures submitError == old(submitError)
    {
      var newErrors := CollectErrors(WageMissingOrNonPositive(newWage), WageNotRaised(newWage, currentWage),
                                     effectiveDate == "", Blank(reason));
      errors := newErrors;
      valid := newErrors.Keys == {};  // no key was written
    }

    /** `handleSubmit`: clears the submit error, validates, and builds the payload only for a valid form. */
    method HandleSubmit() returns (payload: Option<Payload>)
      modifies this
      ensures errors == FormErrors(newWage, currentWage, effectiveDate, reason)
      ensures payload.Some? <==> errors == map[]
      ensures payload.Some? ==> payload.value == Payload(newWage.value, effectiveDate, reason, currentWage, CalculateIncrement(newWage, currentWage))
      ensures payload.Some? && currentWage.Some? ==> payload.value.newWage > currentWage.value
      ensures newWage == old(newWage) && effectiveDate == old(effectiveDate) && reason == old(reason)
      ensures submitError.None?
    {
      submitError := None;
      var valid := ValidateForm();
      if !valid {
        return None;
      }
      ValidIff(newWage, currentWage, effectiveDate, reason);
      payload := Some(Payload(newWage.value, effectiveDate, reason, currentWage, CalculateIncrement(newWage, currentWage)));
    }

    /**
     * The server's answer: success closes the form; a failure shows the hook's message, or the
     * fallback when there is none or it is empty (`error?.message || ...`).
     */
    method ReceiveResult(success: bool, hookMessage: Option<string>) returns (closed: bool)
      modifies this
      ensures closed <==> success
      ensures success ==> submitError == old(submitError)
      ensures !success ==> submitError == Some(if hookMessage.Some? && hookMessage.value != "" then hookMessage.value else "Failed to add wage increment")
      ensures newWage == old(newWage) && effectiveDate == old(effectiveDate) && reason == old(reason) && errors == old(errors)
    {
      closed := success;
      if !success {
        submitError := Some(if hookMessage.Some? && hookMessage.value != "" then hookMessage.value else "Failed to add wage increment");
      }
    }
  }
}
