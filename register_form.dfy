/** The four-step sign-up wizard: personal data, security, player profile
    and optional information. Each step checks its own group of fields
    before the wizard moves on; the last step submits the whole form. */
module RegisterForm {
  import opened Wrappers
  import opened Registration

  const LAST_STEP := 3

  /** The fields `validateStep` checks for each step; the optional last step
      and any other index check none. */
  function StepFields(step: int): (fs: seq<Field>)
    ensures step != 0 && step != 1 && step != 2 ==> fs == []
  {
    if step == 0 then [Name, Username, Email, Phone]
    else if step == 1 then [Password, PasswordConfirmation]
    else if step == 2 then [PlayerLevel, DominantHand]
    else []
  }

  predicate StepValid(v: RegistrationValues, step: int, isEmail: string -> bool)
  {
    forall i :: 0 <= i < |StepFields(step)| ==> !FieldInvalid(v, StepFields(step)[i], isEmail)
  }

  /** Passing the first three steps is passing the whole schema: the step
      groups hold every field the schema can reject. */
  lemma StepsCoverSchema(v: RegistrationValues, isEmail: string -> bool)
    ensures FormValid(v, isEmail) <==> StepValid(v, 0, isEmail) && StepValid(v, 1, isEmail) && StepValid(v, 2, isEmail)
  {
    if StepValid(v, 0, isEmail) && StepValid(v, 1, isEmail) && StepValid(v, 2, isEmail) {
      assert !FieldInvalid(v, StepFields(0)[0], isEmail) && !FieldInvalid(v, StepFields(0)[1], isEmail);
      assert !FieldInvalid(v, StepFields(0)[2], isEmail) && !FieldInvalid(v, StepFields(0)[3], isEmail);
      assert !FieldInvalid(v, StepFields(1)[0], isEmail) && !FieldInvalid(v, StepFields(1)[1], isEmail);
      assert !FieldInvalid(v, StepFields(2)[0], isEmail) && !FieldInvalid(v, StepFields(2)[1], isEmail);
      forall f ensures !FieldInvalid(v, f, isEmail) {
      }
    }
  }

  /** The steps 0 .. n-1. */
  function Prefix(n: nat): (s: set<int>)
    ensures forall k :: k in s <==> 0 <= k < n
  {
    if n == 0 then {} else Prefix(n - 1) + {n - 1}
  }

  lemma {:induction false} PrefixSize(n: nat)
    ensures |Prefix(n)| == n
  {
    if n > 0 {
      var below := Prefix(n - 1);
      PrefixSize(n - 1);
      assert n - 1 !in below;
      assert |below + {n - 1}| == |below| + 1;
    }
  }

  /** Every field, as formik touches them on submit. */
  const ALL_FIELDS: set<Field> := {Name, Username, Email, Password, PasswordConfirmation, Phone, PlayerLevel,
    DominantHand, ExperienceYears, HeightCm, WeightKg, City, Country, PlayingPosition, FavoriteRacket}

  class RegisterWizard {
    var values: RegistrationValues
    var activeStep: int
    /** The steps marked completed (the keys of the `completed` object). */
    var completed: set<int>
    var touched: set<Field>
    var loading: bool
    var error: Option<string>
    /** Whether `onRegisterSuccess` has been called. */
    var notified: bool
    /** How many steps, from the first, are completed. */
    ghost var done: nat

    /** The completed steps are always the first `done` ones, and the
        active step never lies beyond the first step not yet completed. */
    ghost predicate Valid()
      reads this
    {
      0 <= activeStep <= done <= LAST_STEP && completed == Prefix(done)
    }

    constructor ()
      ensures Valid() && values == EMPTY_VALUES && activeStep == 0 && completed == {}
      ensures touched == {} && !loading && error == None && !notified
    {
      values, activeStep, completed, touched := EMPTY_VALUES, 0, {}, {};
      loading, error, notified := false, None, false;
      done := 0;
    }

    predicate IsLastStep()
      reads this
    {
      activeStep == LAST_STEP
    }

    /** What the user typed. */
    method Edit(v: RegistrationValues)
      modifies this`values
      ensures values == v
    {
      values := v;
    }

    /** `validateStep`: touches the step's fields, then clears `isValid` for
        each of them the schema rejects. */
    method ValidateStep(step: int, isEmail: string -> bool) returns (isValid: bool)
      modifies this`touched
      ensures isValid <==> StepValid(values, step, isEmail)
      ensures touched == old(touched) + (set f | f in StepFields(step))
    {
      var fields := StepFields(step);
      if step != 0 && step != 1 && step != 2 {
        return true;
      }
      var i := 0;
      while i < |fields|
        invariant 0 <= i <= |fields|
        invariant touched == old(touched) + (set f | f in fields[..i])
      {
        assert fields[..i + 1] == fields[..i] + [fields[i]];
        touched := touched + {fields[i]};
        i := i + 1;
      }
      assert fields[..|fields|] == fields;
      isValid := true;
      i := 0;
      while i < |fields|
        invariant 0 <= i <= |fields|
        invariant isValid <==> forall j :: 0 <= j < i ==> !FieldInvalid(values, fields[j], isEmail)
      {
        if FieldInvalid(values, fields[i], isEmail) {
          isValid := false;
        }
        i := i + 1;
      }
    }

    /** formik's submit: every field is touched; only a form that passes the
        schema is sent, as `processedValues`. The registration outcome is
        `registerSucceeded`, the boolean the session's `register` returns. */
    method SubmitForm(isEmail: string -> bool, registerSucceeded: bool) returns (sent: Option<RegistrationRequest>)
      modifies this`touched, this`loading, this`error, this`notified
      ensures touched == old(touched) + ALL_FIELDS
      ensures sent.Some? ==> !loading
      ensures sent.Some? <==> FormValid(values, isEmail)
      ensures sent.Some? ==> sent.value == Processed(values)
      ensures sent.Some? && registerSucceeded ==> notified && error == None
      ensures sent.Some? && !registerSucceeded ==> notified == old(notified) && error == Some(REGISTER_REFUSED)
      ensures sent.None? ==> notified == old(notified) && error == old(error) && loading == old(loading)
    {
      touched := touched + ALL_FIELDS;
      if !FormValid(values, isEmail) {
        return None;
      }
      loading := true;
      error := None;
      sent := Some(Processed(values));
      if registerSucceeded {
        notified := true;
      } else {
        error := Some(REGISTER_REFUSED);
      }
      loading := false;
    }

    /** "Siguiente" (disabled while loading): when the step passes, either
        the form is submitted (last step) or the wizard moves one step on
        and marks the step it leaves completed. */
    method Next(isEmail: string -> bool, registerSucceeded: bool) returns (sent: Option<RegistrationRequest>)
      requires Valid() && !loading
      modifies this`touched, this`loading, this`error, this`notified, this`activeStep, this`completed, this`done
      ensures Valid() && values == old(values)
      ensures old(activeStep) != LAST_STEP && StepValid(values, old(activeStep), isEmail) ==>
        activeStep == old(activeStep) + 1 && completed == old(completed) + {old(activeStep)} && sent.None?
      ensures old(activeStep) != LAST_STEP && !StepValid(values, old(activeStep), isEmail) ==>
        activeStep == old(activeStep) && completed == old(completed) && sent.None?
      ensures old(activeStep) == LAST_STEP ==>
        activeStep == LAST_STEP && completed == old(completed) &&
        (sent.Some? <==> FormValid(values, isEmail)) && (sent.Some? ==> sent.value == Processed(values))
      ensures old(activeStep) == LAST_STEP && sent.Some? ==>
        (registerSucceeded ==> notified && error == None) && (!registerSucceeded ==> error == Some(REGISTER_REFUSED))
    {
      var ok := ValidateStep(activeStep, isEmail);
      sent := None;
      if ok {
        if activeStep == LAST_STEP {
          sent := SubmitForm(isEmail, registerSucceeded);
        } else {
          completed := completed + {activeStep};
          if activeStep == done {
            done := done + 1;
          }
          activeStep := activeStep + 1;
        }
      }
    }

    /** "Anterior" is disabled on the first step and while loading. */
    predicate BackEnabled()
      reads this
    {
      activeStep != 0 && !loading
    }

    method Back()
      requires Valid() && BackEnabled()
      modifies this`activeStep
      ensures Valid() && activeStep == old(activeStep) - 1
    {
      activeStep := activeStep - 1;
    }

    /** A click on one of the four step labels jumps there only when it is
        no further than the number of completed steps. */
    method StepClick(step: int)
      requires Valid() && 0 <= step <= LAST_STEP
      modifies this`activeStep
      ensures Valid()
      ensures step <= |completed| ==> activeStep == step
      ensures step > |completed| ==> activeStep == old(activeStep)
    {
      PrefixSize(done);
      if step <= |completed| {
        activeStep := step;
      }
    }
  }
}
