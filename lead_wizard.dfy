/** The lead wizard of src/components/leads/LeadWizard.jsx: six steps, each owning a
    few fields of the lead form, and a step index that only moves forward when the
    current step's fields pass validation. */
module LeadWizard {
  import opened Wrappers
  import opened Strings
  import opened ApiTypes
  import Formatters
  import LeadsApiService

  /** The form fields a step can own. */
  datatype Field = BusinessName | PhoneNumber | StreetNumber | StreetName | AptUnitBldg
                 | PostalCode | Source | SourceUrl | UploadedFile | Notes

  datatype Step = Step(id: string, fields: seq<Field>)

  /** `WIZARD_STEPS`, without titles and icons. */
  const WIZARD_STEPS: seq<Step> := [
    Step("business", [BusinessName]),
    Step("contact", [PhoneNumber]),
    Step("address", [StreetNumber, StreetName, AptUnitBldg, PostalCode]),
    Step("source", [Source, SourceUrl]),
    Step("documents", [UploadedFile, Notes]),
    Step("review", [])
  ]

  const LAST_STEP: nat := |WIZARD_STEPS| - 1

  /** The step that owns a field: every field belongs to exactly one step. */
  function StepOf(f: Field): (s: nat)
    ensures s < LAST_STEP && f in WIZARD_STEPS[s].fields
    ensures forall t :: 0 <= t < |WIZARD_STEPS| && t != s ==> f !in WIZARD_STEPS[t].fields
  {
    match f
    case BusinessName => 0
    case PhoneNumber => 1
    case StreetNumber | StreetName | AptUnitBldg | PostalCode => 2
    case Source | SourceUrl => 3
    case UploadedFile | Notes => 4
  }

  function FieldValue(form: LeadRequest, f: Field): string {
    match f
    case BusinessName => form.businessName
    case PhoneNumber => form.phoneNumber
    case StreetNumber => form.streetNumber
    case StreetName => form.streetName
    case AptUnitBldg => form.aptUnitBldg
    case PostalCode => form.postalCode
    case Source => form.source
    case SourceUrl => form.sourceUrl
    case UploadedFile => form.uploadedFile
    case Notes => form.notes
  }

  /** `{ ...prev, [field]: value }`. */
  function SetField(form: LeadRequest, f: Field, v: string): (r: LeadRequest)
    ensures FieldValue(r, f) == v
    ensures forall g :: g != f ==> FieldValue(r, g) == FieldValue(form, g)
    ensures r.status == form.status && r.vendorId == form.vendorId
  {
    match f
    case BusinessName => form.(businessName := v)
    case PhoneNumber => form.(phoneNumber := v)
    case StreetNumber => form.(streetNumber := v)
    case StreetName => form.(streetName := v)
    case AptUnitBldg => form.(aptUnitBldg := v)
    case PostalCode => form.(postalCode := v)
    case Source => form.(source := v)
    case SourceUrl => form.(sourceUrl := v)
    case UploadedFile => form.(uploadedFile := v)
    case Notes => form.(notes := v)
  }

  /** The message `validateCurrentStep` records for one field, if any. Required text
      fails when blank after `trim`; the phone number, street number and postal code
      must then also pass their validators; the source fails only when empty. */
  function FieldError(form: LeadRequest, f: Field): (r: Option<string>)
    ensures f in {AptUnitBldg, SourceUrl, UploadedFile, Notes} ==> r == None
  {
    var v := FieldValue(form, f);
    match f
    case BusinessName => if IsBlank(v) then Some("Business name is required") else None
    case PhoneNumber =>
      if IsBlank(v) then Some("Phone number is required")
      else if !Formatters.ValidatePhoneNumber(v) then Some("Please enter a valid Canadian phone number")
      else None
    case StreetNumber =>
      if IsBlank(v) then Some("Street number is required")
      else if !Formatters.ValidateStreetNumber(v) then Some("Street number must contain only numbers")
      else None
    case StreetName => if IsBlank(v) then Some("Street name is required") else None
    case PostalCode =>
      if IsBlank(v) then Some("Postal code is required")
      else if !Formatters.ValidatePostalCode(v) then Some("Please enter a valid Canadian postal code (e.g., A1A 1A1)")
      else None
    case Source => if v == "" then Some("Lead source is required") else None
    case _ => None
  }

  /** A string holding a digit or a letter is not blank. */
  lemma NotBlankAt(s: string, i: int)
    requires 0 <= i < |s| && IsAlnum(s[i])
    ensures !IsBlank(s)
  {
  }

  /** The blank checks are subsumed by the validators: the phone number, street number
      and postal code pass exactly when their validator accepts them, and a whitespace
      source passes. */
  lemma FieldErrorMeaning(form: LeadRequest)
    ensures FieldError(form, PhoneNumber) == None <==> Formatters.ValidatePhoneNumber(form.phoneNumber)
    ensures FieldError(form, StreetNumber) == None <==> Formatters.ValidateStreetNumber(form.streetNumber)
    ensures FieldError(form, PostalCode) == None <==> Formatters.ValidatePostalCode(form.postalCode)
    ensures FieldError(form, BusinessName) == None <==> !IsBlank(form.businessName)
    ensures FieldError(form, Source) == None <==> form.source != ""
  {
    if Formatters.ValidatePhoneNumber(form.phoneNumber) {
      ValidPhoneNotBlank(form.phoneNumber);
    }
    if Formatters.ValidateStreetNumber(form.streetNumber) {
      NotBlankAt(form.streetNumber, 0);
    }
    if Formatters.ValidatePostalCode(form.postalCode) {
      ValidPostalNotBlank(form.postalCode);
    }
  }

  /** A valid phone number holds a digit, so it is not blank. */
  lemma ValidPhoneNotBlank(p: string)
    requires Formatters.ValidatePhoneNumber(p)
    ensures !IsBlank(p)
  {
    var d := Digits(p);
    assert d[0] in p;
    var i :| 0 <= i < |p| && p[i] == d[0];
    NotBlankAt(p, i);
  }

  /** A valid postal code starts with a letter, so it is not blank. */
  lemma ValidPostalNotBlank(c: string)
    requires Formatters.ValidatePostalCode(c)
    ensures !IsBlank(c)
  {
    var u := Upper(c);
    assert u[..3][0] == u[0];
    assert IsUpper(u[0]) && u[0] == UpperChar(c[0]);
    NotBlankAt(c, 0);
  }

  /** The error map of one step: an entry for each of its fields that fails. */
  function StepErrors(form: LeadRequest, step: nat): (r: map<Field, string>)
    requires step < |WIZARD_STEPS|
    ensures forall f :: f in r <==> f in WIZARD_STEPS[step].fields && FieldError(form, f).Some?
  {
    map f | f in WIZARD_STEPS[step].fields && FieldError(form, f).Some? :: FieldError(form, f).value
  }

  /** A map holding exactly the failing fields of a step, each with its message, is
      that step's error map. */
  lemma CollectedStepErrors(form: LeadRequest, step: nat, m: map<Field, string>)
    requires step < |WIZARD_STEPS|
    requires forall f :: f in m <==> f in WIZARD_STEPS[step].fields && FieldError(form, f).Some?
    requires forall f :: f in m ==> m[f] == FieldError(form, f).value
    ensures m == StepErrors(form, step)
  {
  }

  /** `Object.keys(errors).length === 0` holds exactly for the empty map. */
  lemma EmptyMapHasNoKeys<K, V>(m: map<K, V>)
    ensures |m| == 0 <==> m == map[]
  {
    if |m| != 0 {
      var k :| k in m;
    }
  }

  /** Changing a field of one step leaves the errors of every other step as they were. */
  lemma StepErrorsOtherField(form: LeadRequest, f: Field, v: string, step: nat)
    requires step < |WIZARD_STEPS| && step != StepOf(f)
    ensures StepErrors(SetField(form, f, v), step) == StepErrors(form, step)
  {
    forall g | g in WIZARD_STEPS[step].fields
      ensures FieldError(SetField(form, f, v), g) == FieldError(form, g)
    {
      FieldErrorOtherField(form, f, v, g);
    }
  }

  /** Setting one field leaves the error of every other field as it was. */
  lemma FieldErrorOtherField(form: LeadRequest, f: Field, v: string, g: Field)
    requires g != f
    ensures FieldError(SetField(form, f, v), g) == FieldError(form, g)
  {
    assert FieldValue(SetField(form, f, v), g) == FieldValue(form, g);
  }

  /** The review step and the steps made only of optional fields never fail. */
  lemma OptionalStepsPass(form: LeadRequest)
    ensures StepErrors(form, 4) == map[] && StepErrors(form, LAST_STEP) == map[]
  {
    assert forall f :: f in WIZARD_STEPS[4].fields ==> FieldError(form, f) == None;
  }

  /** The wizard's state. The form of an edited lead carries the lead's id. */
  class Wizard {
    var currentStep: nat
    var form: LeadRequest
    var editId: Option<int>
    var isEdit: bool
    var selectedFile: Option<string>
    var validationErrors: map<Field, string>
    var submitError: Option<string>
    var isSubmitting: bool

    /** No submission is in flight between handlers, and every step before the current
      one passes its validation: the step index only moves past a step through a
      successful check, and only the current step's inputs are on screen. */
    predicate Valid()
      reads this
    {
      && currentStep <= LAST_STEP && !isSubmitting
      && forall s :: 0 <= s < currentStep ==> StepErrors(form, s) == map[]
    }

    /** `initialData || { ...defaultLeadRequest }` at step 0. */
    constructor(initialData: Option<LeadRequest>, editId: Option<int>, isEdit: bool)
      ensures Valid() && currentStep == 0
      ensures form == initialData.GetOr(DefaultLeadRequest())
      ensures this.editId == editId && this.isEdit == isEdit
      ensures selectedFile == None && validationErrors == map[] && submitError == None && !isSubmitting
    {
      currentStep := 0;
      form := initialData.GetOr(DefaultLeadRequest());
      this.editId := editId;
      this.isEdit := isEdit;
      selectedFile := None;
      validationErrors := map[];
      submitError := None;
      isSubmitting := false;
    }

    /** `validateCurrentStep`: collects the failing fields of the current step, one
      field at a time, and replaces the shown errors with exactly that map. */
    method ValidateCurrentStep() returns (ok: bool)
      requires Valid()
      modifies this`validationErrors
      ensures Valid()
      ensures validationErrors == StepErrors(form, currentStep)
      ensures ok <==> validationErrors == map[]
    {
      var fields := WIZARD_STEPS[currentStep].fields;
      var stepErrors: map<Field, string> := map[];
      var i := 0;
      while i < |fields|
        invariant 0 <= i <= |fields|
        invariant forall f :: f in stepErrors <==> f in fields[..i] && FieldError(form, f).Some?
        invariant forall f :: f in stepErrors ==> stepErrors[f] == FieldError(form, f).value
      {
        var e := FieldError(form, fields[i]);
        if e.Some? {
          stepErrors := stepErrors[fields[i] := e.value];
        }
        assert fields[..i + 1] == fields[..i] + [fields[i]];
        i := i + 1;
      }
      assert fields[..i] == fields;
      CollectedStepErrors(form, currentStep, stepErrors);
      validationErrors := stepErrors;
      ok := |stepErrors| == 0;
      EmptyMapHasNoKeys(stepErrors);
    }

    /** `handleInputChange`: one field of the current step takes the value, and only
      that field's shown error is cleared. */
    method HandleInputChange(f: Field, v: string)
      requires Valid() && f in WIZARD_STEPS[currentStep].fields
      modifies this`form, this`validationErrors
      ensures Valid()
      ensures form == SetField(old(form), f, v)
      ensures validationErrors == old(validationErrors) - {f}
    {
      forall s | 0 <= s < currentStep
        ensures StepErrors(SetField(form, f, v), s) == StepErrors(form, s)
      {
        StepErrorsOtherField(form, f, v, s);
      }
      form := SetField(form, f, v);
      validationErrors := validationErrors - {f};
    }

    /** `handleFileChange`: the chosen file is kept and, when there is one, its name
      is written to the form. */
    method HandleFileChange(file: Option<string>)
      requires Valid() && UploadedFile in WIZARD_STEPS[currentStep].fields
      modifies this`form, this`validationErrors, this`selectedFile
      ensures Valid() && selectedFile == file
      ensures file.Some? ==> (form == SetField(old(form), UploadedFile, file.value)
                              && validationErrors == old(validationErrors) - {UploadedFile})
      ensures file.None? ==> form == old(form) && validationErrors == old(validationErrors)
    {
      selectedFile := file;
      if file.Some? {
        HandleInputChange(UploadedFile, file.value);
      }
    }

    /** `handleNext`: one step forward, capped at the review step, only when the current
      step passes. */
    method HandleNext()
      requires Valid()
      modifies this`currentStep, this`validationErrors
      ensures Valid()
      ensures validationErrors == StepErrors(form, old(currentStep))
      ensures currentStep == if validationErrors == map[] then Formatters.Min(old(currentStep) + 1, LAST_STEP)
                             else old(currentStep)
    {
      var ok := ValidateCurrentStep();
      if ok {
        currentStep := Formatters.Min(currentStep + 1, LAST_STEP);
      }
    }

    /** `handlePrevious`: one step back, never below the first, with no validation. */
    method HandlePrevious()
      requires Valid()
      modifies this`currentStep
      ensures Valid()
      ensures currentStep == if old(currentStep) == 0 then 0 else old(currentStep) - 1
    {
      if currentStep > 0 {
        currentStep := currentStep - 1;
      }
    }

    /** `handleSubmit`: after the current step passes, an edit updates the lead with the
      form's id and a new lead is created otherwise. The created or updated lead is
      returned; on failure the message is kept and the wizard stays where it is. */
    method HandleSubmit(store: LeadsApiService.LeadsApiStore, newId: int, now: string)
      returns (result: Option<Lead>)
      requires Valid()
      modifies this`validationErrors, this`submitError, this`isSubmitting, store
      ensures Valid() && currentStep == old(currentStep)
      ensures validationErrors == StepErrors(form, currentStep)
      ensures validationErrors != map[] ==> result == None && submitError == old(submitError)
                                            && store.leads == old(store.leads)
      ensures validationErrors == map[] && !isEdit ==>
                result == Some(LeadsApiService.NewLead(form, newId, now, selectedFile))
                && submitError == None && store.leads == [result.value] + old(store.leads)
      ensures validationErrors == map[] && isEdit ==>
                var i := if editId.Some? then LeadsApiService.IndexOf(old(store.leads), editId.value) else -1;
                && (i == -1 ==> result == None && submitError == Some(LeadsApiService.LEAD_NOT_FOUND)
                                && store.leads == old(store.leads))
                && (i >= 0 ==> result == Some(LeadsApiService.MergeLead(old(store.leads)[i], form, now, selectedFile))
                               && submitError == None && store.leads == old(store.leads)[i := result.value])
    {
      var ok := ValidateCurrentStep();
      if !ok {
        return None;
      }
      isSubmitting := true;
      submitError := None;
      if isEdit {
        if editId.None? {
          submitError := Some(LeadsApiService.LEAD_NOT_FOUND);
          result := None;
        } else {
          var r := store.UpdateLead(editId.value, form, selectedFile, now);
          if r.Success? {
            result := Some(r.value);
          } else {
            submitError := Some(r.error);
            result := None;
          }
        }
      } else {
        var lead := store.CreateLead(form, selectedFile, newId, now);
        result := Some(lead);
      }
      isSubmitting := false;
    }
  }

  /** A wizard on the review step has a form in which every step passes: it can be
      submitted. */
  lemma ReviewStepFormComplete(form: LeadRequest)
    requires forall s :: 0 <= s < LAST_STEP ==> StepErrors(form, s) == map[]
    ensures forall f :: FieldError(form, f) == None
  {
    forall f: Field
      ensures FieldError(form, f) == None
    {
      var s := StepOf(f);
      assert f !in StepErrors(form, s);
    }
  }
}
