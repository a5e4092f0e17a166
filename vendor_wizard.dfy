/** The lead-to-vendor wizard of src/components/vendors/VendorWizard.jsx. Without a
    lead id in the address the wizard opens on a list of contacted leads to pick from;
    with one, it loads that lead and starts on its contact step. Picking a lead fills
    the vendor draft from it. */
module VendorWizard {
  import opened Wrappers
  import opened Strings
  import opened ApiTypes
  import LeadsApiService
  import VendorsApiService

  /** The fields a form step shows. */
  datatype Field = LegalName | BusinessName | Email | PhoneNumber | StreetNumber
                 | StreetName | AptUnitBldg | PostalCode | Status

  datatype Step = Step(id: string, fields: seq<Field>)

  const BUSINESS := Step("business", [LegalName, BusinessName])
  const CONTACT := Step("contact", [Email, PhoneNumber])
  const ADDRESS := Step("address", [StreetNumber, StreetName, AptUnitBldg, PostalCode])
  const REVIEW := Step("review", [Status])
  const SELECT_LEAD := Step("select-lead", [])

  /** `getSteps`: the lead-picking step comes first only when no lead id was given. */
  function GetSteps(hasLeadId: bool): (r: seq<Step>)
    ensures |r| == if hasLeadId then 4 else 5
    ensures r[|r| - 1] == REVIEW
    ensures hasLeadId ==> r[1] == CONTACT
    ensures !hasLeadId ==> r[0] == SELECT_LEAD
  {
    if hasLeadId then [BUSINESS, CONTACT, ADDRESS, REVIEW]
    else [SELECT_LEAD, BUSINESS, CONTACT, ADDRESS, REVIEW]
  }

  /** Without a lead id the wizard is the same list behind one extra first step, and
      step `k` of the short list is step `k + 1` of the long one. */
  lemma GetStepsShift(k: nat)
    requires k < 4
    ensures GetSteps(false)[k + 1] == GetSteps(true)[k]
    ensures GetSteps(false)[1..] == GetSteps(true)
  {
  }

  function FieldValue(form: VendorRequest, f: Field): string {
    match f
    case LegalName => form.legalName
    case BusinessName => form.businessName
    case Email => form.email
    case PhoneNumber => form.phoneNumber
    case StreetNumber => form.streetNumber
    case StreetName => form.streetName
    case AptUnitBldg => form.aptUnitBldg
    case PostalCode => form.postalCode
    case Status => form.status
  }

  /** `setFormData({ ...formData, [field]: value })` from one input. */
  function SetField(form: VendorRequest, f: Field, v: string): (r: VendorRequest)
    ensures FieldValue(r, f) == v && r.leadId == form.leadId
    ensures forall g :: g != f ==> FieldValue(r, g) == FieldValue(form, g)
  {
    match f
    case LegalName => form.(legalName := v)
    case BusinessName => form.(businessName := v)
    case Email => form.(email := v)
    case PhoneNumber => form.(phoneNumber := v)
    case StreetNumber => form.(streetNumber := v)
    case StreetName => form.(streetName := v)
    case AptUnitBldg => form.(aptUnitBldg := v)
    case PostalCode => form.(postalCode := v)
    case Status => form.(status := v)
  }

  /** The vendor draft made from a lead: both names from the business name, the
      address and phone number copied, no e-mail, active. */
  function LeadDraft(form: VendorRequest, lead: Lead): (r: VendorRequest)
    ensures r.leadId == Some(lead.id)
    ensures r.legalName == r.businessName == lead.businessName
    ensures r.streetNumber == lead.streetNumber && r.streetName == lead.streetName
    ensures r.aptUnitBldg == lead.aptUnitBldg && r.postalCode == lead.postalCode
    ensures r.phoneNumber == lead.phoneNumber && r.email == "" && r.status == ACTIVE
  {
    form.(leadId := Some(lead.id), legalName := lead.businessName,
          businessName := lead.businessName, streetNumber := lead.streetNumber,
          streetName := lead.streetName, aptUnitBldg := lead.aptUnitBldg,
          postalCode := lead.postalCode, email := "", phoneNumber := lead.phoneNumber,
          status := ACTIVE)
  }

  /** The fields a step requires to be non-blank; the apartment is optional. */
  function RequiredFields(stepId: string): (r: seq<Field>)
    ensures AptUnitBldg !in r && Status !in r
    ensures stepId == "contact" ==> Email in r && PhoneNumber in r
    ensures stepId == "address" ==> StreetNumber in r && StreetName in r && PostalCode in r
  {
    if stepId == "business" then [LegalName, BusinessName]
    else if stepId == "contact" then [Email, PhoneNumber]
    else if stepId == "address" then [StreetNumber, StreetName, PostalCode]
    else []
  }

  /** `isStepValid`: every required field of the step is non-blank after `trim`. */
  predicate IsStepValid(form: VendorRequest, stepId: string) {
    forall f :: f in RequiredFields(stepId) ==> !IsBlank(FieldValue(form, f))
  }

  /** A draft made from a lead never passes the contact step: its e-mail is empty. The
      business step passes exactly when the lead's business name is not blank. */
  lemma DraftStepValidity(form: VendorRequest, lead: Lead)
    ensures !IsStepValid(LeadDraft(form, lead), "contact")
    ensures IsStepValid(LeadDraft(form, lead), "business") <==> !IsBlank(lead.businessName)
  {
    assert Email in RequiredFields("contact");
    var d := LeadDraft(form, lead);
    assert RequiredFields("business") == [LegalName, BusinessName];
    assert FieldValue(d, LegalName) == lead.businessName && FieldValue(d, BusinessName) == lead.businessName;
    if !IsBlank(lead.businessName) {
      assert forall f :: f in RequiredFields("business") ==> f == LegalName || f == BusinessName;
    }
  }

  /** Every step but the three form steps requires nothing. */
  lemma OtherStepsValid(form: VendorRequest, stepId: string)
    requires stepId != "business" && stepId != "contact" && stepId != "address"
    ensures RequiredFields(stepId) == [] && IsStepValid(form, stepId)
  {
  }

  /** Each required field belongs to its own step's inputs. */
  lemma RequiredAreShown(hasLeadId: bool, k: nat)
    requires k < |GetSteps(hasLeadId)|
    ensures forall f :: f in RequiredFields(GetSteps(hasLeadId)[k].id) ==> f in GetSteps(hasLeadId)[k].fields
  {
  }

  /** The inputs a step renders: the review step returns its summary before the field
      inputs, so its `status` select is never shown. */
  function ShownFields(s: Step): (r: seq<Field>)
    ensures s.id == "review" ==> r == []
    ensures forall f :: f in r ==> f in s.fields
  {
    if s.id == "review" then [] else s.fields
  }

  /** No step of either list shows the status input. */
  lemma StatusNeverShown(hasLeadId: bool, k: nat)
    requires k < |GetSteps(hasLeadId)|
    ensures Status !in ShownFields(GetSteps(hasLeadId)[k])
  {
  }

  /** An input shown on one step is required by no other step of the same list. */
  lemma ShownOnOneStepOnly(hasLeadId: bool, j: nat, k: nat, f: Field)
    requires j < |GetSteps(hasLeadId)| && k < |GetSteps(hasLeadId)| && j != k
    requires f in ShownFields(GetSteps(hasLeadId)[j])
    ensures f !in RequiredFields(GetSteps(hasLeadId)[k].id)
  {
  }

  /** Changing a field a step does not require leaves its validity as it was. */
  lemma StepValidFrame(form: VendorRequest, f: Field, v: string, stepId: string)
    requires f !in RequiredFields(stepId)
    ensures IsStepValid(SetField(form, f, v), stepId) == IsStepValid(form, stepId)
  {
    var r := SetField(form, f, v);
    assert forall g :: g in RequiredFields(stepId) ==> FieldValue(r, g) == FieldValue(form, g);
  }

  /** The page size of the lead list. */
  const PAGE_SIZE: nat := 5

  /** The query `fetchLeads` sends. */
  function CandidateQuery(searchTerm: string, currentPage: nat): LeadsApiService.LeadQuery {
    LeadsApiService.LeadQuery(None, Some(searchTerm), Some(currentPage), Some(PAGE_SIZE))
  }

  const LOAD_ERROR := "Could not load lead."

  class Wizard {
    const hasLeadId: bool
    var currentStep: nat
    var selectedLead: Option<Lead>
    var form: VendorRequest
    var candidates: seq<Lead>
    var totalPages: nat
    var error: Option<string>
    var isSubmitting: bool

    /** The step index stays on the list; only a picked lead moves it past the first
      step; the draft keeps the picked lead's id and stays ACTIVE; and every step
      passed after the first one is valid for the current form. */
    predicate Valid()
      reads this
    {
      && currentStep < |GetSteps(hasLeadId)| && !isSubmitting
      && (currentStep > 0 ==> selectedLead.Some?)
      && (selectedLead.Some? ==> form.leadId == Some(selectedLead.value.id))
      && form.status == ACTIVE
      && PassedStepsValid()
    }

    /** The steps from index 1 up to the current one all passed `isStepValid`. */
    predicate PassedStepsValid()
      reads this
    {
      forall k :: 1 <= k < currentStep && k < |GetSteps(hasLeadId)| ==>
        IsStepValid(form, GetSteps(hasLeadId)[k].id)
    }

    constructor(hasLeadId: bool)
      ensures Valid() && this.hasLeadId == hasLeadId && currentStep == 0
      ensures selectedLead == None && form == DefaultVendorRequest() && candidates == []
      ensures error == None
    {
      this.hasLeadId := hasLeadId;
      currentStep := 0;
      selectedLead := None;
      form := DefaultVendorRequest();
      candidates := [];
      totalPages := 0;
      error := None;
      isSubmitting := false;
    }

    /** The load run when a lead id is given: the lead is picked and the wizard jumps
      to step 1, the contact step of the four-step list; a lead that cannot be found
      leaves an error and the wizard on step 0. */
    method LoadLead(store: LeadsApiService.LeadsApiStore, id: int)
      requires Valid() && hasLeadId && currentStep == 0
      modifies this`selectedLead, this`form, this`currentStep, this`error
      ensures Valid()
      ensures var i := LeadsApiService.IndexOf(store.leads, id);
        && (i >= 0 ==> selectedLead == Some(store.leads[i]) && form == LeadDraft(old(form), store.leads[i])
                       && currentStep == 1 && GetSteps(hasLeadId)[currentStep] == CONTACT
                       && error == old(error))
        && (i == -1 ==> error == Some(LOAD_ERROR) && currentStep == 0
                        && selectedLead == old(selectedLead) && form == old(form))
    {
      var r := store.GetLead(id);
      if r.Success? {
        selectedLead := Some(r.value);
        form := LeadDraft(form, r.value);
        currentStep := 1;
      } else {
        error := Some(LOAD_ERROR);
      }
    }

    /** `fetchLeads`: one page of contacted leads matching the search box. */
    method FetchLeads(store: LeadsApiService.LeadsApiStore, searchTerm: string, currentPage: nat)
      requires Valid()
      modifies this`candidates, this`totalPages
      ensures Valid()
      ensures var page := LeadsApiService.MockPaging.PageOf(
                LeadsApiService.Filtered(store.leads, LeadsApiService.WithStatus(CONTACTED, CandidateQuery(searchTerm, currentPage))),
                Some(currentPage), Some(PAGE_SIZE));
        candidates == page.content && totalPages == page.totalPages
      ensures forall k :: 0 <= k < |candidates| ==> candidates[k].status == CONTACTED
    {
      var q := CandidateQuery(searchTerm, currentPage);
      var page := store.GetLeadsByStatus(CONTACTED, q);
      candidates := page.content;
      totalPages := page.totalPages;
      forall k | 0 <= k < |candidates|
        ensures candidates[k].status == CONTACTED
      {
        LeadsApiService.ByStatusPageHasStatus(store.leads, CONTACTED, q, k);
      }
    }

    /** `handleLeadSelect`: the lead is picked and the draft filled from it. */
    method HandleLeadSelect(lead: Lead)
      requires Valid() && GetSteps(hasLeadId)[currentStep] == SELECT_LEAD
      modifies this`selectedLead, this`form
      ensures Valid() && selectedLead == Some(lead) && form == LeadDraft(old(form), lead)
    {
      selectedLead := Some(lead);
      form := LeadDraft(form, lead);
    }

    /** The list's Select button: picks the lead and moves to the business step. */
    method SelectFromList(lead: Lead)
      requires Valid() && GetSteps(hasLeadId)[currentStep] == SELECT_LEAD
      modifies this`selectedLead, this`form, this`currentStep
      ensures Valid() && selectedLead == Some(lead) && form == LeadDraft(old(form), lead)
      ensures currentStep == 1 && GetSteps(hasLeadId)[currentStep] == BUSINESS
    {
      HandleLeadSelect(lead);
      currentStep := 1;
    }

    /** An input the current step renders. */
    method SetFormField(f: Field, v: string)
      requires Valid() && f in ShownFields(GetSteps(hasLeadId)[currentStep])
      modifies this`form
      ensures Valid() && form == SetField(old(form), f, v)
    {
      StatusNeverShown(hasLeadId, currentStep);
      forall k | 1 <= k < currentStep && k < |GetSteps(hasLeadId)|
        ensures IsStepValid(SetField(form, f, v), GetSteps(hasLeadId)[k].id)
      {
        ShownOnOneStepOnly(hasLeadId, currentStep, k, f);
        StepValidFrame(form, f, v, GetSteps(hasLeadId)[k].id);
      }
      form := SetField(form, f, v);
    }

    /** `handleNext`: refuses to leave step 0 while no lead is picked, otherwise moves
      one step on. It is reachable from every step but the review, and a form step's
      Next button is disabled until `isStepValid` holds. */
    method HandleNext()
      requires Valid() && currentStep < |GetSteps(hasLeadId)| - 1
      requires IsStepValid(form, GetSteps(hasLeadId)[currentStep].id)
      modifies this`currentStep
      ensures Valid()
      ensures currentStep == if old(currentStep) == 0 && selectedLead.None? then 0 else old(currentStep) + 1
    {
      if currentStep == 0 && selectedLead.None? {
        return;
      }
      currentStep := currentStep + 1;
    }

    /** `handlePrevious`. */
    method HandlePrevious()
      requires Valid()
      modifies this`currentStep
      ensures Valid()
      ensures currentStep == if old(currentStep) > 0 then old(currentStep) - 1 else 0
    {
      if currentStep > 0 {
        currentStep := currentStep - 1;
      }
    }

    /** `handleSubmit`, behind the review step's Finish button: the draft is sent to
      `createVendor`, which in memory always succeeds; the error is cleared. The draft
      sent passes the contact and address steps (and the business step when a lead
      was picked from the list), and the vendor is ACTIVE. */
    method HandleSubmit(store: VendorsApiService.VendorsApiStore, now: nat) returns (vendor: Vendor)
      requires Valid() && GetSteps(hasLeadId)[currentStep] == REVIEW
      modifies this`error, this`isSubmitting, store
      ensures Valid() && error == None
      ensures vendor == VendorsApiService.NewVendor(form, now)
      ensures store.vendors == [vendor] + old(store.vendors)
      ensures IsStepValid(form, "contact") && IsStepValid(form, "address")
      ensures !hasLeadId ==> IsStepValid(form, "business")
      ensures vendor.status == ACTIVE
    {
      var steps := GetSteps(hasLeadId);
      assert currentStep == |steps| - 1;
      if hasLeadId {
        assert steps[1].id == "contact" && steps[2].id == "address";
      } else {
        assert steps[1].id == "business" && steps[2].id == "contact" && steps[3].id == "address";
      }
      isSubmitting := true;
      error := None;
      vendor := store.CreateVendor(form, now);
      isSubmitting := false;
    }
  }

  /** A vendor created from a picked lead records that lead. */
  lemma ConvertedVendorKeepsLead(form: VendorRequest, lead: Lead, now: nat)
    ensures VendorsApiService.NewVendor(LeadDraft(form, lead), now).leadId == Some(lead.id)
    ensures VendorsApiService.NewVendor(LeadDraft(form, lead), now).businessName == lead.businessName
  {
  }
}
