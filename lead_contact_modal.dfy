/** The first-contact dialog of src/components/leads/LeadContactModal.jsx: a form over
    the contact request, sent as a whole to `initiateContact`. */
module LeadContactModal {
  import opened Wrappers
  import opened ApiTypes
  import LeadsApiService

  datatype Field = ContactMethodField | Details | Extension | ContactName | Position

  /** `{ ...prev, [field]: value }`. */
  function SetField(form: ContactRequest, f: Field, v: string): (r: ContactRequest)
    ensures f == ContactMethodField ==> r == form.(contactMethod := v)
    ensures f == Details ==> r == form.(contactMethodDetails := v)
    ensures f == Extension ==> r == form.(extensionNumber := v)
    ensures f == ContactName ==> r == form.(contactName := v)
    ensures f == Position ==> r == form.(position := v)
  {
    match f
    case ContactMethodField => form.(contactMethod := v)
    case Details => form.(contactMethodDetails := v)
    case Extension => form.(extensionNumber := v)
    case ContactName => form.(contactName := v)
    case Position => form.(position := v)
  }

  /** The submit button's `disabled` expression: only empty strings block it, so
      white-space details go through. */
  predicate SubmitDisabled(form: ContactRequest, isSubmitting: bool) {
    isSubmitting || form.contactMethod == "" || form.contactMethodDetails == ""
  }

  /** The extension input is shown only for a phone call. */
  predicate ShowsExtension(form: ContactRequest) {
    form.contactMethod == PHONE
  }

  /** `getContactMethodPlaceholder`. */
  function Placeholder(contactMethod: string): (r: string)
    ensures contactMethod !in {PHONE, MAIL_EMAIL, TEXT} ==> r == "Enter contact details"
    ensures contactMethod in {PHONE, MAIL_EMAIL, TEXT} ==> r != "Enter contact details"
  {
    if contactMethod == PHONE then "Enter phone number"
    else if contactMethod == MAIL_EMAIL then "Enter email address"
    else if contactMethod == TEXT then "Enter mobile number for SMS"
    else "Enter contact details"
  }

  /** Each known method has its own placeholder. */
  lemma PlaceholdersDistinct()
    ensures Placeholder(PHONE) != Placeholder(MAIL_EMAIL) && Placeholder(PHONE) != Placeholder(TEXT)
    ensures Placeholder(MAIL_EMAIL) != Placeholder(TEXT) && Placeholder(OTHER) == Placeholder("")
  {
  }

  /** The fresh form can be sent once the details are filled in: the method is already
      a phone call. */
  lemma DefaultFormNeedsOnlyDetails(details: string)
    ensures SubmitDisabled(SetField(DefaultContactRequest(), Details, details), false) <==> details == ""
    ensures ShowsExtension(DefaultContactRequest())
  {
  }

  /** An extension typed while on a phone call is still sent after switching to another
      method: the hidden field keeps its value. */
  lemma HiddenExtensionKept(form: ContactRequest, ext: string, m: string)
    requires ShowsExtension(form) && m != PHONE
    ensures var after := SetField(SetField(form, Extension, ext), ContactMethodField, m);
      !ShowsExtension(after) && after.extensionNumber == ext
  {
  }

  class Modal {
    const lead: Lead
    var form: ContactRequest
    var isSubmitting: bool
    var error: Option<string>

    /** The form starts as the default contact request. */
    constructor(lead: Lead)
      ensures this.lead == lead && form == DefaultContactRequest() && !isSubmitting && error == None
    {
      this.lead := lead;
      form := DefaultContactRequest();
      isSubmitting := false;
      error := None;
    }

    /** `handleInputChange`: only the named field changes. */
    method HandleInputChange(f: Field, v: string)
      modifies this`form
      ensures form == SetField(old(form), f, v)
    {
      form := SetField(form, f, v);
    }

    /** `handleSubmit`, behind the submit button, which is disabled while a request is
      pending or the method or details are empty: the whole form goes to
      `initiateContact`; the updated lead is returned on success and the message kept
      on failure. A contacted lead always records a method and details. */
    method HandleSubmit(store: LeadsApiService.LeadsApiStore, now: string) returns (updated: Option<Lead>)
      requires !SubmitDisabled(form, isSubmitting)
      modifies this`isSubmitting, this`error, store
      ensures !isSubmitting
      ensures updated.Some? ==> updated.value.contactMethod != Some("")
                                && updated.value.contactMethodDetails != Some("")
      ensures var i := LeadsApiService.IndexOf(old(store.leads), lead.id);
        && (i == -1 ==> updated == None && error == Some(LeadsApiService.LEAD_NOT_FOUND)
                        && store.leads == old(store.leads))
        && (i >= 0 ==> updated == Some(LeadsApiService.ContactedLead(old(store.leads)[i], form, now))
                       && error == None && store.leads == old(store.leads)[i := updated.value])
    {
      isSubmitting := true;
      error := None;
      var r := store.InitiateContact(lead.id, form, now);
      if r.Success? {
        updated := Some(r.value);
      } else {
        error := Some(r.error);
        updated := None;
      }
      isSubmitting := false;
    }
  }
}
