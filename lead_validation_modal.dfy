/** The approve/deny dialog of src/components/leads/LeadValidationModal.jsx. The
    reviewer picks a decision, may write notes, and confirms; a denial needs a reason,
    but only the confirm button enforces it. */
module LeadValidationModal {
  import opened Wrappers
  import opened Strings
  import opened ApiTypes
  import LeadsApiService

  /** The request `handleValidate` sends: the notes trimmed, or absent when blank. */
  function Payload(status: string, notes: string): (r: ValidationRequest)
    ensures r.status == status
    ensures r.notes == None <==> IsBlank(notes)
    ensures r.notes.Some? ==> r.notes.value == Trim(notes) && r.notes.value != ""
  {
    TrimEmptyIffBlank(notes);
    ValidationRequest(status, if Trim(notes) == "" then None else Some(Trim(notes)))
  }

  /** The confirm button's `disabled` expression. */
  predicate ConfirmDisabled(decision: Option<string>, isSubmitting: bool, notes: string) {
    decision.None? || isSubmitting || (decision == Some(DENIED) && IsBlank(notes))
  }

  /** A denial confirmed through the button always carries its reason, and the stored
      lead then holds that reason, trimmed, as its notes. */
  lemma ConfirmedDenialHasReason(l: Lead, decision: Option<string>, notes: string, now: string)
    requires !ConfirmDisabled(decision, false, notes) && decision == Some(DENIED)
    ensures Payload(DENIED, notes).notes == Some(Trim(notes))
    ensures LeadsApiService.ValidatedLead(l, Payload(DENIED, notes), now).notes == Trim(notes)
    ensures LeadsApiService.ValidatedLead(l, Payload(DENIED, notes), now).status == DENIED
  {
  }

  /** Blank notes leave the lead's earlier notes in place, whatever the decision. */
  lemma BlankNotesKeepOldNotes(l: Lead, status: string, notes: string, now: string)
    requires IsBlank(notes)
    ensures LeadsApiService.ValidatedLead(l, Payload(status, notes), now).notes == l.notes
  {
  }

  class Modal {
    const lead: Lead
    var decision: Option<string>
    var notes: string
    var isSubmitting: bool
    var error: Option<string>

    constructor(lead: Lead)
      ensures this.lead == lead && decision == None && notes == "" && !isSubmitting && error == None
    {
      this.lead := lead;
      decision := None;
      notes := "";
      isSubmitting := false;
      error := None;
    }

    /** `handleApprove`. */
    method Approve()
      modifies this`decision
      ensures decision == Some(APPROVED)
    {
      decision := Some(APPROVED);
    }

    /** `handleDeny`. */
    method Deny()
      modifies this`decision
      ensures decision == Some(DENIED)
    {
      decision := Some(DENIED);
    }

    /** "Change Decision". */
    method ChangeDecision()
      modifies this`decision
      ensures decision == None
    {
      decision := None;
    }

    method SetNotes(text: string)
      modifies this`notes
      ensures notes == text
    {
      notes := text;
    }

    /** `handleValidate`: sends the decision with the trimmed notes. It does not check
      that a denial has a reason. The updated lead is returned on success; on failure
      the message is kept. */
    method HandleValidate(store: LeadsApiService.LeadsApiStore, status: string, now: string)
      returns (updated: Option<Lead>)
      modifies this`isSubmitting, this`error, store
      ensures !isSubmitting
      ensures var i := LeadsApiService.IndexOf(old(store.leads), lead.id);
        && (i == -1 ==> updated == None && error == Some(LeadsApiService.LEAD_NOT_FOUND)
                        && store.leads == old(store.leads))
        && (i >= 0 ==> updated == Some(LeadsApiService.ValidatedLead(old(store.leads)[i], Payload(status, notes), now))
                       && error == None && store.leads == old(store.leads)[i := updated.value])
    {
      isSubmitting := true;
      error := None;
      var r := store.ValidateLead(lead.id, Payload(status, notes), now);
      if r.Success? {
        updated := Some(r.value);
      } else {
        error := Some(r.error);
        updated := None;
      }
      isSubmitting := false;
    }

    /** `handleConfirm`: submits only when a decision is set. */
    method HandleConfirm(store: LeadsApiService.LeadsApiStore, now: string) returns (updated: Option<Lead>)
      modifies this`isSubmitting, this`error, store
      ensures decision.None? ==> updated == None && store.leads == old(store.leads)
                                 && error == old(error) && isSubmitting == old(isSubmitting)
      ensures decision.Some? ==>
        var i := LeadsApiService.IndexOf(old(store.leads), lead.id);
        && !isSubmitting
        && (i == -1 ==> updated == None && error == Some(LeadsApiService.LEAD_NOT_FOUND)
                        && store.leads == old(store.leads))
        && (i >= 0 ==> updated == Some(LeadsApiService.ValidatedLead(old(store.leads)[i], Payload(decision.value, notes), now))
                       && error == None && store.leads == old(store.leads)[i := updated.value])
    {
      updated := None;
      if decision.Some? {
        updated := HandleValidate(store, decision.value, now);
      }
    }
  }

  /** The confirm guard read as a rule: it opens exactly when a decision is set, no
      request is in flight, and a denial has a non-blank reason. */
  lemma ConfirmEnabledIff(decision: Option<string>, isSubmitting: bool, notes: string)
    ensures !ConfirmDisabled(decision, isSubmitting, notes) <==>
      decision.Some? && !isSubmitting && (decision.value == DENIED ==> Payload(DENIED, notes).notes.Some?)
  {
  }
}
