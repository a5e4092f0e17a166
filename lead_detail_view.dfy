/** The lead page of src/components/leads/LeadDetailView.jsx: which lifecycle actions
    it offers for a lead, how it reads the server's date arrays and builds the avatar
    initials, and the page state its handlers change. */
module LeadDetailView {
  import opened Wrappers
  import opened Strings
  import opened ApiTypes
  import Seqs
  import LeadsApiService

  // ---------------------------------------------------------------- dates

  /** The fields passed to `new Date(...)`: the month is zero-based and the last field
      is in milliseconds. */
  datatype DateFields = DateFields(year: int, monthIndex: int, day: int, hour: int,
                                   minute: int, second: int, millisecond: int)

  /** What `parseBackendDate` yields: `null` for anything but an array, an invalid date
      when an element is missing (it reads as `undefined`, hence `NaN`), else a date. */
  datatype ParsedDate = NotArray | InvalidDate | ValidDate(fields: DateFields)

  /** `parseBackendDate`. */
  function ParseBackendDate(v: DateValue): (r: ParsedDate)
    ensures v.DateIso? <==> r == NotArray
    ensures v.DateTuple? && |v.parts| < 7 <==> r == InvalidDate
    ensures r.ValidDate? ==> (
      && r.fields.year == v.parts[0] && r.fields.monthIndex == v.parts[1] - 1
      && r.fields.day == v.parts[2] && r.fields.hour == v.parts[3] && r.fields.minute == v.parts[4]
      && r.fields.second == v.parts[5]
      && r.fields.millisecond * 1000000 <= v.parts[6] < (r.fields.millisecond + 1) * 1000000)
  {
    match v
    case DateIso(_) => NotArray
    case DateTuple(p) =>
      if |p| < 7 then InvalidDate
      else ValidDate(DateFields(p[0], p[1] - 1, p[2], p[3], p[4], p[5], FloorDiv(p[6], 1000000)))
  }

  /** `Math.floor(n / d)` for a positive divisor. */
  function FloorDiv(n: int, d: int): (q: int)
    requires d > 0
    ensures q * d <= n < (q + 1) * d
  {
    n / d
  }

  // ---------------------------------------------------------------- initials

  /** `words.map(word => word[0]).join('')`: an empty word contributes nothing. */
  function FirstChars(words: seq<string>): (r: string)
    ensures |r| <= |words|
  {
    if words == [] then ""
    else (if words[0] != "" then [words[0][0]] else "") + FirstChars(words[1..])
  }

  /** `getInitials`: the first letters of the space-separated words, upper-cased, at
      most two. */
  function GetInitials(businessName: string): (r: string)
    ensures |r| <= 2
  {
    var f := Upper(FirstChars(Split(businessName, ' ')));
    f[..if |f| < 2 then |f| else 2]
  }

  /** A string with no space is one word. */
  lemma SplitNoSpace(s: string)
    requires ' ' !in s
    ensures Split(s, ' ') == [s]
  {
  }

  /** A name of two words separated by one space has those words' first letters as its
      initials; a single word has its first letter. */
  lemma InitialsOfWords(a: string, b: string)
    requires a != "" && b != "" && ' ' !in a && ' ' !in b
    ensures GetInitials(a) == [UpperChar(a[0])]
    ensures GetInitials(a + " " + b) == [UpperChar(a[0]), UpperChar(b[0])]
  {
    SplitNoSpace(a);
    assert FirstChars([a]) == [a[0]] + FirstChars([]);
    SplitTwo(a, b, ' ');
    assert a + " " + b == a + [' '] + b;
    assert FirstChars([a, b]) == [a[0]] + FirstChars([b]);
    assert FirstChars([b]) == [b[0]] + FirstChars([]);
  }

  /** The first letters of two leading non-empty words come first. */
  lemma FirstCharsOfTwo(ws: seq<string>)
    requires |ws| >= 2 && ws[0] != "" && ws[1] != ""
    ensures FirstChars(ws) == [ws[0][0], ws[1][0]] + FirstChars(ws[2..])
  {
    assert ws[1..][1..] == ws[2..];
  }

  /** A name of two or more words separated by single spaces has the first letters of
      its first two words, upper-cased, as its initials; the later words do not count. */
  lemma InitialsOfManyWords(ws: seq<string>)
    requires |ws| >= 2
    requires forall k :: 0 <= k < |ws| ==> ws[k] != "" && ' ' !in ws[k]
    ensures GetInitials(Join(ws, " ")) == [UpperChar(ws[0][0]), UpperChar(ws[1][0])]
  {
    SplitJoinPieces(ws, ' ');
    FirstCharsOfTwo(ws);
    var f := Upper(FirstChars(ws));
    assert f[0] == UpperChar(ws[0][0]) && f[1] == UpperChar(ws[1][0]);
  }

  // ---------------------------------------------------------------- gating

  /** A JavaScript truthiness test on an optional text field. */
  predicate Truthy(v: Option<string>) {
    v.Some? && v.value != ""
  }

  /** Quick action "Validate Lead". */
  predicate OffersValidate(l: Lead) {
    l.status == PENDING
  }

  /** Quick action "Initiate Contact": an approved lead not yet contacted. */
  predicate OffersQuickContact(l: Lead) {
    l.status == APPROVED && !Truthy(l.contactMethod)
  }

  /** Quick action "Convert to Vendor". */
  predicate OffersConvert(l: Lead) {
    l.status == CONTACTED
  }

  /** The contact tab's "Initiate Contact", shown whenever no contact is recorded. */
  predicate ContactTabOffersContact(l: Lead) {
    !Truthy(l.contactMethod)
  }

  /** At most one lifecycle quick action is offered for a lead. */
  lemma QuickActionsExclusive(l: Lead)
    ensures !(OffersValidate(l) && OffersQuickContact(l))
    ensures !(OffersValidate(l) && OffersConvert(l))
    ensures !(OffersQuickContact(l) && OffersConvert(l))
  {
  }

  /** The contact tab ignores the status: a pending or denied lead with no contact is
      offered a contact there, though the quick actions do not offer it. */
  lemma ContactTabIgnoresStatus(l: Lead)
    requires l.status in {PENDING, DENIED} && l.contactMethod == None
    ensures ContactTabOffersContact(l) && !OffersQuickContact(l)
  {
  }

  /** Following the offered actions walks the lifecycle: approving a pending lead that
      has no contact offers a contact, and recording a contact offers conversion and
      hides both contact buttons. */
  lemma OfferedActionsAdvance(l: Lead, c: ContactRequest, now: string)
    requires OffersValidate(l) && l.contactMethod == None && c.contactMethod != ""
    ensures var approved := LeadsApiService.ValidatedLead(l, ValidationRequest(APPROVED, None), now);
      && OffersQuickContact(approved) && !OffersValidate(approved)
      && var contacted := LeadsApiService.ContactedLead(approved, c, now);
         OffersConvert(contacted) && !OffersQuickContact(contacted) && !ContactTabOffersContact(contacted)
  {
  }

  /** The address "Convert to Vendor" navigates to: the vendor wizard with the lead's
      id as `leadId`. */
  function ConvertPath(l: Lead): (r: string)
    ensures |r| > 20 && r[..20] == "/vendors/new?leadId="
  {
    "/vendors/new?leadId=" + IntToString(l.id)
  }

  // ---------------------------------------------------------------- page

  /** What the page renders, in the order its early returns test. */
  datatype Screen = Loading | Forbidden | ErrorMessage(message: string) | NotFound | Details(lead: Lead)

  function ScreenOf(loading: bool, error: Option<string>, lead: Option<Lead>): (r: Screen)
    ensures r == Forbidden <==> !loading && error == Some("Forbidden")
    ensures r.ErrorMessage? ==> Some(r.message) == error && r.message != "" && r.message != "Forbidden"
    ensures r.Details? ==> !loading && !Truthy(error) && lead == Some(r.lead)
  {
    if loading then Loading
    else if error == Some("Forbidden") then Forbidden
    else if Truthy(error) then ErrorMessage(error.value)
    else if lead.None? then NotFound
    else Details(lead.value)
  }

  class Page {
    const id: int
    var lead: Option<Lead>
    var loading: bool
    var error: Option<string>
    var showContactModal: bool
    var showValidationModal: bool

    constructor(id: int)
      ensures this.id == id && lead == None && loading && error == None
      ensures !showContactModal && !showValidationModal
    {
      this.id := id;
      lead := None;
      loading := true;
      error := None;
      showContactModal := false;
      showValidationModal := false;
    }

    /** `loadLead`. */
    method LoadLead(store: LeadsApiService.LeadsApiStore)
      modifies this`lead, this`loading, this`error
      ensures !loading
      ensures var i := LeadsApiService.IndexOf(store.leads, id);
        && (i >= 0 ==> lead == Some(store.leads[i]) && error == old(error))
        && (i == -1 ==> lead == old(lead) && error == Some(LeadsApiService.LEAD_NOT_FOUND))
    {
      loading := true;
      var r := store.GetLead(id);
      if r.Success? {
        lead := Some(r.value);
      } else {
        error := Some(r.error);
      }
      loading := false;
    }

    /** The validate button opens the validation dialog. */
    method OpenValidation()
      requires lead.Some? && OffersValidate(lead.value)
      modifies this`showValidationModal
      ensures showValidationModal
    {
      showValidationModal := true;
    }

    /** Either contact button opens the contact dialog. */
    method OpenContact()
      requires lead.Some? && (OffersQuickContact(lead.value) || ContactTabOffersContact(lead.value))
      modifies this`showContactModal
      ensures showContactModal
    {
      showContactModal := true;
    }

    /** `handleContactSuccess`: the returned lead is shown and the dialog closed. */
    method HandleContactSuccess(updated: Lead)
      modifies this`lead, this`showContactModal
      ensures lead == Some(updated) && !showContactModal
    {
      lead := Some(updated);
      showContactModal := false;
    }

    /** `handleValidationSuccess`. */
    method HandleValidationSuccess(updated: Lead)
      modifies this`lead, this`showValidationModal
      ensures lead == Some(updated) && !showValidationModal
    {
      lead := Some(updated);
      showValidationModal := false;
    }

    /** `handleDelete`, with the user's answer to the confirmation as a parameter. It
      returns whether the page navigates back to the list. */
    method HandleDelete(store: LeadsApiService.LeadsApiStore, confirmed: bool) returns (navigated: bool)
      modifies this`error, store
      ensures !confirmed ==> !navigated && store.leads == old(store.leads) && error == old(error)
      ensures confirmed ==>
        var i := LeadsApiService.IndexOf(old(store.leads), id);
        && (i >= 0 ==> navigated && store.leads == Seqs.RemoveAt(old(store.leads), i) && error == old(error))
        && (i == -1 ==> !navigated && store.leads == old(store.leads)
                        && error == Some(LeadsApiService.LEAD_NOT_FOUND))
    {
      navigated := false;
      if confirmed {
        var r := store.DeleteLead(id);
        if r.Success? {
          navigated := true;
        } else {
          error := Some(r.error);
        }
      }
    }
  }

  /** A page whose lead is missing from the store shows the store's message, not the
      forbidden view. */
  lemma MissingLeadShowsMessage(lead: Option<Lead>)
    ensures ScreenOf(false, Some(LeadsApiService.LEAD_NOT_FOUND), lead) == ErrorMessage(LeadsApiService.LEAD_NOT_FOUND)
  {
  }
}
