/** The approval queue of src/pages/leads/LeadsApproval.jsx: the pending leads a user
    reviews, a notes box per lead, and Approve/Deny buttons that validate a lead through
    the in-memory lead store and drop it from the queue. */
module LeadsApproval {
  import opened Wrappers
  import opened Strings
  import opened ApiTypes
  import Seqs
  import MockPaging
  import LeadsApiService

  const FETCH_ERROR := "Failed to fetch pending leads."
  const ACTION_ERROR := "Failed to update lead status."
  /** The TypeError raised when the stored page object is rendered as a list. */
  const MAP_ERROR := "pendingLeads.map is not a function"

  /** The query the page sends: a sales agent asks for their own pending leads, everyone
      else for the pending leads by status. */
  function PendingQuery(roleName: Option<string>): LeadsApiService.LeadQuery {
    if roleName == Some(SALES_AGENT) then LeadsApiService.LeadQuery(Some(PENDING), None, None, None)
    else LeadsApiService.WithStatus(PENDING, LeadsApiService.LeadQuery(None, None, None, None))
  }

  /** The page the store answers to that query: `getMyLeads` and `getLeadsByStatus`
      both page over the filtered leads with the default page and size. */
  function PendingPage(leads: seq<Lead>, roleName: Option<string>): Page<Lead> {
    MockPaging.PageOf(LeadsApiService.Filtered(leads, PendingQuery(roleName)), None, None)
  }

  /** Whatever the role, the fetched page holds only pending leads, at most ten of them,
      and when there are at most ten pending leads it holds every one. */
  lemma PendingPageIsPending(leads: seq<Lead>, roleName: Option<string>)
    ensures var c := PendingPage(leads, roleName).content;
      && |c| <= 10
      && (forall k :: 0 <= k < |c| ==> c[k] in leads && c[k].status == PENDING)
      && (|LeadsApiService.Filtered(leads, PendingQuery(roleName))| <= 10 ==>
            forall i :: 0 <= i < |leads| && leads[i].status == PENDING ==> leads[i] in c)
  {
    var q := PendingQuery(roleName);
    assert q.status == Some(PENDING) && q.search == None;
    var f := LeadsApiService.Filtered(leads, q);
    assert forall k :: 0 <= k < |f| ==> f[k] in leads && f[k].status == PENDING;
    assert forall i :: 0 <= i < |leads| && leads[i].status == PENDING ==> LeadsApiService.Selected(leads[i], q);
    ContentIsPrefix(f);
  }

  /** With the default page and size, the content is the first ten items. */
  lemma ContentIsPrefix(f: seq<Lead>)
    ensures var c := MockPaging.PageOf(f, None, None).content;
      && |c| <= 10 && (forall k :: 0 <= k < |c| ==> c[k] == f[k])
      && (|f| <= 10 ==> c == f)
  {
    MockPaging.FirstPageDefault(f);
  }

  // ---------------------------------------------------------------- rendering

  datatype Screen = Loading | ErrorMessage(message: string) | NoPending | Cards(leads: seq<Lead>) | Crash(message: string)

  /** What `pendingLeads` can hold: the initial array, or the object the service
      resolved with. */
  datatype PendingValue = LeadArray(leads: seq<Lead>) | PageObject(page: Page<Lead>)

  /** The page's output as written: a page object has no `length`, so the empty test
      fails, and it has no `map`, so rendering it throws. */
  function RenderAsWritten(loading: bool, error: Option<string>, pending: PendingValue): Screen {
    if loading then Loading
    else if error.Some? then ErrorMessage(error.value)
    else match pending
      case LeadArray(ls) => if |ls| == 0 then NoPending else Cards(ls)
      case PageObject(_) => Crash(MAP_ERROR)
  }

  /** As written, the result of the fetch is stored whole, so once loading ends without
      an error the queue never renders, even when there are pending leads. */
  lemma StoredPageNeverRenders(leads: seq<Lead>, roleName: Option<string>)
    ensures RenderAsWritten(false, None, PageObject(PendingPage(leads, roleName))) == Crash(MAP_ERROR)
  {
  }

  /** The page's output when the page's `content` is stored. */
  function Render(loading: bool, error: Option<string>, pending: seq<Lead>): (r: Screen)
    ensures r == RenderAsWritten(loading, error, LeadArray(pending))
    ensures !r.Crash?
    ensures r.Cards? ==> r.leads == pending && pending != []
  {
    if loading then Loading
    else if error.Some? then ErrorMessage(error.value)
    else if pending == [] then NoPending
    else Cards(pending)
  }

  /** With the content stored, a successful fetch of pending leads shows exactly those
      leads as cards. */
  lemma FetchedQueueRenders(leads: seq<Lead>, roleName: Option<string>)
    requires PendingPage(leads, roleName).content != []
    ensures Render(false, None, PendingPage(leads, roleName).content) == Cards(PendingPage(leads, roleName).content)
  {
  }

  // ---------------------------------------------------------------- actions

  /** `notes[leadId] || ''`. */
  function NoteOf(notes: map<int, string>, id: int): string {
    if id in notes then notes[id] else ""
  }

  /** The validation request a button sends: the typed notes, with no check that a
      denial carries a reason. */
  function Payload(notes: map<int, string>, id: int, status: string): ValidationRequest {
    ValidationRequest(status, Some(NoteOf(notes, id)))
  }

  /** A denial with an empty notes box goes through: the lead is denied and keeps the
      notes it had. */
  lemma DenialWithoutReasonAccepted(l: Lead, notes: map<int, string>, now: string)
    requires NoteOf(notes, l.id) == ""
    ensures var r := LeadsApiService.ValidatedLead(l, Payload(notes, l.id, DENIED), now);
      r.status == DENIED && r.notes == l.notes
  {
  }

  /** `prev.filter(l => l.id !== leadId)`. */
  function WithoutLead(leads: seq<Lead>, id: int): (r: seq<Lead>)
    ensures forall k :: 0 <= k < |r| ==> r[k] in leads && r[k].id != id
    ensures forall k :: 0 <= k < |leads| && leads[k].id != id ==> leads[k] in r
  {
    Seqs.Filter(leads, (l: Lead) => l.id != id)
  }

  /** With unique ids, dropping the acted-on lead removes exactly its position: the
      other leads stay, in their order. */
  lemma WithoutLeadIsRemoveAt(leads: seq<Lead>, i: nat)
    requires i < |leads|
    requires forall a, b :: 0 <= a < b < |leads| ==> leads[a].id != leads[b].id
    ensures WithoutLead(leads, leads[i].id) == Seqs.RemoveAt(leads, i)
  {
    var id := leads[i].id;
    var p := (l: Lead) => l.id != id;
    assert forall k :: 0 <= k < |leads| && k != i ==> p(leads[k]);
    Seqs.FilterRemovesOne(leads, i, p);
  }

  /** The `actionLoading` key of a button: the lead id followed by the decision. */
  function ActionKey(id: int, status: string): string {
    IntToString(id) + status
  }

  predicate ButtonDisabled(actionLoading: Option<string>, id: int, status: string) {
    actionLoading == Some(ActionKey(id, status))
  }

  predicate IsDecision(status: string) {
    status == APPROVED || status == DENIED
  }

  /** While one decision is pending, only the button that started it is disabled:
      no other lead's buttons and not the other decision on the same lead. */
  lemma OnlyPressedButtonDisabled(id: int, status: string, other: int, otherStatus: string)
    requires IsDecision(status) && IsDecision(otherStatus)
    ensures ButtonDisabled(Some(ActionKey(id, status)), other, otherStatus) <==>
      other == id && otherStatus == status
  {
    if ActionKey(id, status) == ActionKey(other, otherStatus) {
      IntThenWordInjective(id, status, other, otherStatus);
    }
  }

  class Approval {
    var pendingLeads: seq<Lead>
    var loading: bool
    var actionLoading: Option<string>
    var notes: map<int, string>
    var error: Option<string>

    constructor()
      ensures pendingLeads == [] && loading && actionLoading == None && notes == map[] && error == None
    {
      pendingLeads := [];
      loading := true;
      actionLoading := None;
      notes := map[];
      error := None;
    }

    /** `fetchPendingLeads`, storing the page's content. The in-memory store always
      answers, so the error branch is not reached. */
    method FetchPendingLeads(store: LeadsApiService.LeadsApiStore, roleName: Option<string>)
      modifies this`pendingLeads, this`loading
      ensures pendingLeads == PendingPage(store.leads, roleName).content
      ensures !loading
    {
      loading := true;
      var page;
      if roleName == Some(SALES_AGENT) {
        page := store.GetMyLeads(LeadsApiService.LeadQuery(Some(PENDING), None, None, None));
      } else {
        page := store.GetLeadsByStatus(PENDING, LeadsApiService.LeadQuery(None, None, None, None));
      }
      pendingLeads := page.content;
      loading := false;
    }

    /** Typing in one lead's notes box. */
    method SetNote(id: int, text: string)
      modifies this`notes
      ensures notes == old(notes)[id := text]
      ensures forall other :: other != id ==> NoteOf(notes, other) == NoteOf(old(notes), other)
    {
      notes := notes[id := text];
    }

    /** `handleAction` up to the request: the pressed button is marked busy and the
      error cleared. */
    method BeginAction(id: int, status: string)
      modifies this`actionLoading, this`error
      ensures actionLoading == Some(ActionKey(id, status)) && error == None
    {
      actionLoading := Some(ActionKey(id, status));
      error := None;
    }

    /** `handleAction` from the request on: validate through the store; on success drop
      the lead from the queue, on failure keep the queue and set the error; either way
      no button stays busy. */
    method CompleteAction(store: LeadsApiService.LeadsApiStore, id: int, status: string, now: string)
      modifies this`pendingLeads, this`actionLoading, this`error, store
      ensures var i := LeadsApiService.IndexOf(old(store.leads), id);
        && (i == -1 ==> error == Some(ACTION_ERROR) && pendingLeads == old(pendingLeads)
                        && store.leads == old(store.leads))
        && (i >= 0 ==> error == old(error) && pendingLeads == WithoutLead(old(pendingLeads), id)
                       && store.leads == old(store.leads)[i := LeadsApiService.ValidatedLead(
                                                            old(store.leads)[i], Payload(notes, id, status), now)])
      ensures actionLoading == None
    {
      var r := store.ValidateLead(id, Payload(notes, id, status), now);
      if r.Success? {
        pendingLeads := WithoutLead(pendingLeads, id);
      } else {
        error := Some(ACTION_ERROR);
      }
      actionLoading := None;
    }
  }
}
