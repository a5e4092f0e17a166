/** The client's data-transfer records, enumerations, default request records and the
    label helpers of src/types/api.js. */
module ApiTypes {
  import opened Wrappers
  import opened Strings
  import Seqs

  // ---------------------------------------------------------------- enumerations

  // Statuses, sources, contact methods and roles travel as strings, and every helper
  // below has a default branch for strings outside the enumeration.
  const PENDING := "PENDING"
  const APPROVED := "APPROVED"
  const DENIED := "DENIED"
  const CONTACTED := "CONTACTED"
  const ONBOARDED := "ONBOARDED"
  const DONE := "DONE"

  const GOVERNMENT := "GOVERNMENT"
  const ADS := "ADS"

  const MAIL_EMAIL := "MAIL_EMAIL"
  const TEXT := "TEXT"
  const PHONE := "PHONE"
  const OTHER := "OTHER"

  const ACTIVE := "ACTIVE"
  const INACTIVE := "INACTIVE"

  const PLATFORM_ADMIN := "PLATFORM_ADMIN"
  const SALES_MANAGER := "SALES_MANAGER"
  const SALES_AGENT := "SALES_AGENT"

  predicate IsLeadStatus(s: string) {
    s == PENDING || s == APPROVED || s == DENIED || s == CONTACTED || s == ONBOARDED || s == DONE
  }

  predicate IsContactMethod(s: string) {
    s == MAIL_EMAIL || s == TEXT || s == PHONE || s == OTHER
  }

  // ---------------------------------------------------------------- records

  /** A timestamp as the back end sends it (`[y, m, d, h, min, s, nanos]`) or as the
      client writes it (an ISO string). */
  datatype DateValue = DateTuple(parts: seq<int>) | DateIso(iso: string)

  /** The lead form: what the lead wizard edits and sends. */
  datatype LeadRequest = LeadRequest(
    businessName: string, phoneNumber: string,
    streetNumber: string, streetName: string, aptUnitBldg: string, postalCode: string,
    source: string, sourceUrl: string, uploadedFile: string,
    status: string, notes: string, vendorId: Option<int>)

  /** A stored lead. Fields a lead may lack (never validated, never contacted, never
      taken) are options. */
  datatype Lead = Lead(
    id: int,
    businessName: string, phoneNumber: string,
    streetNumber: string, streetName: string, aptUnitBldg: string, postalCode: string,
    source: string, sourceUrl: string, uploadedFile: Option<string>,
    status: string, notes: string, vendorId: Option<int>,
    createdAt: DateValue, updatedAt: DateValue,
    validatedAt: Option<DateValue>, validatedBy: Option<int>,
    validatedByFirstName: Option<string>, validatedByLastName: Option<string>,
    contactMethod: Option<string>, contactMethodDetails: Option<string>,
    extensionNumber: Option<string>, contactName: Option<string>, position: Option<string>,
    assignedTo: Option<string>)

  /** The vendor form: what the vendor wizard builds and sends. */
  datatype VendorRequest = VendorRequest(
    leadId: Option<int>, legalName: string, businessName: string,
    streetNumber: string, streetName: string, aptUnitBldg: string, postalCode: string,
    email: string, phoneNumber: string, status: string)

  /** A stored vendor. */
  datatype Vendor = Vendor(
    id: int, leadId: Option<int>, legalName: string, businessName: string,
    email: string, phoneNumber: string, vendorUniqueId: string, status: string,
    streetNumber: string, streetName: string, aptUnitBldg: string, postalCode: string)

  /** The fields an update may carry; an absent field keeps the stored value. */
  datatype VendorPatch = VendorPatch(
    leadId: Option<Option<int>>, legalName: Option<string>, businessName: Option<string>,
    email: Option<string>, phoneNumber: Option<string>, status: Option<string>,
    streetNumber: Option<string>, streetName: Option<string>, aptUnitBldg: Option<string>,
    postalCode: Option<string>)

  /** A validation decision; `notes` is absent when the reviewer wrote none. */
  datatype ValidationRequest = ValidationRequest(status: string, notes: Option<string>)

  /** The record of a first contact with a lead. */
  datatype ContactRequest = ContactRequest(
    contactMethod: string, contactMethodDetails: string, extensionNumber: string,
    contactName: string, position: string)

  /** One page of a list query. `numberOfElements` is an `int`: past the last page the
      stores compute a negative count. */
  datatype Page<T> = Page(
    content: seq<T>, totalElements: nat, totalPages: nat, size: nat, number: nat,
    first: bool, last: bool, numberOfElements: int, empty: bool)

  // ---------------------------------------------------------------- defaults

  /** `defaultLeadRequest`: an empty form for a pending lead from a government source. */
  function DefaultLeadRequest(): (r: LeadRequest)
    ensures r.status == PENDING && r.source == GOVERNMENT && r.vendorId == None
    ensures r.businessName == r.phoneNumber == r.postalCode == r.notes == ""
    ensures r.streetNumber == r.streetName == r.aptUnitBldg == ""
    ensures r.sourceUrl == r.uploadedFile == ""
  {
    LeadRequest("", "", "", "", "", "", GOVERNMENT, "", "", PENDING, "", None)
  }

  /** `defaultVendorRequest`: an empty, active vendor tied to no lead. */
  function DefaultVendorRequest(): (r: VendorRequest)
    ensures r.status == ACTIVE && r.leadId == None
    ensures r.legalName == r.businessName == r.email == r.phoneNumber == ""
    ensures r.streetNumber == r.streetName == r.aptUnitBldg == r.postalCode == ""
  {
    VendorRequest(None, "", "", "", "", "", "", "", "", ACTIVE)
  }

  /** `defaultLeadValidationRequest`: no decision yet, no notes. */
  function DefaultValidationRequest(): (r: ValidationRequest)
    ensures r.status == PENDING && r.notes == Some("")
  {
    ValidationRequest(PENDING, Some(""))
  }

  /** `defaultInitiateContactRequest`: a phone call with every detail still empty. */
  function DefaultContactRequest(): (r: ContactRequest)
    ensures r.contactMethod == PHONE
    ensures r.contactMethodDetails == r.extensionNumber == r.contactName == r.position == ""
  {
    ContactRequest(PHONE, "", "", "", "")
  }

  // ---------------------------------------------------------------- status colours

  const YELLOW_BADGE := "bg-yellow-100 text-yellow-800"
  const GREEN_BADGE := "bg-green-100 text-green-800"
  const RED_BADGE := "bg-red-100 text-red-800"
  const BLUE_BADGE := "bg-blue-100 text-blue-800"
  const PURPLE_BADGE := "bg-purple-100 text-purple-800"
  const GRAY_BADGE := "bg-gray-100 text-gray-800"

  /** `getStatusColor`: one badge class per status; DONE shares the grey of the
      default branch with every unknown status. */
  function GetStatusColor(status: string): (r: string)
    ensures r == YELLOW_BADGE <==> status == PENDING
    ensures r == GREEN_BADGE <==> status == APPROVED
    ensures r == RED_BADGE <==> status == DENIED
    ensures r == BLUE_BADGE <==> status == CONTACTED
    ensures r == PURPLE_BADGE <==> status == ONBOARDED
    ensures r == GRAY_BADGE <==> !IsLeadStatus(status) || status == DONE
  {
    if status == PENDING then YELLOW_BADGE
    else if status == APPROVED then GREEN_BADGE
    else if status == DENIED then RED_BADGE
    else if status == CONTACTED then BLUE_BADGE
    else if status == ONBOARDED then PURPLE_BADGE
    else GRAY_BADGE
  }

  // ---------------------------------------------------------------- status labels

  /** Position `i` of `s` starts a word for the regex `\b\w`: it holds a word character
      and the character before it (or, at the start, `afterWord`) is not one. */
  predicate WordStart(s: string, i: int, afterWord: bool)
    requires 0 <= i < |s|
  {
    IsWordChar(s[i]) && !(if i == 0 then afterWord else IsWordChar(s[i - 1]))
  }

  /** `s.replace(/\b\w/g, l => l.toUpperCase())`, scanning from a position whose
      predecessor is (`afterWord`) or is not a word character. */
  function CapitalizeWords(s: string, afterWord: bool): (r: string)
    ensures |r| == |s|
    ensures forall i :: 0 <= i < |s| ==>
      r[i] == if WordStart(s, i, afterWord) then UpperChar(s[i]) else s[i]
  {
    if s == [] then []
    else
      var c := if IsWordChar(s[0]) && !afterWord then UpperChar(s[0]) else s[0];
      var rest := CapitalizeWords(s[1..], IsWordChar(s[0]));
      assert forall i :: 1 <= i < |s| ==> WordStart(s, i, afterWord) == WordStart(s[1..], i - 1, IsWordChar(s[0]));
      [c] + rest
  }

  /** `getStatusLabel`: the first `_` becomes a space, then the text is lower-cased and
      the first character of each word upper-cased. */
  function GetStatusLabel(status: string): (r: string)
    ensures |r| == |status|
  {
    CapitalizeWords(Lower(ReplaceFirst(status, '_', ' ')), false)
  }

  /** A one-word upper-case status reads as that word with only its initial capital. */
  lemma StatusLabelOfWord(s: string)
    requires s != [] && forall i :: 0 <= i < |s| ==> IsUpper(s[i])
    ensures GetStatusLabel(s) == [s[0]] + Lower(s[1..])
  {
    ReplaceFirstAt(s, '_', ' ');
    var l := Lower(s);
    var r := GetStatusLabel(s);
    assert forall i :: 0 <= i < |l| ==> IsLower(l[i]);
    forall i | 0 <= i < |s|
      ensures r[i] == ([s[0]] + Lower(s[1..]))[i]
    {
      if i > 0 {
        assert !WordStart(l, i, false);
        assert Lower(s[1..])[i - 1] == LowerChar(s[i]);
      }
    }
  }

  /** The six lead statuses read "Pending", "Approved", "Denied", "Contacted",
      "Onboarded" and "Done". */
  lemma StatusLabels()
    ensures GetStatusLabel(PENDING) == "Pending"
    ensures GetStatusLabel(APPROVED) == "Approved"
    ensures GetStatusLabel(DENIED) == "Denied"
    ensures GetStatusLabel(CONTACTED) == "Contacted"
    ensures GetStatusLabel(ONBOARDED) == "Onboarded"
    ensures GetStatusLabel(DONE) == "Done"
  {
    PendingLabel();
    ApprovedLabel();
    DeniedLabel();
    ContactedLabel();
    OnboardedLabel();
    DoneLabel();
  }

  /** The label of an upper-case word `s` is `t` when `t` is `s` lower-cased after its
      first letter. */
  lemma WordLabel(s: string, t: string)
    requires s != [] && forall i :: 0 <= i < |s| ==> IsUpper(s[i])
    requires |t| == |s| && t[0] == s[0] && forall i :: 1 <= i < |s| ==> t[i] == LowerChar(s[i])
    ensures GetStatusLabel(s) == t
  {
    StatusLabelOfWord(s);
    assert [s[0]] + Lower(s[1..]) == t by {
      forall i | 1 <= i < |s| ensures ([s[0]] + Lower(s[1..]))[i] == t[i] {
        assert Lower(s[1..])[i - 1] == LowerChar(s[1..][i - 1]);
      }
    }
  }

  lemma PendingLabel()
    ensures GetStatusLabel(PENDING) == "Pending"
  {
    WordLabel(PENDING, "Pending");
  }

  lemma ApprovedLabel()
    ensures GetStatusLabel(APPROVED) == "Approved"
  {
    WordLabel(APPROVED, "Approved");
  }

  lemma DeniedLabel()
    ensures GetStatusLabel(DENIED) == "Denied"
  {
    WordLabel(DENIED, "Denied");
  }

  lemma ContactedLabel()
    ensures GetStatusLabel(CONTACTED) == "Contacted"
  {
    WordLabel(CONTACTED, "Contacted");
  }

  lemma OnboardedLabel()
    ensures GetStatusLabel(ONBOARDED) == "Onboarded"
  {
    WordLabel(ONBOARDED, "Onboarded");
  }

  lemma DoneLabel()
    ensures GetStatusLabel(DONE) == "Done"
  {
    WordLabel(DONE, "Done");
  }

  /** Only the first underscore turns into a space; later ones stay underscores. */
  lemma StatusLabelUnderscores(s: string)
    ensures var k := CharIndex(s, '_');
      var r := GetStatusLabel(s);
      (k >= 0 ==> r[k] == ' ')
      && forall i :: 0 <= i < |s| && i != k ==> (r[i] == '_' <==> s[i] == '_')
  {
    ReplaceFirstAt(s, '_', ' ');
    var t := ReplaceFirst(s, '_', ' ');
    CaseKeepsMarks(t);
  }

  /** Lower-casing and capitalising words leave spaces and underscores where they are. */
  lemma CaseKeepsMarks(t: string)
    ensures var r := CapitalizeWords(Lower(t), false);
      forall i :: 0 <= i < |t| ==> (r[i] == '_' <==> t[i] == '_') && (r[i] == ' ' <==> t[i] == ' ')
  {
    var l := Lower(t);
    var r := CapitalizeWords(l, false);
    forall i | 0 <= i < |t|
      ensures (r[i] == '_' <==> t[i] == '_') && (r[i] == ' ' <==> t[i] == ' ')
    {
      CharCaseKeepsMarks(t[i], WordStart(l, i, false));
    }
  }

  /** Changing the case of one character keeps it a space or an underscore, and keeps
      anything else from becoming one. */
  lemma CharCaseKeepsMarks(c: char, upper: bool)
    ensures var x := if upper then UpperChar(LowerChar(c)) else LowerChar(c);
      (x == '_' <==> c == '_') && (x == ' ' <==> c == ' ')
  {
  }

  // ---------------------------------------------------------------- contact methods

  /** `getContactMethodLabel`: a fixed label for the four methods, anything else is
      returned as given. */
  function GetContactMethodLabel(contactMethod: string): (r: string)
    ensures contactMethod == MAIL_EMAIL ==> r == "Email"
    ensures contactMethod == TEXT ==> r == "Text Message"
    ensures contactMethod == PHONE ==> r == "Phone Call"
    ensures contactMethod == OTHER ==> r == "Other"
    ensures !IsContactMethod(contactMethod) ==> r == contactMethod
  {
    if contactMethod == MAIL_EMAIL then "Email"
    else if contactMethod == TEXT then "Text Message"
    else if contactMethod == PHONE then "Phone Call"
    else if contactMethod == OTHER then "Other"
    else contactMethod
  }

  /** The label differs from its input exactly for the four known methods. */
  lemma ContactMethodLabelChanges(contactMethod: string)
    ensures GetContactMethodLabel(contactMethod) != contactMethod <==> IsContactMethod(contactMethod)
  {
    if contactMethod == OTHER {
      assert GetContactMethodLabel(contactMethod)[1] != contactMethod[1];
    }
  }

  // ---------------------------------------------------------------- joining

  /** The non-empty strings of `xs`, in order (`filter(Boolean)` on strings). */
  function NonEmpty(xs: seq<string>): seq<string> {
    Seqs.Filter(xs, Present)
  }

  /** A string `Boolean` keeps: a non-empty one. */
  predicate Present(x: string) {
    x != ""
  }

  /** The non-empty strings of a pair. */
  lemma NonEmptyPair(a: string, b: string)
    ensures NonEmpty([a, b]) == (if a != "" then [a] else []) + (if b != "" then [b] else [])
  {
    assert [a, b] == [a] + [b];
    Seqs.FilterAppend([a], [b], Present);
    Seqs.FilterSingleton(a, Present);
    Seqs.FilterSingleton(b, Present);
  }

  /** `formatAddress`: the non-empty address parts joined with ", ". */
  function FormatAddress(streetNumber: string, streetName: string, aptUnitBldg: string,
                         postalCode: string): (r: string)
    ensures r == "" <==> streetNumber == streetName == aptUnitBldg == postalCode == ""
  {
    var xs := [streetNumber, streetName, aptUnitBldg, postalCode];
    var parts := NonEmpty(xs);
    assert parts != [] <==> Join(parts, ", ") != "" by {
      if parts != [] {
        JoinEnds(parts, ", ");
        assert parts[0] != "";
      }
    }
    assert xs[0] == streetNumber && xs[1] == streetName && xs[2] == aptUnitBldg && xs[3] == postalCode;
    assert parts == [] <==> forall i :: 0 <= i < 4 ==> xs[i] == "" by {
      if parts != [] {
        assert parts[0] in xs && parts[0] != "";
      }
    }
    Join(parts, ", ")
  }

  /** The address starts with its first present part, ends with its last, and holds
      one separator fewer than present parts: no leading, trailing or doubled ", ". */
  lemma FormatAddressShape(streetNumber: string, streetName: string, aptUnitBldg: string,
                           postalCode: string)
    ensures var parts := NonEmpty([streetNumber, streetName, aptUnitBldg, postalCode]);
      var r := FormatAddress(streetNumber, streetName, aptUnitBldg, postalCode);
      parts != [] ==>
        |r| >= |parts[0]| && |r| >= |parts[|parts| - 1]| &&
        r[..|parts[0]|] == parts[0] && r[|r| - |parts[|parts| - 1]|..] == parts[|parts| - 1]
        && |r| == SumLengths(parts) + 2 * (|parts| - 1)
  {
    var parts := NonEmpty([streetNumber, streetName, aptUnitBldg, postalCode]);
    if parts != [] {
      var sep := ", ";
      assert FormatAddress(streetNumber, streetName, aptUnitBldg, postalCode) == Join(parts, sep);
      JoinEnds(parts, sep);
      JoinLength(parts, sep);
      assert |sep| == 2;
    }
  }

  /** `formatFullName`: first and last name separated by one space, either alone when
      the other is empty, and the empty string when both are. */
  function FormatFullName(firstName: string, lastName: string): (r: string)
    ensures firstName != "" && lastName != "" ==> r == firstName + " " + lastName
    ensures firstName != "" && lastName == "" ==> r == firstName
    ensures firstName == "" ==> r == lastName
  {
    var parts := NonEmpty([firstName, lastName]);
    NonEmptyPair(firstName, lastName);
    assert firstName != "" && lastName != "" ==> Join(parts, " ") == firstName + " " + lastName by {
      if firstName != "" && lastName != "" {
        assert parts == [firstName, lastName];
        assert parts[1..] == [lastName];
      }
    }
    Join(parts, " ")
  }
}
