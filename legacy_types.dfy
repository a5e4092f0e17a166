/** The first-generation records and validators of src/types/index.js: string-keyed
    leads with activities, vendors with nested contacts, the legacy role names, and the
    e-mail and phone validators. */
module LegacyTypes {
  import opened Wrappers
  import opened Strings

  // ---------------------------------------------------------------- enumerations

  const ADMIN := "admin"
  const MANAGER := "manager"
  const SALES_REP := "sales_rep"
  const MECHANIC := "mechanic"

  const NEW := "new"
  const TIRE_MANUFACTURER := "tire_manufacturer"
  const TIRE_DISTRIBUTOR := "tire_distributor"
  const EQUIPMENT_SUPPLIER := "equipment_supplier"
  const SERVICE_PROVIDER := "service_provider"
  const PASSENGER := "passenger"

  // ---------------------------------------------------------------- records

  datatype Activity = Activity(
    id: string, activityType: string, description: string, userId: string,
    leadId: string, createdAt: string)

  datatype Lead = Lead(
    id: string, title: string, description: string, status: string, priority: string,
    estimatedValue: int, customerName: string, customerEmail: string,
    customerPhone: string, customerCompany: string, assignedUserId: string,
    vendorId: string, tireCategory: string, quantity: int, notes: string,
    activities: seq<Activity>, createdAt: string, updatedAt: string)

  datatype Address = Address(street: string, city: string, state: string, zipCode: string,
                             country: string)

  datatype Contact = Contact(
    id: string, firstName: string, lastName: string, email: string, phone: string,
    position: string, isPrimary: bool, vendorId: string)

  datatype Vendor = Vendor(
    id: string, name: string, vendorType: string, email: string, phone: string,
    address: Address, website: string, description: string, isActive: bool,
    contacts: seq<Contact>, leads: seq<string>, createdAt: string, updatedAt: string)

  /** The fields a lead update may carry; an absent field keeps the stored value. */
  datatype LeadPatch = LeadPatch(
    title: Option<string>, description: Option<string>, status: Option<string>,
    priority: Option<string>, estimatedValue: Option<int>, customerName: Option<string>,
    customerEmail: Option<string>, customerPhone: Option<string>,
    customerCompany: Option<string>, assignedUserId: Option<string>,
    vendorId: Option<string>, tireCategory: Option<string>, quantity: Option<int>,
    notes: Option<string>)

  /** The fields a vendor update may carry. */
  datatype VendorPatch = VendorPatch(
    name: Option<string>, vendorType: Option<string>, email: Option<string>,
    phone: Option<string>, address: Option<Address>, website: Option<string>,
    description: Option<string>, isActive: Option<bool>)

  /** The fields a contact update may carry. */
  datatype ContactPatch = ContactPatch(
    firstName: Option<string>, lastName: Option<string>, email: Option<string>,
    phone: Option<string>, position: Option<string>, isPrimary: Option<bool>)

  // ---------------------------------------------------------------- defaults

  /** `defaultLead`: a new, medium-priority passenger-tyre lead with no activity. The
      creation time is a parameter. */
  function DefaultLead(now: string): (r: Lead)
    ensures r.status == NEW && r.priority == "medium" && r.tireCategory == PASSENGER
    ensures r.activities == [] && r.estimatedValue == 0 && r.quantity == 0
    ensures r.createdAt == r.updatedAt == now
  {
    Lead("", "", "", NEW, "medium", 0, "", "", "", "", "", "", PASSENGER, 0, "", [], now, now)
  }

  /** `defaultVendor`: an active tyre manufacturer with no contact and no lead. */
  function DefaultVendor(now: string): (r: Vendor)
    ensures r.isActive && r.vendorType == TIRE_MANUFACTURER
    ensures r.contacts == [] && r.leads == []
    ensures r.createdAt == r.updatedAt == now
  {
    Vendor("", "", TIRE_MANUFACTURER, "", "", Address("", "", "", "", ""), "", "", true,
           [], [], now, now)
  }

  /** `defaultContact`: a non-primary contact attached to no vendor yet. */
  function DefaultContact(): (r: Contact)
    ensures !r.isPrimary && r.vendorId == "" && r.id == ""
  {
    Contact("", "", "", "", "", "", false, "")
  }

  /** `defaultActivity`: a note. */
  function DefaultActivity(now: string): (r: Activity)
    ensures r.activityType == "note" && r.createdAt == now
  {
    Activity("", "note", "", "", "", now)
  }

  // ---------------------------------------------------------------- e-mail

  /** No white space and no `@`: the regex class `[^\s@]`. */
  predicate Plain(t: string) {
    forall k :: 0 <= k < |t| ==> !IsSpace(t[k]) && t[k] != '@'
  }

  /** `s` splits as `local@domain.tld` with `@` at `i` and the dot at `j`, each of the
      three parts non-empty and plain. */
  predicate EmailSplit(s: string, i: int, j: int) {
    0 < i && i + 1 < j && j + 1 < |s| && s[i] == '@' && s[j] == '.'
    && Plain(s[..i]) && Plain(s[i + 1..j]) && Plain(s[j + 1..])
  }

  /** `validateEmail`: the regex `^[^\s@]+@[^\s@]+\.[^\s@]+$` matches. */
  predicate ValidateEmail(s: string) {
    exists i, j | 0 <= i < j < |s| :: EmailSplit(s, i, j)
  }

  /** The position of the only `@` of `s`. */
  predicate SoleAt(s: string, i: int) {
    0 <= i < |s| && s[i] == '@' && forall k :: 0 <= k < |s| && k != i ==> s[k] != '@'
  }

  /** A dot after position `i + 1` with at least one character after it. */
  predicate DotAfter(s: string, i: int) {
    exists j | 0 <= j && i + 1 < j < |s| - 1 :: s[j] == '.'
  }

  /** A plain prefix and suffix around position `i` leave `i` the only `@`. */
  lemma PlainAround(s: string, i: int, j: int)
    requires EmailSplit(s, i, j)
    ensures SoleAt(s, i)
    ensures forall k :: 0 <= k < |s| ==> !IsSpace(s[k])
  {
    forall k | 0 <= k < |s|
      ensures !IsSpace(s[k]) && (k != i ==> s[k] != '@')
    {
      if k < i {
        assert s[k] == s[..i][k];
      } else if i < k < j {
        assert s[k] == s[i + 1..j][k - i - 1];
      } else if k > j {
        assert s[k] == s[j + 1..][k - j - 1];
      }
    }
  }

  /** An e-mail address is accepted exactly when it has no white space, exactly one
      `@` with text before it, and after the `@` a dot with text on both sides. */
  lemma ValidateEmailIff(s: string)
    ensures ValidateEmail(s) <==>
      (forall k :: 0 <= k < |s| ==> !IsSpace(s[k]))
      && (exists i | 0 < i < |s| :: SoleAt(s, i) && DotAfter(s, i))
  {
    if ValidateEmail(s) {
      var i, j :| 0 <= i < j < |s| && EmailSplit(s, i, j);
      PlainAround(s, i, j);
      assert i + 1 < j < |s| - 1 && s[j] == '.';
      assert DotAfter(s, i);
    }
    if (forall k :: 0 <= k < |s| ==> !IsSpace(s[k]))
      && (exists i | 0 < i < |s| :: SoleAt(s, i) && DotAfter(s, i))
    {
      var i :| 0 < i < |s| && SoleAt(s, i) && DotAfter(s, i);
      var j :| i + 1 < j < |s| - 1 && s[j] == '.';
      assert Plain(s[..i]);
      assert Plain(s[i + 1..j]);
      assert Plain(s[j + 1..]);
      assert EmailSplit(s, i, j);
    }
  }

  // ---------------------------------------------------------------- phone

  /** The regex class `[\d\s\-\(\)]`. */
  predicate PhoneChar(c: char) {
    IsDigit(c) || IsSpace(c) || c == '-' || c == '(' || c == ')'
  }

  predicate AllPhoneChars(s: string) {
    forall k :: 0 <= k < |s| ==> PhoneChar(s[k])
  }

  /** The regex `^\+?[\d\s\-\(\)]+$`: an optional `+` and at least one more character,
      all from the class. */
  predicate PhonePattern(s: string) {
    (s != "" && AllPhoneChars(s)) || (|s| >= 2 && s[0] == '+' && AllPhoneChars(s[1..]))
  }

  /** `validatePhone`: the pattern matches and there are at least ten digits. */
  predicate ValidatePhone(s: string) {
    PhonePattern(s) && |Digits(s)| >= 10
  }

  /** A phone number is accepted exactly when every character is a digit, white space,
      `-`, `(` or `)`, except for an optional leading `+`, and it holds ten digits. */
  lemma ValidatePhoneIff(s: string)
    ensures ValidatePhone(s) <==>
      (forall k :: 0 <= k < |s| ==> PhoneChar(s[k]) || (k == 0 && s[k] == '+'))
      && |Digits(s)| >= 10
  {
    if |Digits(s)| >= 10 && forall k :: 0 <= k < |s| ==> PhoneChar(s[k]) || (k == 0 && s[k] == '+') {
      assert |s| >= 10;
      if s[0] == '+' {
        assert forall k :: 0 <= k < |s| - 1 ==> s[1..][k] == s[k + 1];
      }
    }
    if PhonePattern(s) && !AllPhoneChars(s) {
      assert forall k :: 1 <= k < |s| ==> s[k] == s[1..][k - 1];
    }
  }

  /** `params.page || 1` and `params.limit || 10` in the two in-memory services: a
      missing or zero value takes the default. */
  function OrDefault(v: Option<nat>, d: nat): (r: nat)
    ensures v.Some? && v.value != 0 ==> r == v.value
    ensures v.None? || v.value == 0 ==> r == d
  {
    if v.Some? && v.value != 0 then v.value else d
  }
}
