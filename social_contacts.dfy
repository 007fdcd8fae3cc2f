/**
 * The social contacts page: social profiles, e-mail addresses and phone numbers, with a
 * per-type validation, a submitted shape that depends on the type, and a search with two
 * checkbox filters.
 */
module SocialContacts {
  import opened Wrappers
  import opened Text
  import Seqs
  import opened CrudPage

  /** The source's `type` field. */
  datatype ContactKind = Social | Email | Phone {
    function Name(): string {
      match this
      case Social => "social"
      case Email => "email"
      case Phone => "phone"
    }
  }

  datatype Platform = LinkedIn | X | Facebook | YouTube | Instagram {
    function Name(): string {
      match this
      case LinkedIn => "LinkedIn"
      case X => "X"
      case Facebook => "Facebook"
      case YouTube => "YouTube"
      case Instagram => "Instagram"
    }
  }

  datatype Contact = Contact(
    id: Id,
    kind: ContactKind,
    platform: Option<Platform>,
    handleOrUrl: Option<string>,
    value: Option<string>,
    createdAt: string)

  /** The form, and also the submitted data; the form's empty platform `''` is `None`, as is `null`. */
  datatype ContactForm = ContactForm(kind: ContactKind, platform: Option<Platform>, handleOrUrl: string, value: string)

  datatype FormError = PhoneNotTenDigits | PlatformMissing

  function IdOf(c: Contact): Id { c.id }

  function DefaultForm(): ContactForm { ContactForm(Social, None, "", "") }

  // ----- validation and the submitted shape -----

  /** `validateForm`: a phone needs exactly ten digits, a social entry needs a platform. */
  function Validate(f: ContactForm): (err: Option<FormError>)
    ensures err == Some(PhoneNotTenDigits) <==> f.kind == Phone && |DigitsOf(f.value)| != 10
    ensures err == Some(PlatformMissing) <==> f.kind == Social && f.platform.None?
    ensures err.None? <==> (f.kind == Phone ==> |DigitsOf(f.value)| == 10) && (f.kind == Social ==> f.platform.Some?)
  {
    if f.kind == Phone && |DigitsOf(f.value)| != 10 then Some(PhoneNotTenDigits)
    else if f.kind == Social && f.platform.None? then Some(PlatformMissing)
    else None
  }

  /** The prefix every stored phone number carries. */
  const CountryCode := "+91"

  /** `dataToSubmit`: a phone keeps only its digits behind `+91`; only a social entry keeps its platform. */
  function ToPayload(f: ContactForm): ContactForm {
    ContactForm(
      f.kind,
      if f.kind == Social then f.platform else None,
      f.handleOrUrl,
      if f.kind == Phone then CountryCode + DigitsOf(f.value) else f.value)
  }

  /**
   * An accepted phone entry is stored as `+91` and then ten digits, which are exactly the digits
   * of what was typed, in the order typed.
   */
  lemma PhonePayload(f: ContactForm)
    requires f.kind == Phone && Validate(f).None?
    ensures var v := ToPayload(f).value;
      |v| == 13 && v[..3] == CountryCode && v[3..] == DigitsOf(f.value)
      && (forall i :: 3 <= i < 13 ==> IsDigit(v[i]))
      && Seqs.IsSubsequence(v[3..], f.value)
  {
    var v := ToPayload(f).value;
    assert v[3..] == DigitsOf(f.value);
    Seqs.FilterIsSubsequence(f.value, IsDigit);
  }

  /** The submitted platform is the selected one for a social entry and null for the others. */
  lemma PayloadPlatform(f: ContactForm)
    ensures f.kind == Social ==> ToPayload(f).platform == f.platform
    ensures f.kind != Social ==> ToPayload(f).platform.None?
    ensures ToPayload(f).kind == f.kind && ToPayload(f).handleOrUrl == f.handleOrUrl
  {
  }

  /** A non-digit between two runs of digits is dropped from the phone number. */
  lemma DigitsAroundSeparator(a: string, c: char, b: string)
    requires forall i :: 0 <= i < |a| ==> IsDigit(a[i])
    requires forall i :: 0 <= i < |b| ==> IsDigit(b[i])
    requires !IsDigit(c)
    ensures DigitsOf(a + [c] + b) == a + b
  {
    var cb := [c] + b;
    assert a + [c] + b == a + cb;
    Seqs.FilterAppend(a, cb, IsDigit);
    Seqs.FilterAppend([c], b, IsDigit);
    Seqs.FilterKeepsAll(a, IsDigit);
    Seqs.FilterKeepsAll(b, IsDigit);
  }

  /**
   * A number typed as two runs of digits around a separator, ten digits in all (such as
   * "98765 43210"), is accepted and stored as `+91` followed by the two runs ("+919876543210").
   */
  lemma SeparatedPhoneAccepted(a: string, c: char, b: string)
    requires forall i :: 0 <= i < |a| ==> IsDigit(a[i])
    requires forall i :: 0 <= i < |b| ==> IsDigit(b[i])
    requires !IsDigit(c) && |a| + |b| == 10
    ensures Validate(ContactForm(Phone, None, "", a + [c] + b)).None?
    ensures ToPayload(ContactForm(Phone, None, "", a + [c] + b)).value == CountryCode + a + b
  {
    DigitsAroundSeparator(a, c, b);
  }

  /** A nine-digit phone number, such as "987654321", is rejected. */
  lemma NineDigitPhoneRejected(d: string)
    requires |d| == 9 && forall i :: 0 <= i < |d| ==> IsDigit(d[i])
    ensures Validate(ContactForm(Phone, None, "", d)) == Some(PhoneNotTenDigits)
  {
    Seqs.FilterKeepsAll(d, IsDigit);
  }

  // ----- the type select -----

  /** The type select's `onValueChange`: the platform survives only a change to "social". */
  function ChangeKind(f: ContactForm, k: ContactKind): ContactForm {
    f.(kind := k, platform := if k == Social then f.platform else None)
  }

  /**
   * Leaving "social" forgets the platform: coming back to "social" afterwards, the entry is
   * rejected until a platform is chosen again. Staying on "social" keeps it.
   */
  lemma PlatformLostOnDetour(f: ContactForm, k: ContactKind)
    requires k != Social
    ensures ChangeKind(f, k).platform.None?
    ensures Validate(ChangeKind(ChangeKind(f, k), Social)) == Some(PlatformMissing)
    ensures ChangeKind(f, Social).platform == f.platform
  {
  }

  // ----- editing a stored contact -----

  /** Ten digit characters: what follows `+91` in a stored phone number. */
  predicate IsTenDigits(d: string) {
    |d| == 10 && forall i :: 0 <= i < |d| ==> IsDigit(d[i])
  }

  /** `handleEdit` as written: the stored value is copied into the form as it is. */
  function EditFormAsWritten(c: Contact): ContactForm {
    ContactForm(c.kind, c.platform, c.handleOrUrl.GetOr(""), c.value.GetOr(""))
  }

  /** The digits of a stored phone number: the country code's two digits and then the ten. */
  lemma StoredPhoneDigits(d: string)
    requires IsTenDigits(d)
    ensures DigitsOf(CountryCode + d) == "91" + d
  {
    Seqs.FilterAppend(CountryCode, d, IsDigit);
    assert DigitsOf(CountryCode) == "91";
    Seqs.FilterKeepsAll(d, IsDigit);
  }

  /**
   * As written, opening any stored phone contact for editing and submitting it unchanged is
   * rejected: the form holds `+91` and ten digits, twelve digits in all.
   */
  lemma EditedPhoneRejectedAsWritten(c: Contact, d: string)
    requires c.kind == Phone && c.value == Some(CountryCode + d) && IsTenDigits(d)
    ensures Validate(EditFormAsWritten(c)) == Some(PhoneNotTenDigits)
  {
    StoredPhoneDigits(d);
  }

  /** `handleEdit`, corrected: a phone number is shown without the `+91` the submit adds back. */
  function EditForm(c: Contact): ContactForm {
    var v := c.value.GetOr("");
    ContactForm(
      c.kind, c.platform, c.handleOrUrl.GetOr(""),
      if c.kind == Phone && CountryCode <= v then v[|CountryCode|..] else v)
  }

  /**
   * With the corrected pre-fill, a stored phone contact submitted unchanged is accepted and
   * stored with the same number.
   */
  lemma EditedPhoneRoundTrip(c: Contact, d: string)
    requires c.kind == Phone && c.value == Some(CountryCode + d) && IsTenDigits(d)
    ensures Validate(EditForm(c)).None?
    ensures ToPayload(EditForm(c)).value == c.value.value
  {
    assert (CountryCode + d)[3..] == d;
    Seqs.FilterKeepsAll(d, IsDigit);
  }

  // ----- search and filters -----

  /** An optional text field contains the (lower-cased) query, ignoring case; an absent field never does. */
  predicate FieldContains(field: Option<string>, q: string) {
    field.Some? && Contains(Lower(field.value), q)
  }

  /** The search box: the type, the platform, the handle or the value contains the query. */
  predicate MatchesSearch(c: Contact, query: string) {
    var q := Lower(query);
    || Contains(Lower(c.kind.Name()), q)
    || (c.platform.Some? && Contains(Lower(c.platform.value.Name()), q))
    || FieldContains(c.handleOrUrl, q)
    || FieldContains(c.value, q)
  }

  /** The type filter: no type ticked keeps every contact. */
  predicate MatchesKinds(c: Contact, kinds: seq<ContactKind>) {
    kinds == [] || c.kind in kinds
  }

  /** The platform filter: no platform ticked keeps every contact; otherwise a ticked platform is needed. */
  predicate MatchesPlatforms(c: Contact, platforms: seq<Platform>) {
    platforms == [] || (c.platform.Some? && c.platform.value in platforms)
  }

  predicate Shown(c: Contact, query: string, kinds: seq<ContactKind>, platforms: seq<Platform>) {
    MatchesSearch(c, query) && MatchesKinds(c, kinds) && MatchesPlatforms(c, platforms)
  }

  /**
   * The search ignores the query's case: a query matches exactly as its lower-cased form does,
   * and a handle or value holding the query as typed is found.
   */
  lemma SearchIgnoresCase(c: Contact, query: string)
    ensures MatchesSearch(c, query) <==> MatchesSearch(c, Lower(query))
    ensures c.handleOrUrl.Some? && Contains(c.handleOrUrl.value, query) ==> MatchesSearch(c, query)
    ensures c.value.Some? && Contains(c.value.value, query) ==> MatchesSearch(c, query)
    ensures c.handleOrUrl.Some? && EqualIgnoringCase(c.handleOrUrl.value, query) ==> MatchesSearch(c, query)
  {
    LowerIdempotent(query);
    if c.handleOrUrl.Some? && EqualIgnoringCase(c.handleOrUrl.value, query) {
      LowerEqualIgnoringCase(c.handleOrUrl.value, query);
    }
    if c.handleOrUrl.Some? && Contains(c.handleOrUrl.value, query) {
      ContainsLower(c.handleOrUrl.value, query);
    }
    if c.value.Some? && Contains(c.value.value, query) {
      ContainsLower(c.value.value, query);
    }
  }

  /** `filteredContacts`: the contacts that pass all three tests, in list order. */
  function FilterContacts(contacts: seq<Contact>, query: string, kinds: seq<ContactKind>, platforms: seq<Platform>)
    : (shown: seq<Contact>)
    ensures |shown| <= |contacts| && Seqs.IsSubsequence(shown, contacts)
    ensures forall c :: c in shown <==> c in contacts && Shown(c, query, kinds, platforms)
    ensures forall c :: multiset(shown)[c] == if Shown(c, query, kinds, platforms) then multiset(contacts)[c] else 0
    ensures platforms != [] ==> forall i :: 0 <= i < |shown| ==> shown[i].platform.Some?
  {
    var keep := (c: Contact) => Shown(c, query, kinds, platforms);
    Seqs.FilterIsSubsequence(contacts, keep);
    Seqs.FilterMembers(contacts, keep);
    Seqs.FilterCounts(contacts, keep);
    Seqs.Filter(contacts, keep)
  }

  /** With an empty search and no box ticked, every contact is listed. */
  lemma UnfilteredShowsAll(contacts: seq<Contact>)
    ensures FilterContacts(contacts, "", [], []) == contacts
  {
    Seqs.FilterKeepsAll(contacts, (c: Contact) => Shown(c, "", [], []));
  }

  /** A filter checkbox's `onCheckedChange`: ticking appends the value, unticking removes every copy. */
  function Toggle<T(==,!new)>(ticked: seq<T>, item: T, checked: bool): (r: seq<T>)
    ensures item in r <==> checked
    ensures forall x :: x != item ==> (x in r <==> x in ticked)
  {
    if checked then ticked + [item]
    else
      var keep := (x: T) => x != item;
      Seqs.FilterMembers(ticked, keep);
      Seqs.Filter(ticked, keep)
  }

  /**
   * The checkboxes: ticking a contact's own type always shows it, ticking another type never
   * hides a contact already shown by a ticked type, and unticking the only ticked type shows
   * every type again. A contact without a platform is shown by the platform filter only while
   * no platform is ticked.
   */
  lemma CheckboxFilters(c: Contact, kinds: seq<ContactKind>, k: ContactKind, platforms: seq<Platform>)
    ensures MatchesKinds(c, Toggle(kinds, c.kind, true))
    ensures kinds != [] && MatchesKinds(c, kinds) ==> MatchesKinds(c, Toggle(kinds, k, true))
    ensures MatchesKinds(c, Toggle([k], k, false))
    ensures c.platform.None? ==> (MatchesPlatforms(c, platforms) <==> platforms == [])
  {
  }

  const NoContactsYet := "No social contacts added yet"
  const NoContactsMatch := "No contacts match your filters"

  /** The placeholder row of the contacts table. */
  function EmptyState(contacts: seq<Contact>, query: string, kinds: seq<ContactKind>, platforms: seq<Platform>)
    : (msg: Option<string>)
    ensures msg.Some? <==> FilterContacts(contacts, query, kinds, platforms) == []
    ensures msg == Some(NoContactsYet) <==> contacts == []
    ensures msg == Some(NoContactsMatch) <==> contacts != [] && FilterContacts(contacts, query, kinds, platforms) == []
  {
    EmptyRowMessage(|contacts|, |FilterContacts(contacts, query, kinds, platforms)|, NoContactsYet, NoContactsMatch)
  }

  // ----- the dialog -----

  method Mount() returns (p: Page<Contact, ContactForm>)
    ensures fresh(p) && p.defaults == DefaultForm() && p.idOf == IdOf
    ensures !p.isDialogOpen && p.editing == None && p.formData == DefaultForm() && !p.invalidated
  {
    p := new Page(DefaultForm(), IdOf);
  }

  /** `handleEdit(contact)` as written: the stored values are copied into the form unchanged. */
  method HandleEdit(p: Page<Contact, ContactForm>, c: Contact)
    modifies p
    ensures p.editing == Some(c) && p.isDialogOpen && p.invalidated == old(p.invalidated)
    ensures p.formData == EditFormAsWritten(c)
  {
    p.HandleEdit(c, EditFormAsWritten(c));
  }

  /** `handleEdit(contact)` with the corrected phone pre-fill, which drops the stored `+91`. */
  method HandleEditCorrected(p: Page<Contact, ContactForm>, c: Contact)
    modifies p
    ensures p.editing == Some(c) && p.isDialogOpen && p.invalidated == old(p.invalidated)
    ensures p.formData == EditForm(c)
  {
    p.HandleEdit(c, EditForm(c));
  }

  /** The type select changes the form in place. */
  method HandleKindChange(p: Page<Contact, ContactForm>, k: ContactKind)
    modifies p`formData
    ensures p.formData.kind == k
    ensures p.formData.platform == (if k == Social then old(p.formData.platform) else None)
    ensures p.formData.handleOrUrl == old(p.formData.handleOrUrl) && p.formData.value == old(p.formData.value)
  {
    p.SetForm(ChangeKind(p.formData, k));
  }

  /**
   * The inputs carrying `required` are the handle (shown for a social entry) and the value (shown
   * for an e-mail address or a phone number); the platform select carries none. While the shown
   * required input is empty, the browser's form validation stops the submit event and
   * `handleSubmit` never runs.
   */
  predicate RequiredFilled(f: ContactForm) {
    (f.kind == Social ==> f.handleOrUrl != "") && (f.kind != Social ==> f.value != "")
  }

  /**
   * The untouched form is stopped by the browser before `validateForm` can ask for a platform,
   * and so is an empty phone number before its digits are counted.
   */
  lemma DefaultFormBlocked(pl: Option<Platform>, h: string)
    ensures !RequiredFilled(DefaultForm()) && Validate(DefaultForm()) == Some(PlatformMissing)
    ensures !RequiredFilled(ContactForm(Phone, pl, h, ""))
  {
  }

  /** What pressing the submit button does. */
  datatype SubmitOutcome =
    | Blocked                                   // the browser stopped the submit event
    | Rejected(error: FormError)                // `validateForm` failed: a toast, no mutation
    | Sent(request: Request<ContactForm>)       // a mutation was fired

  /**
   * Submitting the dialog: the browser stops a form whose shown required input is empty; then
   * `handleSubmit` rejects an invalid form and fires no mutation; a valid one is sent, shaped by
   * `ToPayload`, as an update of the edit target or as a create.
   */
  method HandleSubmit(p: Page<Contact, ContactForm>) returns (out: SubmitOutcome)
    ensures out.Blocked? <==> !RequiredFilled(p.formData)
    ensures out.Rejected? <==> RequiredFilled(p.formData) && Validate(p.formData).Some?
    ensures out.Rejected? ==> out.error == Validate(p.formData).value
    ensures out.Sent? ==> out.request.payload == ToPayload(p.formData)
    ensures out.Sent? ==> (out.request.Update? <==> p.editing.Some?)
    ensures out.Sent? && out.request.Update? ==> out.request.id == p.idOf(p.editing.value)
  {
    if !RequiredFilled(p.formData) {
      return Blocked;
    }
    var err := Validate(p.formData);
    if err.Some? {
      return Rejected(err.value);
    }
    var req := p.Submit(ToPayload(p.formData));
    out := Sent(req);
  }
}
