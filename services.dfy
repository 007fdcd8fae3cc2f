/**
 * The services management page. Bullet points are edited as one line per point and keywords as a
 * comma-separated line; each keystroke parses the text back into the list, and the list is shown
 * again joined, so the pair below is a serialiser and its parser.
 */
module Services {
  import opened Wrappers
  import opened Text
  import Seqs
  import opened CrudPage

  datatype Service = Service(
    id: Id,
    title: string,
    shortDescription: string,
    bulletPoints: Option<seq<string>>,
    keywords: Option<seq<string>>,
    imageUrl: Option<string>,
    createdAt: string)

  datatype ServiceForm = ServiceForm(
    title: string,
    shortDescription: string,
    bulletPoints: seq<string>,
    keywords: seq<string>,
    imageUrl: string)

  function IdOf(s: Service): Id { s.id }

  function DefaultForm(): ServiceForm { ServiceForm("", "", [], [], "") }

  function EditForm(s: Service): ServiceForm {
    ServiceForm(s.title, s.shortDescription, s.bulletPoints.GetOr([]), s.keywords.GetOr([]), s.imageUrl.GetOr(""))
  }

  // ----- the list <-> text encodings -----

  /** `filter(Boolean)` on strings keeps the non-empty ones. */
  predicate IsNonEmpty(s: string) { s != "" }

  predicate IsOneLine(b: string) { '\n' !in b }

  /** A bullet point the text area can carry: non-empty and on one line. */
  predicate IsBulletLine(b: string) { b != "" && '\n' !in b }

  /** A keyword the input can carry: non-empty, trimmed and free of commas. */
  predicate IsKeyword(k: string) { k != "" && IsTrimmed(k) && ',' !in k }

  /** The text area's value: `bullet_points.join('\n')`. */
  function BulletsText(bullets: seq<string>): string {
    Join(bullets, "\n")
  }

  /** The text area's `onChange`: `split('\n').filter(Boolean)`. */
  function ParseBullets(text: string): (bullets: seq<string>)
    ensures forall i :: 0 <= i < |bullets| ==> IsBulletLine(bullets[i])
  {
    var lines := Split(text, '\n');
    Seqs.FilterKeepsProperty(lines, IsNonEmpty, IsOneLine);
    Seqs.Filter(lines, IsNonEmpty)
  }

  /** The input's value: `keywords.join(', ')`. */
  function KeywordsText(keywords: seq<string>): string {
    Join(keywords, ", ")
  }

  /** A piece of the keyword text after trimming: trimmed and free of commas. */
  predicate IsTrimmedPiece(k: string) { IsTrimmed(k) && ',' !in k }

  /** `split(',').map(k => k.trim())`. */
  function TrimmedPieces(text: string): (pieces: seq<string>)
    ensures |pieces| == |Split(text, ',')|
    ensures forall i :: 0 <= i < |pieces| ==> IsTrimmedPiece(pieces[i])
  {
    var parts := Split(text, ',');
    var r := Seqs.Map(parts, Trim);
    Seqs.MapElems(parts, Trim);
    forall i | 0 <= i < |r|
      ensures IsTrimmedPiece(r[i])
    {
      TrimAddsNothing(parts[i], ',');
    }
    r
  }

  /** Each piece is the trimmed comma-separated part at the same position. */
  lemma TrimmedPiecesTrimEachPart(text: string)
    ensures forall i :: 0 <= i < |TrimmedPieces(text)| ==> TrimmedPieces(text)[i] == Trim(Split(text, ',')[i])
  {
    Seqs.MapElems(Split(text, ','), Trim);
  }

  /** The input's `onChange`: `split(',').map(k => k.trim()).filter(Boolean)`. */
  function ParseKeywords(text: string): (keywords: seq<string>)
    ensures forall i :: 0 <= i < |keywords| ==> IsKeyword(keywords[i])
  {
    var pieces := TrimmedPieces(text);
    Seqs.FilterKeepsProperty(pieces, IsNonEmpty, IsTrimmedPiece);
    Seqs.Filter(pieces, IsNonEmpty)
  }

  /** Showing a list of proper bullet points and reading the text back gives the same list. */
  lemma BulletsRoundTrip(bullets: seq<string>)
    requires forall i :: 0 <= i < |bullets| ==> IsBulletLine(bullets[i])
    ensures ParseBullets(BulletsText(bullets)) == bullets
  {
    if bullets != [] {
      SplitJoin(bullets, '\n');
      Seqs.FilterKeepsAll(bullets, IsNonEmpty);
    }
  }

  /** Parsing what is shown of a parsed text gives the same list again. */
  lemma BulletsIdempotent(text: string)
    ensures ParseBullets(BulletsText(ParseBullets(text))) == ParseBullets(text)
  {
    BulletsRoundTrip(ParseBullets(text));
  }

  /** White space before a piece is trimmed away. */
  lemma TrimmedPiecesLeadingSpace(text: string)
    ensures TrimmedPieces(" " + text) == TrimmedPieces(text)
  {
    var parts, spaced := Split(text, ','), Split(" " + text, ',');
    assert (" " + text)[0] == ' ' && (" " + text)[1..] == text;
    assert spaced == [[' '] + parts[0]] + parts[1..];
    TrimLeadingSpace(' ', parts[0]);
    assert spaced[1..] == parts[1..];
    assert Seqs.Map(spaced, Trim) == [Trim(spaced[0])] + Seqs.Map(spaced[1..], Trim);
    assert Seqs.Map(parts, Trim) == [Trim(parts[0])] + Seqs.Map(parts[1..], Trim);
  }

  /** A comma after a comma-free prefix closes the first piece. */
  lemma TrimmedPiecesAfterComma(a: string, b: string)
    requires ',' !in a
    ensures TrimmedPieces(a + [','] + b) == [Trim(a)] + TrimmedPieces(b)
  {
    SplitAfterSep(a, b, ',');
    var parts := Split(b, ',');
    assert ([a] + parts)[1..] == parts;
    assert Seqs.Map([a] + parts, Trim) == [Trim(a)] + Seqs.Map(parts, Trim);
  }

  /** A lone keyword parses to itself. */
  lemma ParseOneKeyword(k: string)
    requires IsKeyword(k)
    ensures ParseKeywords(k) == [k]
  {
    SplitWithoutSep(k, ',');
    TrimTrimmed(k);
    assert TrimmedPieces(k) == [k];
  }

  /** A keyword followed by `", "` contributes itself to the parse of the rest. */
  lemma ParseKeywordThenRest(k: string, tail: string)
    requires IsKeyword(k)
    ensures ParseKeywords(k + ", " + tail) == [k] + ParseKeywords(tail)
  {
    assert k + ", " + tail == k + [','] + (" " + tail);
    TrimmedPiecesAfterComma(k, " " + tail);
    TrimmedPiecesLeadingSpace(tail);
    TrimTrimmed(k);
    var pieces := TrimmedPieces(tail);
    assert ([k] + pieces)[0] == k && ([k] + pieces)[1..] == pieces;
  }

  /** Showing a list of proper keywords and reading the text back gives the same list. */
  lemma {:induction false} KeywordsRoundTrip(keywords: seq<string>)
    requires forall i :: 0 <= i < |keywords| ==> IsKeyword(keywords[i])
    ensures ParseKeywords(KeywordsText(keywords)) == keywords
    decreases |keywords|
  {
    if |keywords| == 1 {
      ParseOneKeyword(keywords[0]);
    } else if |keywords| > 1 {
      var k, rest := keywords[0], keywords[1..];
      KeywordsRoundTrip(rest);
      var tail := KeywordsText(rest);
      KeywordsTextCons(keywords);
      ParseKeywordThenRest(k, tail);
      calc {
        ParseKeywords(KeywordsText(keywords));
        ParseKeywords(k + ", " + tail);
        [k] + ParseKeywords(tail);
        [k] + rest;
        keywords;
      }
    }
  }

  /** The shown text of two or more keywords: the first, `", "` and the text of the rest. */
  lemma KeywordsTextCons(keywords: seq<string>)
    requires |keywords| > 1
    ensures KeywordsText(keywords) == keywords[0] + ", " + KeywordsText(keywords[1..])
  {
  }

  /** Parsing what is shown of parsed keywords gives the same keywords again. */
  lemma KeywordsIdempotent(text: string)
    ensures ParseKeywords(KeywordsText(ParseKeywords(text))) == ParseKeywords(text)
  {
    KeywordsRoundTrip(ParseKeywords(text));
  }

  /**
   * A separator typed at the end of either field is lost: the text parses to the list it
   * parsed to before, which is then shown again without the separator.
   */
  lemma TrailingSeparatorIgnored(text: string)
    ensures ParseBullets(text + "\n") == ParseBullets(text)
    ensures ParseKeywords(text + ",") == ParseKeywords(text)
  {
    BulletsTrailingNewline(text);
    KeywordsTrailingComma(text);
  }

  lemma BulletsTrailingNewline(text: string)
    ensures ParseBullets(text + "\n") == ParseBullets(text)
  {
    SplitTrailingSep(text, '\n');
    Seqs.FilterAppend(Split(text, '\n'), [""], IsNonEmpty);
  }

  lemma KeywordsTrailingComma(text: string)
    ensures ParseKeywords(text + ",") == ParseKeywords(text)
  {
    var parts := Split(text, ',');
    SplitTrailingSep(text, ',');
    var trimmed := Seqs.Map(parts, Trim);
    assert Seqs.Map(parts + [""], Trim) == trimmed + [""] by {
      assert Seqs.Map([""], Trim) == [Trim("")] == [""];
      Seqs.MapAppend(parts, [""], Trim);
    }
    Seqs.FilterAppend(trimmed, [""], IsNonEmpty);
  }

  /** One step of `split`: the first character either starts a new piece or joins the first one. */
  lemma SplitCons(s: string, sep: char)
    requires s != []
    ensures var rest := Split(s[1..], sep);
      Split(s, sep) == if s[0] == sep then [""] + rest else [[s[0]] + rest[0]] + rest[1..]
  {
  }

  /** A trailing separator adds one empty piece. */
  lemma {:induction false} SplitTrailingSep(s: string, sep: char)
    ensures Split(s + [sep], sep) == Split(s, sep) + [""]
    decreases |s|
  {
    if s == [] {
      assert Split([sep], sep) == [""] + Split([], sep);
    } else {
      var tail := s[1..];
      SplitTrailingSep(tail, sep);
      assert (s + [sep])[1..] == tail + [sep];
      SplitCons(s + [sep], sep);
    }
  }

  // ----- search -----

  /** Some entry of an optional list contains the (lower-cased) query, ignoring case. */
  predicate SomeContains(entries: Option<seq<string>>, q: string) {
    entries.Some? && exists e :: e in entries.value && Contains(Lower(e), q)
  }

  /** The search box keeps a service whose title, description, a bullet point or a keyword contains the query. */
  predicate MatchesSearch(s: Service, query: string) {
    var q := Lower(query);
    || Contains(Lower(s.title), q)
    || Contains(Lower(s.shortDescription), q)
    || SomeContains(s.bulletPoints, q)
    || SomeContains(s.keywords, q)
  }

  /**
   * The search ignores the query's case: a query matches exactly as its lower-cased form does,
   * and a title or description holding the query as typed is found.
   */
  lemma SearchIgnoresCase(s: Service, query: string)
    ensures MatchesSearch(s, query) <==> MatchesSearch(s, Lower(query))
    ensures Contains(s.title, query) || Contains(s.shortDescription, query) ==> MatchesSearch(s, query)
    ensures EqualIgnoringCase(s.title, query) ==> MatchesSearch(s, query)
  {
    LowerIdempotent(query);
    if EqualIgnoringCase(s.title, query) {
      LowerEqualIgnoringCase(s.title, query);
    }
    if Contains(s.title, query) {
      ContainsLower(s.title, query);
    }
    if Contains(s.shortDescription, query) {
      ContainsLower(s.shortDescription, query);
    }
  }

  /** `filteredServices`. */
  function FilterServices(services: seq<Service>, query: string): (shown: seq<Service>)
    ensures |shown| <= |services| && Seqs.IsSubsequence(shown, services)
    ensures forall s :: s in shown <==> s in services && MatchesSearch(s, query)
    ensures forall s :: multiset(shown)[s] == if MatchesSearch(s, query) then multiset(services)[s] else 0
  {
    var keep := (s: Service) => MatchesSearch(s, query);
    Seqs.FilterIsSubsequence(services, keep);
    Seqs.FilterMembers(services, keep);
    Seqs.FilterCounts(services, keep);
    Seqs.Filter(services, keep)
  }

  /** An empty search shows every service. */
  lemma FilterServicesEmptyQuery(services: seq<Service>)
    ensures FilterServices(services, "") == services
  {
    Seqs.FilterKeepsAll(services, s => MatchesSearch(s, ""));
  }

  const NoServicesYet := "No services added yet"
  const NoServicesMatch := "No services match your search"

  /** The placeholder row of the services table. */
  function EmptyState(services: seq<Service>, query: string): (msg: Option<string>)
    ensures msg.Some? <==> FilterServices(services, query) == []
    ensures msg == Some(NoServicesYet) <==> services == []
    ensures msg == Some(NoServicesMatch) <==> services != [] && FilterServices(services, query) == []
  {
    EmptyRowMessage(|services|, |FilterServices(services, query)|, NoServicesYet, NoServicesMatch)
  }

  // ----- the dialog -----

  method Mount() returns (p: Page<Service, ServiceForm>)
    ensures fresh(p) && p.defaults == DefaultForm() && p.idOf == IdOf
    ensures !p.isDialogOpen && p.editing == None && p.formData == DefaultForm() && !p.invalidated
  {
    p := new Page(DefaultForm(), IdOf);
  }

  /** `handleEdit(service)`: absent lists become `[]` and an absent image URL becomes `''`. */
  method HandleEdit(p: Page<Service, ServiceForm>, s: Service)
    modifies p
    ensures p.editing == Some(s) && p.isDialogOpen && p.invalidated == old(p.invalidated)
    ensures p.formData.title == s.title && p.formData.shortDescription == s.shortDescription
    ensures p.formData.bulletPoints == (if s.bulletPoints.Some? then s.bulletPoints.value else [])
    ensures p.formData.keywords == (if s.keywords.Some? then s.keywords.value else [])
    ensures p.formData.imageUrl == (if s.imageUrl.Some? then s.imageUrl.value else "")
  {
    p.HandleEdit(s, EditForm(s));
  }

  /** The bullet-point text area's `onChange`. */
  method OnBulletsInput(p: Page<Service, ServiceForm>, text: string)
    modifies p`formData
    ensures p.formData == old(p.formData).(bulletPoints := ParseBullets(text))
  {
    p.SetForm(p.formData.(bulletPoints := ParseBullets(text)));
  }

  /** The keyword input's `onChange`. */
  method OnKeywordsInput(p: Page<Service, ServiceForm>, text: string)
    modifies p`formData
    ensures p.formData == old(p.formData).(keywords := ParseKeywords(text))
  {
    p.SetForm(p.formData.(keywords := ParseKeywords(text)));
  }

  /**
   * Title and short description carry `required`: while either is empty, the browser's form
   * validation stops the submit event and `handleSubmit` never runs. The lists are not required.
   */
  predicate RequiredFilled(f: ServiceForm) {
    f.title != "" && f.shortDescription != ""
  }

  /** The untouched create form cannot be submitted; a stored service with both texts can be saved again. */
  lemma DefaultFormBlocked(s: Service)
    ensures !RequiredFilled(DefaultForm())
    ensures RequiredFilled(EditForm(s)) <==> s.title != "" && s.shortDescription != ""
  {
  }

  /**
   * Submitting the dialog: nothing is sent while a required input is empty; otherwise
   * `handleSubmit` sends the form unchanged, as an update of the target or as a create.
   */
  method HandleSubmit(p: Page<Service, ServiceForm>) returns (req: Option<Request<ServiceForm>>)
    ensures req.Some? <==> RequiredFilled(p.formData)
    ensures req.Some? ==> req.value.payload == p.formData
    ensures req.Some? ==> (req.value.Update? <==> p.editing.Some?)
    ensures req.Some? && req.value.Update? ==> req.value.id == p.idOf(p.editing.value)
  {
    if !RequiredFilled(p.formData) {
      return None;
    }
    var r := p.Submit(p.formData);
    req := Some(r);
  }
}
