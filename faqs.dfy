/** The FAQ management page: a question/answer form and a free-text search. */
module FAQs {
  import opened Wrappers
  import opened Text
  import Seqs
  import opened CrudPage

  datatype FAQ = FAQ(id: Id, question: string, answer: string, createdAt: string)

  datatype FAQForm = FAQForm(question: string, answer: string)

  function IdOf(f: FAQ): Id { f.id }

  function DefaultForm(): FAQForm { FAQForm("", "") }

  function EditForm(f: FAQ): FAQForm { FAQForm(f.question, f.answer) }

  /** The search box keeps an FAQ whose question or answer contains the query, ignoring case. */
  predicate MatchesSearch(f: FAQ, query: string) {
    var q := Lower(query);
    Contains(Lower(f.question), q) || Contains(Lower(f.answer), q)
  }

  /**
   * The search ignores the query's case: a query matches exactly as its lower-cased form does,
   * and a question or answer holding the query as typed is found.
   */
  lemma SearchIgnoresCase(f: FAQ, query: string)
    ensures MatchesSearch(f, query) <==> MatchesSearch(f, Lower(query))
    ensures Contains(f.question, query) || Contains(f.answer, query) ==> MatchesSearch(f, query)
    ensures EqualIgnoringCase(f.question, query) ==> MatchesSearch(f, query)
  {
    LowerIdempotent(query);
    if EqualIgnoringCase(f.question, query) {
      LowerEqualIgnoringCase(f.question, query);
    }
    if Contains(f.question, query) {
      ContainsLower(f.question, query);
    }
    if Contains(f.answer, query) {
      ContainsLower(f.answer, query);
    }
  }

  /** For one: searching "faq" finds the question "FAQ". */
  lemma LowerCaseQueryFindsCapitals(id: Id, answer: string, createdAt: string)
    ensures MatchesSearch(FAQ(id, "FAQ", answer, createdAt), "faq")
  {
    assert EqualIgnoringCase("FAQ", "faq") by {
      assert SameLetterIgnoringCase('F', 'f') && SameLetterIgnoringCase('A', 'a') && SameLetterIgnoringCase('Q', 'q');
    }
    SearchIgnoresCase(FAQ(id, "FAQ", answer, createdAt), "faq");
  }

  /** `filteredFAQs`. */
  function FilterFAQs(faqs: seq<FAQ>, query: string): (shown: seq<FAQ>)
    ensures |shown| <= |faqs| && Seqs.IsSubsequence(shown, faqs)
    ensures forall f :: f in shown <==> f in faqs && MatchesSearch(f, query)
    ensures forall f :: multiset(shown)[f] == if MatchesSearch(f, query) then multiset(faqs)[f] else 0
  {
    var keep := (f: FAQ) => MatchesSearch(f, query);
    Seqs.FilterIsSubsequence(faqs, keep);
    Seqs.FilterMembers(faqs, keep);
    Seqs.FilterCounts(faqs, keep);
    Seqs.Filter(faqs, keep)
  }

  /** An empty search shows every FAQ. */
  lemma FilterFAQsEmptyQuery(faqs: seq<FAQ>)
    ensures FilterFAQs(faqs, "") == faqs
  {
    Seqs.FilterKeepsAll(faqs, f => MatchesSearch(f, ""));
  }

  const NoFAQsYet := "No FAQs added yet"
  const NoFAQsMatch := "No FAQs match your search"

  /** The placeholder row of the FAQ table. */
  function EmptyState(faqs: seq<FAQ>, query: string): (msg: Option<string>)
    ensures msg.Some? <==> FilterFAQs(faqs, query) == []
    ensures msg == Some(NoFAQsYet) <==> faqs == []
    ensures msg == Some(NoFAQsMatch) <==> faqs != [] && FilterFAQs(faqs, query) == []
  {
    EmptyRowMessage(|faqs|, |FilterFAQs(faqs, query)|, NoFAQsYet, NoFAQsMatch)
  }

  /**
   * A placeholder is shown exactly when no FAQ is listed; it says "No FAQs added yet" exactly when
   * there are no FAQs, and "No FAQs match your search" exactly when FAQs exist but none matches.
   */
  lemma EmptyStateChoice(faqs: seq<FAQ>, query: string)
    ensures EmptyState(faqs, query).Some? <==> forall i :: 0 <= i < |faqs| ==> !MatchesSearch(faqs[i], query)
    ensures EmptyState(faqs, query) == Some(NoFAQsYet) <==> faqs == []
    ensures EmptyState(faqs, query) == Some(NoFAQsMatch) <==> faqs != [] && FilterFAQs(faqs, query) == []
  {
    Seqs.FilterEmptyIffNoneMatch(faqs, f => MatchesSearch(f, query));
  }

  /** The page as first rendered: dialog closed, empty form, no edit target. */
  method Mount() returns (p: Page<FAQ, FAQForm>)
    ensures fresh(p) && p.defaults == DefaultForm() && p.idOf == IdOf
    ensures !p.isDialogOpen && p.editing == None && p.formData == DefaultForm() && !p.invalidated
  {
    p := new Page(DefaultForm(), IdOf);
  }

  /** `handleEdit(faq)`: the FAQ becomes the target, its question and answer fill the form. */
  method HandleEdit(p: Page<FAQ, FAQForm>, f: FAQ)
    modifies p
    ensures p.editing == Some(f) && p.isDialogOpen
    ensures p.formData.question == f.question && p.formData.answer == f.answer
    ensures p.invalidated == old(p.invalidated)
  {
    p.HandleEdit(f, EditForm(f));
  }

  /**
   * Both inputs carry `required`: while either is empty, the browser's form validation stops the
   * submit event and `handleSubmit` never runs.
   */
  predicate RequiredFilled(f: FAQForm) {
    f.question != "" && f.answer != ""
  }

  /** The untouched form cannot be submitted. */
  lemma DefaultFormBlocked()
    ensures !RequiredFilled(DefaultForm())
  {
  }

  /**
   * Submitting the dialog: nothing is sent while a required input is empty; otherwise
   * `handleSubmit` sends the form unchanged, as an update of the target or as a create.
   */
  method HandleSubmit(p: Page<FAQ, FAQForm>) returns (req: Option<Request<FAQForm>>)
    ensures req.Some? <==> RequiredFilled(p.formData)
    ensures req.Some? ==> req.value.payload == p.formData
    ensures req.Some? ==> (req.value.Update? <==> p.editing.Some?)
    ensures req.Some? && req.value.Update? ==> req.value.id == p.idOf(p.editing.value)
  {
    if !RequiredFilled(p.formData) {
      return None;
    }
    var r := p.Submit(p.formData);
    req := Some(r);
  }
}
