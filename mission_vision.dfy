/** The mission, vision and story page: one form for all three kinds, and one table per kind. */
module MissionVision {
  import opened Wrappers
  import Seqs
  import opened CrudPage

  /** The source's `type` field. */
  datatype Kind = Mission | Vision | Story

  datatype Item = Item(id: Id, kind: Kind, title: Option<string>, content: string, createdAt: string)

  datatype ItemForm = ItemForm(kind: Kind, title: string, content: string)

  /** What `handleSubmit` sends: the form with a nullable title. */
  datatype ItemPayload = ItemPayload(kind: Kind, title: Option<string>, content: string)

  function IdOf(it: Item): Id { it.id }

  function DefaultForm(): ItemForm { ItemForm(Mission, "", "") }

  function EditForm(it: Item): ItemForm { ItemForm(it.kind, it.title.GetOr(""), it.content) }

  /** The submitted data: a story never carries a title; kind and content pass through. */
  function Payload(f: ItemForm): (d: ItemPayload)
    ensures d.kind == f.kind && d.content == f.content
    ensures d.title.None? <==> f.kind == Story
    ensures d.title.Some? ==> d.title.value == f.title
  {
    ItemPayload(f.kind, if f.kind == Story then None else Some(f.title), f.content)
  }

  /** The type select's `onValueChange`: only the kind changes. */
  function ChangeKind(f: ItemForm, k: Kind): ItemForm {
    f.(kind := k)
  }

  /**
   * Switching to "story" hides the title without clearing it: the story is submitted without a
   * title, and switching back to the previous kind restores the form exactly.
   */
  lemma StoryDetourKeepsTitle(f: ItemForm)
    ensures Payload(ChangeKind(f, Story)).title == None
    ensures ChangeKind(ChangeKind(f, Story), f.kind) == f
  {
  }

  /**
   * Opening a stored item that has a title exactly when it is not a story, and submitting it
   * unchanged, gives back the item's own payload. The browser lets it through exactly when its
   * content is non-empty and, unless it is a story, its title is too.
   */
  lemma EditThenSubmitUnchanged(it: Item)
    requires it.title.None? <==> it.kind == Story
    ensures Payload(EditForm(it)) == ItemPayload(it.kind, it.title, it.content)
    ensures RequiredFilled(EditForm(it)) <==> it.content != "" && (it.kind != Story ==> it.title != Some(""))
  {
  }

  /** One of the three tables: the items of one kind, in list order. */
  function OfKind(items: seq<Item>, k: Kind): (r: seq<Item>)
    ensures |r| <= |items| && Seqs.IsSubsequence(r, items)
    ensures forall it :: it in r <==> it in items && it.kind == k
  {
    var keep := (it: Item) => it.kind == k;
    Seqs.FilterIsSubsequence(items, keep);
    Seqs.FilterMembers(items, keep);
    Seqs.Filter(items, keep)
  }

  /**
   * The missions, visions and stories tables together hold every item exactly as often as the
   * list does, and each item sits in the table of its own kind only.
   */
  lemma PartitionByKind(items: seq<Item>)
    ensures multiset(OfKind(items, Mission)) + multiset(OfKind(items, Vision)) + multiset(OfKind(items, Story))
         == multiset(items)
    ensures forall it :: it in items ==> it in OfKind(items, it.kind)
    ensures forall it, k :: it in OfKind(items, k) ==> k == it.kind
  {
    var m, v, s := (it: Item) => it.kind == Mission, (it: Item) => it.kind == Vision, (it: Item) => it.kind == Story;
    Seqs.FilterCounts(items, m);
    Seqs.FilterCounts(items, v);
    Seqs.FilterCounts(items, s);
    assert OfKind(items, Mission) == Seqs.Filter(items, m);
    assert OfKind(items, Vision) == Seqs.Filter(items, v);
    assert OfKind(items, Story) == Seqs.Filter(items, s);
    var lhs := multiset(OfKind(items, Mission)) + multiset(OfKind(items, Vision)) + multiset(OfKind(items, Story));
    forall it ensures lhs[it] == multiset(items)[it] {
    }
  }

  method Mount() returns (p: Page<Item, ItemForm>)
    ensures fresh(p) && p.defaults == DefaultForm() && p.idOf == IdOf
    ensures !p.isDialogOpen && p.editing == None && p.formData == DefaultForm() && !p.invalidated
  {
    p := new Page(DefaultForm(), IdOf);
  }

  /** `handleEdit(item)`: kind and content are copied, an absent title becomes `''`. */
  method HandleEdit(p: Page<Item, ItemForm>, it: Item)
    modifies p
    ensures p.editing == Some(it) && p.isDialogOpen && p.invalidated == old(p.invalidated)
    ensures p.formData.kind == it.kind && p.formData.content == it.content
    ensures p.formData.title == (if it.title.Some? then it.title.value else "")
  {
    p.HandleEdit(it, EditForm(it));
  }

  /** The type select: title and content in the form are left as typed. */
  method HandleKindChange(p: Page<Item, ItemForm>, k: Kind)
    modifies p`formData
    ensures p.formData.kind == k
    ensures p.formData.title == old(p.formData.title) && p.formData.content == old(p.formData.content)
  {
    p.SetForm(ChangeKind(p.formData, k));
  }

  /**
   * The content carries `required`, and so does the title while its input is shown, which is for
   * every kind but "story": while a required input is empty, the browser's form validation stops
   * the submit event and `handleSubmit` never runs.
   */
  predicate RequiredFilled(f: ItemForm) {
    (f.kind != Story ==> f.title != "") && f.content != ""
  }

  /** The untouched create form, a mission with no title or content, cannot be submitted. */
  lemma DefaultFormBlocked()
    ensures !RequiredFilled(DefaultForm())
  {
  }

  /**
   * Whatever gets past the browser is sent with content, and with a non-empty title unless it is
   * a story; a story is sent even when the hidden title is empty.
   */
  lemma SentPayloadFilled(f: ItemForm)
    requires RequiredFilled(f)
    ensures Payload(f).content != ""
    ensures Payload(f).title.Some? ==> Payload(f).title.value != ""
    ensures RequiredFilled(ChangeKind(f.(title := ""), Story))
  {
  }

  /**
   * Submitting the dialog: nothing is sent while a shown required input is empty; otherwise the
   * payload goes to update when an item is being edited, to create otherwise.
   */
  method HandleSubmit(p: Page<Item, ItemForm>) returns (req: Option<Request<ItemPayload>>)
    ensures req.Some? <==> RequiredFilled(p.formData)
    ensures req.Some? ==> req.value.payload == Payload(p.formData)
    ensures req.Some? ==> (req.value.Update? <==> p.editing.Some?)
    ensures req.Some? && req.value.Update? ==> req.value.id == p.idOf(p.editing.value)
  {
    if !RequiredFilled(p.formData) {
      return None;
    }
    var r := p.Submit(Payload(p.formData));
    req := Some(r);
  }
}
