# Admin panel form and list logic, in Dafny

This project models the part of the admin back-office that is logic rather than wiring. The
back-office is a single-page application for editing a marketing site's FAQs, services, social
contacts, mission/vision/story texts and trainings. Each management page keeps a dialog state
machine (`isDialogOpen`, the record being edited, `formData`). It validates and shapes the form
before a remote create or update. It also filters the cached list on the client. The training
dialog keeps a form that is reset whenever the dialog opens or closes.

Modules:

- `Wrappers`: `Option`, for the nullable fields.
- `Seqs`: order-preserving `Filter` (`Array.prototype.filter`), `Map` (`Array.prototype.map`) and
  `IsSubsequence`, with lemmas for membership, multiplicities, concatenation and the
  keep-everything case.
- `Text`: ASCII `toLowerCase`, `includes`, `split`, `join`, `trim`, and `replace(/\D/g, '')`.
- `CrudPage`: the dialog state machine every page shares, as the class `Page<R, F>`. Remote calls
  are not made. A submit returns the `Request` (create, or update with the target's id) that the
  page would send, and `SettleSave`/`SettleDelete` take the call's outcome. The `invalidated` flag
  records that the list query was invalidated after a success.
- `FAQs`, `Services`, `MissionVision`, `SocialContacts`: one module per page. Each has its record
  and form types, its pure rules, and its `Mount`/`HandleEdit`/`HandleSubmit` over a `Page`.
- `Trainings`: the training form dialog. Its defaults, pre-fill and validators are functions, and
  its form state is the class `TrainingForm`.

Notes on the code:

- The mission/vision page itself sets a story's title to null before sending it.
- A failed save is reported only by a toast, and the dialog keeps its values.
- The link pattern is `^https?://.+`, so at least one character must follow the scheme.
- Record shapes follow what the pages use at run time (`type`, `value`, `title`). They do not
  follow `src/types/index.ts`, which declares different fields.

## Model

| member | source | states |
|---|---|---|
| `CrudPage.Page.constructor` | src/pages/faqs/FAQsPage.tsx:27-32 | A page starts with the dialog closed, no edit target and the default form. |
| `CrudPage.Page.ResetForm` | src/pages/faqs/FAQsPage.tsx:94-100 | `resetForm` restores the defaults and clears the edit target. The dialog flag does not change. |
| `CrudPage.Page.OpenCreate` | src/pages/social-contacts/SocialContactsPage.tsx:205-211 | The Add button resets the form, clears the target and opens the dialog. |
| `CrudPage.Page.HandleEdit` | src/pages/faqs/FAQsPage.tsx:114-121 | Editing sets the target, fills the form and opens the dialog. |
| `CrudPage.Page.SetDialogOpen` | src/pages/services/ServicesPage.tsx:148 | Closing the dialog by itself does not reset the form. |
| `CrudPage.Page.SetForm` | src/pages/faqs/FAQsPage.tsx:155-157 | An input's `onChange` replaces the form with the new value. The dialog flag, the edit target and the list state do not change. |
| `CrudPage.Page.Submit` | src/pages/faqs/FAQsPage.tsx:102-112 | Submit sends an update with the target's id exactly when a target is set, and a create otherwise. The payload passes through unchanged. |
| `CrudPage.Page.SettleSave` | src/pages/faqs/FAQsPage.tsx:53-80 | On success the list is invalidated, the dialog closes and the form resets. On failure nothing in the state changes. |
| `CrudPage.Page.HandleDelete` | src/pages/faqs/FAQsPage.tsx:123-127 | A delete request is issued exactly when the confirmation is accepted, for that id. |
| `CrudPage.Page.SettleDelete` | src/pages/faqs/FAQsPage.tsx:82-92 | A delete's success invalidates the list. A failure changes nothing. |
| `CrudPage.EmptyRowMessage` | src/pages/faqs/FAQsPage.tsx:236-242 | A placeholder appears exactly when no row is shown. It is the "none yet" text exactly when the list is empty, and the "no match" text otherwise. |
| `Text.ContainsIffOccurs` | src/pages/faqs/FAQsPage.tsx:48-49 | The recursive `includes` holds exactly when the query occurs at some position. |
| `Text.ContainsThenOccurs` | src/pages/faqs/FAQsPage.tsx:48-49 | A query that `includes` finds occurs at some position of the text. |
| `Text.OccursThenContains` | src/pages/faqs/FAQsPage.tsx:48-49 | A query that occurs at some position of the text is found by `includes`. |
| `Text.ContainsLower` | src/pages/faqs/FAQsPage.tsx:46-49 | An occurrence of the query survives lower-casing both the text and the query. |
| `Text.LowerEqualIgnoringCase` | src/pages/faqs/FAQsPage.tsx:46-49 | Two texts that differ only in the case of letters lower-case to the same text, so each is found by the other. |
| `Text.LowerIdempotent` | src/pages/faqs/FAQsPage.tsx:46 | Lower-casing is idempotent and leaves no upper-case letter. |
| `Text.JoinSplit` | src/pages/services/ServicesPage.tsx:187-191 | Joining the pieces of `split(sep)` with `sep` gives back the text. |
| `Text.SplitJoin` | src/pages/services/ServicesPage.tsx:187-191 | Splitting a join of separator-free pieces gives back the pieces. |
| `Text.Lower` | src/pages/faqs/FAQsPage.tsx:46 | Lower-casing keeps the length, turns each capital into its own lower-case letter and keeps every other character. |
| `Text.Contains` | src/pages/faqs/FAQsPage.tsx:48-49 | `includes` holds for the empty query and never for a query longer than the text. |
| `Text.Split` | src/pages/services/ServicesPage.tsx:191 | `split(sep)` yields at least one piece, and no piece holds `sep`. |
| `Text.Join` | src/pages/services/ServicesPage.tsx:187 | `join(sep)`. `JoinSplit` and `SplitJoin` make it the inverse of `split` on separator-free pieces. |
| `Text.Trim` | src/pages/services/ServicesPage.tsx:204 | `trim` leaves no white space at either end and never lengthens the text. `TrimCutsOnlySpace` says what it cuts. |
| `Text.TrimStartCutsSpace` | src/pages/services/ServicesPage.tsx:204 | Every character cut from the front is white space. |
| `Text.TrimEndCutsSpace` | src/pages/services/ServicesPage.tsx:204 | Every character cut from the back is white space. |
| `Text.TrimCutsOnlySpace` | src/pages/services/ServicesPage.tsx:204 | `trim(s)` is a contiguous slice of `s`. Everything before it and everything after it is white space. |
| `Text.DigitsOf` | src/pages/social-contacts/SocialContactsPage.tsx:134 | `replace(/\D/g, '')` keeps exactly the digit characters of the input, each as often as it occurs there, in the input's order. |
| `Text.TrimAddsNothing` | src/pages/services/ServicesPage.tsx:204 | Every character left by `trim` was in the input, so a trimmed piece of comma-split text holds no comma. |
| `FAQs.MatchesSearch` | src/pages/faqs/FAQsPage.tsx:45-51 | An FAQ matches iff the lower-cased query occurs in its lower-cased question or in its lower-cased answer. |
| `FAQs.SearchIgnoresCase` | src/pages/faqs/FAQsPage.tsx:45-51 | A query matches exactly as its lower-cased form does. A question or answer that holds the query as typed is found, and so is a question that spells the query in another case. |
| `FAQs.LowerCaseQueryFindsCapitals` | src/pages/faqs/FAQsPage.tsx:45-51 | The query "faq" finds the question "FAQ". |
| `FAQs.FilterFAQs` | src/pages/faqs/FAQsPage.tsx:45-51 | The result is an order-preserving subsequence and is no longer than the list. An FAQ is kept iff the lower-cased query occurs in its lower-cased question or answer. Each kept FAQ appears as often as in the list. |
| `FAQs.FilterFAQsEmptyQuery` | src/pages/faqs/FAQsPage.tsx:45-51 | An empty search keeps every FAQ. |
| `FAQs.EmptyState` | src/pages/faqs/FAQsPage.tsx:236-242 | A placeholder appears iff no FAQ matches. It is "No FAQs added yet" iff there are no FAQs, and "No FAQs match your search" iff FAQs exist but none matches. |
| `FAQs.EmptyStateChoice` | src/pages/faqs/FAQsPage.tsx:236-242 | The placeholder appears iff no FAQ in the list matches the search, and the two texts are chosen as in `EmptyState`. |
| `FAQs.Mount` | src/pages/faqs/FAQsPage.tsx:27-32 | The FAQ form defaults to an empty question and answer. |
| `FAQs.HandleEdit` | src/pages/faqs/FAQsPage.tsx:114-121 | Editing copies the question and answer, sets the target and opens the dialog. |
| `FAQs.DefaultFormBlocked` | src/pages/faqs/FAQsPage.tsx:150-171 | The untouched create form cannot be submitted: both required inputs are empty. |
| `FAQs.HandleSubmit` | src/pages/faqs/FAQsPage.tsx:102-112 | Nothing is sent iff the question or the answer is empty. Both inputs are `required` (lines 159 and 170), so the browser stops the submit. Otherwise the form is sent unchanged, as an update of the target's id or as a create. |
| `Services.BulletsText` | src/pages/services/ServicesPage.tsx:187 | The bullet area shows the bullets joined by `\n`. `BulletsRoundTrip` relates it to the parser. |
| `Services.KeywordsText` | src/pages/services/ServicesPage.tsx:200 | The keyword input shows the keywords joined by `", "`. `KeywordsRoundTrip` relates it to the parser. |
| `Services.TrimmedPieces` | src/pages/services/ServicesPage.tsx:204 | `split(',').map(k => k.trim())` gives one piece per comma-separated part. Each piece is trimmed and holds no comma. |
| `Services.TrimmedPiecesTrimEachPart` | src/pages/services/ServicesPage.tsx:204 | Each piece is the trimmed part at the same position of `split(',')`. |
| `Services.ParseBullets` | src/pages/services/ServicesPage.tsx:191 | Parsing the bullet text never yields an empty or multi-line bullet. |
| `Services.ParseKeywords` | src/pages/services/ServicesPage.tsx:204 | Parsed keywords are non-empty, trimmed and free of commas. |
| `Services.BulletsRoundTrip` | src/pages/services/ServicesPage.tsx:187-191 | Showing non-empty single-line bullets joined by `\n` and parsing the text back gives the same list. |
| `Services.BulletsIdempotent` | src/pages/services/ServicesPage.tsx:187-191 | Parse, join, parse equals parse for bullet text. |
| `Services.KeywordsRoundTrip` | src/pages/services/ServicesPage.tsx:200-204 | Showing proper keywords joined by `", "` and parsing the text back gives the same list. |
| `Services.KeywordsIdempotent` | src/pages/services/ServicesPage.tsx:200-204 | Parse, join, parse equals parse for keyword text. |
| `Services.TrailingSeparatorIgnored` | src/pages/services/ServicesPage.tsx:186-208 | A newline or comma typed at the end parses to the same list as before, so the re-rendered field drops it. |
| `Services.MatchesSearch` | src/pages/services/ServicesPage.tsx:48-56 | A service matches iff the lower-cased query occurs in its lower-cased title or description, or in some lower-cased bullet or keyword. A missing list matches nothing. |
| `Services.SearchIgnoresCase` | src/pages/services/ServicesPage.tsx:48-56 | A query matches exactly as its lower-cased form does. A title or description that holds the query as typed is found, and so is a title that spells the query in another case. |
| `Services.FilterServices` | src/pages/services/ServicesPage.tsx:48-56 | The result is an order-preserving subsequence. A service is kept iff the lower-cased query occurs in its title, description, some bullet or some keyword. Multiplicities are kept. |
| `Services.FilterServicesEmptyQuery` | src/pages/services/ServicesPage.tsx:48-56 | An empty search keeps every service. |
| `Services.EmptyState` | src/pages/services/ServicesPage.tsx:296-302 | A placeholder appears iff no service matches. It is "No services added yet" iff there are no services, and "No services match your search" iff services exist but none matches. |
| `Services.Mount` | src/pages/services/ServicesPage.tsx:27-35 | The form defaults to empty texts and empty lists. |
| `Services.HandleEdit` | src/pages/services/ServicesPage.tsx:122-132 | Editing copies title and description. Missing bullet points or keywords become `[]`, and a missing image URL becomes `''`. |
| `Services.OnBulletsInput` | src/pages/services/ServicesPage.tsx:188-193 | Typing in the bullet area replaces only the bullet list, with the parse of the text. |
| `Services.OnKeywordsInput` | src/pages/services/ServicesPage.tsx:201-206 | Typing in the keyword input replaces only the keyword list, with the parse of the text. |
| `Services.DefaultFormBlocked` | src/pages/services/ServicesPage.tsx:161-182 | The untouched create form cannot be submitted. A stored service passes the browser's check iff its title and description are non-empty. |
| `Services.HandleSubmit` | src/pages/services/ServicesPage.tsx:110-120 | Nothing is sent iff the title or the short description is empty. Both inputs are `required` (lines 170 and 181), so the browser stops the submit. Otherwise the form is sent unchanged, as an update of the target's id or as a create. |
| `MissionVision.Payload` | src/pages/mission-vision/MissionVisionPage.tsx:99-104 | The submitted title is null iff the kind is story. Otherwise it is the typed title. Kind and content pass through. |
| `MissionVision.ChangeKind` | src/pages/mission-vision/MissionVisionPage.tsx:162-164 | The type select changes only the kind. Title and content stay as typed. |
| `MissionVision.EditForm` | src/pages/mission-vision/MissionVisionPage.tsx:116-124 | The edit form copies kind and content, and shows a missing title as `''`. |
| `MissionVision.StoryDetourKeepsTitle` | src/pages/mission-vision/MissionVisionPage.tsx:160-164 | Switching to story submits no title, and switching back restores the form exactly. |
| `MissionVision.EditThenSubmitUnchanged` | src/pages/mission-vision/MissionVisionPage.tsx:116-124 | An item that has a title iff it is not a story gives back its own payload when edited and submitted unchanged. The browser lets that submit through iff its content is non-empty and, unless it is a story, its title is too (lines 185 and 197). |
| `MissionVision.OfKind` | src/pages/mission-vision/MissionVisionPage.tsx:136-138 | Each table is an order-preserving subsequence holding exactly the items of its kind. |
| `MissionVision.PartitionByKind` | src/pages/mission-vision/MissionVisionPage.tsx:136-138 | Together the three tables hold every item exactly as often as the list does. Each item is in the table of its own kind and in no other. |
| `MissionVision.Mount` | src/pages/mission-vision/MissionVisionPage.tsx:34-40 | The form defaults to `{mission, '', ''}`. |
| `MissionVision.HandleEdit` | src/pages/mission-vision/MissionVisionPage.tsx:116-124 | Editing copies kind and content, and a missing title becomes `''`. |
| `MissionVision.HandleKindChange` | src/pages/mission-vision/MissionVisionPage.tsx:160-164 | Changing the kind leaves the typed title and content untouched. |
| `MissionVision.DefaultFormBlocked` | src/pages/mission-vision/MissionVisionPage.tsx:157-199 | The untouched create form, a mission with no title or content, cannot be submitted. |
| `MissionVision.SentPayloadFilled` | src/pages/mission-vision/MissionVisionPage.tsx:176-198 | Whatever passes the browser's check is sent with content, and with a non-empty title unless it is a story. A story with an empty hidden title still passes. |
| `MissionVision.HandleSubmit` | src/pages/mission-vision/MissionVisionPage.tsx:99-114 | Nothing is sent iff the content is empty, or the title is empty for a mission or vision. Those inputs are `required` (lines 185 and 197), and the title input is shown only for those kinds. Otherwise `Payload(formData)` is sent as an update of the target's id when editing, and as a create otherwise. |
| `SocialContacts.Validate` | src/pages/social-contacts/SocialContactsPage.tsx:131-145 | A phone is rejected iff its digit count is not 10. A social entry is rejected iff it has no platform. Nothing else is rejected. |
| `SocialContacts.ToPayload` | src/pages/social-contacts/SocialContactsPage.tsx:151-162 | The submitted shape keeps kind and handle. A phone value becomes `+91` and its digits, and only a social entry keeps its platform. `PhonePayload` and `PayloadPlatform` state the consequences. |
| `SocialContacts.PhonePayload` | src/pages/social-contacts/SocialContactsPage.tsx:151-157 | An accepted phone is stored as `+91` and ten digits. Those digits are exactly the input's digit characters, in order. |
| `SocialContacts.PayloadPlatform` | src/pages/social-contacts/SocialContactsPage.tsx:159-162 | The submitted platform is the selected one for social entries and null for email and phone. |
| `SocialContacts.SeparatedPhoneAccepted` | src/pages/social-contacts/SocialContactsPage.tsx:131-157 | "98765 43210" and any other digits-separator-digits input with ten digits is accepted and stored as `+91` followed by the digits. |
| `SocialContacts.NineDigitPhoneRejected` | src/pages/social-contacts/SocialContactsPage.tsx:132-139 | A nine-digit phone is rejected. |
| `SocialContacts.ChangeKind` | src/pages/social-contacts/SocialContactsPage.tsx:223-225 | The type select sets the kind, keeps the platform only when the new kind is social, and leaves handle and value as typed. |
| `SocialContacts.PlatformLostOnDetour` | src/pages/social-contacts/SocialContactsPage.tsx:221-225 | Changing the type away from social clears the platform, and the entry is then rejected on returning to social. Choosing social keeps the platform. |
| `SocialContacts.EditFormAsWritten` | src/pages/social-contacts/SocialContactsPage.tsx:174-183 | As written, the edit form copies kind, platform, handle and value, and shows a missing handle or value as `''`. A stored phone keeps its `+91`. |
| `SocialContacts.EditedPhoneRejectedAsWritten` | src/pages/social-contacts/SocialContactsPage.tsx:174-183 | As written, every stored phone contact that is edited and submitted unchanged is rejected. |
| `SocialContacts.EditForm` | src/pages/social-contacts/SocialContactsPage.tsx:174-183 | The corrected edit form is the same, except that a phone value loses the `+91` prefix the submit adds back. |
| `SocialContacts.EditedPhoneRoundTrip` | src/pages/social-contacts/SocialContactsPage.tsx:174-183 | With the corrected pre-fill, the same resubmission is accepted and stores the same number. |
| `SocialContacts.MatchesSearch` | src/pages/social-contacts/SocialContactsPage.tsx:63-68 | A contact matches iff the lower-cased query occurs in its lower-cased type, platform, handle or value. An absent field never matches. |
| `SocialContacts.MatchesKinds` | src/pages/social-contacts/SocialContactsPage.tsx:71 | No type ticked keeps every contact. Otherwise the contact's type must be ticked. |
| `SocialContacts.MatchesPlatforms` | src/pages/social-contacts/SocialContactsPage.tsx:74-75 | No platform ticked keeps every contact. Otherwise the contact needs a platform, and that platform must be ticked. |
| `SocialContacts.SearchIgnoresCase` | src/pages/social-contacts/SocialContactsPage.tsx:63-68 | A query matches exactly as its lower-cased form does. A handle or value that holds the query as typed is found, and so is a handle that spells the query in another case. |
| `SocialContacts.CheckboxFilters` | src/pages/social-contacts/SocialContactsPage.tsx:71-75 | Ticking a contact's own type shows it. Ticking more types never hides a contact that a ticked type shows. Unticking the only ticked type shows every type again. A contact with no platform passes the platform filter iff no platform is ticked. |
| `SocialContacts.FilterContacts` | src/pages/social-contacts/SocialContactsPage.tsx:61-78 | The result is an order-preserving subsequence. A contact is kept iff it passes the search, type and platform tests. Each kept contact appears as often as in the list. A non-empty platform filter keeps only contacts that have a platform. |
| `SocialContacts.UnfilteredShowsAll` | src/pages/social-contacts/SocialContactsPage.tsx:61-78 | An empty search with no filters ticked lists every contact. |
| `SocialContacts.Toggle` | src/pages/social-contacts/SocialContactsPage.tsx:331-339 | Ticking a checkbox adds its value and unticking removes it. Other ticked values stay. |
| `SocialContacts.EmptyState` | src/pages/social-contacts/SocialContactsPage.tsx:471-477 | A placeholder appears iff no contact passes. It is "No social contacts added yet" iff there are no contacts, and "No contacts match your filters" iff contacts exist but none passes. |
| `SocialContacts.Mount` | src/pages/social-contacts/SocialContactsPage.tsx:39-46 | The form defaults to `{social, '', '', ''}`. |
| `SocialContacts.HandleEdit` | src/pages/social-contacts/SocialContactsPage.tsx:174-183 | As written, editing sets the target, opens the dialog and fills the form with `EditFormAsWritten`, which keeps a phone's `+91`. |
| `SocialContacts.HandleEditCorrected` | src/pages/social-contacts/SocialContactsPage.tsx:174-183 | The corrected edit does the same with `EditForm`, which drops a phone's `+91`. |
| `SocialContacts.HandleKindChange` | src/pages/social-contacts/SocialContactsPage.tsx:223-224 | The platform is kept only when the new type is social. Handle and value are untouched. |
| `SocialContacts.DefaultFormBlocked` | src/pages/social-contacts/SocialContactsPage.tsx:260-295 | The untouched form is stopped by the browser, because its handle is empty, before `validateForm` could ask for a platform. An empty phone number is stopped before its digits are counted. |
| `SocialContacts.HandleSubmit` | src/pages/social-contacts/SocialContactsPage.tsx:147-172 | The browser stops the submit iff the shown required input is empty: the handle for a social entry (line 270), the value otherwise (line 291). Otherwise an invalid form gives its error and no mutation. A valid one sends `ToPayload(formData)` as an update of the target's id or as a create. |
| `Trainings.Defaults` | src/components/trainings/TrainingFormDialog.tsx:48-57 | The empty form: every text `''` and the mode Online. `DefaultsBlocked` states what validation makes of it. |
| `Trainings.Prefill` | src/components/trainings/TrainingFormDialog.tsx:37-47 | The pre-fill of a training. `PrefillFields` states it field by field. |
| `Trainings.InitialValues` | src/components/trainings/TrainingFormDialog.tsx:36-57 | The default values are the training's pre-fill when there is a training, and the empty form otherwise. |
| `Trainings.PrefillFields` | src/components/trainings/TrainingFormDialog.tsx:37-47 | Opening with a training shows its title, start date and mode as stored. Each optional field shows its own value when present and `''` when absent. |
| `Trainings.DefaultsBlocked` | src/components/trainings/TrainingFormDialog.tsx:73-82 | The default form (all `''`, mode Online) fails with exactly the missing title and start date. |
| `Trainings.MatchesLinkPattern` | src/components/trainings/TrainingFormDialog.tsx:193-198 | `^https?:\/\/.+` holds iff the link starts with `http://` or `https://` followed by a character other than a line terminator. |
| `Trainings.LinkPatternShape` | src/components/trainings/TrainingFormDialog.tsx:193-198 | An accepted link starts with `http://` or `https://` and has at least one more character. The bare schemes are refused. |
| `Trainings.LinkPatternExtends` | src/components/trainings/TrainingFormDialog.tsx:193-198 | The pattern has no end anchor, so extending an accepted link keeps it accepted. |
| `Trainings.Errors` | src/components/trainings/TrainingFormDialog.tsx:120-198 | Each error is present iff its rule is broken: empty title, empty start date, or a non-empty link not matching `^https?://.+`. No error iff all rules hold. |
| `Trainings.PrefillValid` | src/components/trainings/TrainingFormDialog.tsx:60-72 | A stored training with a title, a start date and an acceptable link passes validation unchanged. |
| `Trainings.TrainingForm.constructor` | src/components/trainings/TrainingFormDialog.tsx:36-58 | The initial values are the training's pre-fill, or the defaults when there is no training. |
| `Trainings.TrainingForm.SyncWithDialog` | src/components/trainings/TrainingFormDialog.tsx:60-97 | Opening shows the training or the defaults. Closing always restores the defaults, whatever the training. |
| `Trainings.TrainingForm.EditText` | src/components/trainings/TrainingFormDialog.tsx:120-167 | The registered text inputs change their own fields. Mode and image URL stay as they were. |
| `Trainings.TrainingForm.SetMode` | src/components/trainings/TrainingFormDialog.tsx:172-184 | The mode changes only to one of Online, Offline or Hybrid. No other field changes. |
| `Trainings.TrainingForm.SetImageUrl` | src/components/trainings/TrainingFormDialog.tsx:205-213 | The upload's URL replaces only the image URL. |
| `Trainings.TrainingForm.HandleSubmit` | src/components/trainings/TrainingFormDialog.tsx:99-116 | `onSubmit` receives the values iff no field error remains. The values have no `id`, `created_at` or `updated_at`. |

## Left out

- Remote create, read, update and delete calls are not modelled. They are network I/O in a
  service module that is not part of this model. Each call is a `Request` value, and its outcome
  is a boolean passed to `SettleSave`/`SettleDelete`.
- Query caching, refetching and de-duplication of in-flight fetches are library behaviour and
  asynchronous. Only the invalidation of a page's list is kept, as the `invalidated` flag. The
  cached list is a parameter of the filter functions, and the loading state is left out.
- Toasts, `console.error`, JSX rendering and styling are presentation and are left out.
  `window.confirm` becomes the `confirmed` parameter.
- `Text.Lower`: folds only ASCII letters. JavaScript's `toLowerCase` folds all of Unicode.
- `Text.Trim`: strips only ASCII white space (space, tab, line feed, vertical tab, form feed,
  carriage return). JavaScript's `trim` also strips Unicode spaces.
- `Trainings.Errors`: `required` is modelled as "the value is `''`", and the link pattern is
  skipped for an empty link. Both are the form library's semantics, which are not part of this
  model. The link property is stated only for non-empty links.
- `SocialContacts.HandleSubmit`: the value input of an e-mail entry has `type="email"`
  (src/pages/social-contacts/SocialContactsPage.tsx:285). The browser also stops a non-empty
  value that is not a valid e-mail address. HTML's e-mail address grammar is not modelled, so the
  model lets such a value through to `validateForm`.
- `Trainings.TrainingForm.HandleSubmit`: the link input has `type="url"`
  (src/components/trainings/TrainingFormDialog.tsx:191). The browser also stops a non-empty link
  that it cannot parse as an absolute URL, before the form library's checks run. URL parsing is
  not modelled, so the model stops such a link only when it fails the pattern.
- `Trainings.TrainingForm.HandleSubmit`: the submit button is `disabled={isLoading}`
  (src/components/trainings/TrainingFormDialog.tsx:220), so no submit happens while a save is
  pending. The pending-save flag belongs to the caller and is not modelled, so the "iff" holds
  only for a submit the button lets through.
- `Trainings.TrainingForm.HandleSubmit`: the `try`/`catch` around `onSubmit` only logs and
  toasts, so it is left out.
- The "Showing N of M" counters are rendering only. Their numbers are the lengths of the filtered
  and full lists.
- Image upload (`ImageUploadField`) writes to storage, which is not part of this model. Only the
  URL it returns is kept, through `Trainings.TrainingForm.SetImageUrl`.
- `src/App.tsx` (routing), `src/components/ui/image.tsx` (an image loading flag) and
  `src/types/index.ts` (declarations only) hold no logic of the modelled core.
- The page classes store values, so aliasing between React state objects does not arise.

## Findings

| source | as written | input that shows it | evidently intended | confidence | as-written member | corrected member |
|---|---|---|---|---|---|---|
| src/pages/social-contacts/SocialContactsPage.tsx:174-183 | `handleEdit` (`SocialContacts.HandleEdit`) copies the stored phone value, which already starts with `+91`, into the form. `validateForm` then counts twelve digits and rejects the form. | Edit the contact `{type: 'phone', value: '+919876543210'}` and submit it unchanged: "Phone number must be exactly 10 digits". | The edit form (`SocialContacts.HandleEditCorrected`) shows the ten digits without the `+91` that submit adds back, so an unchanged contact can be saved again. | medium; not executed | `SocialContacts.EditedPhoneRejectedAsWritten` | `SocialContacts.EditedPhoneRoundTrip` |
