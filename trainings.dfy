/**
 * The training form dialog: a form over a training's editable fields that mirrors the dialog's
 * `open` flag, with required-field and link checks before `onSubmit` is called.
 */
module Trainings {
  import opened Wrappers
  import opened CrudPage

  datatype Mode = Online | Offline | Hybrid

  datatype Training = Training(
    id: Id,
    title: string,
    description: Option<string>,
    startDate: string,
    endDate: Option<string>,
    location: Option<string>,
    mode: Mode,
    imageUrl: Option<string>,
    link: Option<string>,
    createdAt: string,
    updatedAt: string)

  /** The form's fields, which are also what `onSubmit` receives: no `id`, `created_at` or `updated_at`. */
  datatype TrainingValues = TrainingValues(
    title: string,
    description: string,
    startDate: string,
    endDate: string,
    location: string,
    mode: Mode,
    imageUrl: string,
    link: string)

  /** The values of an empty form. */
  function Defaults(): TrainingValues {
    TrainingValues("", "", "", "", "", Online, "", "")
  }

  /** A training's values, with every absent optional field shown as `''`. */
  function Prefill(t: Training): TrainingValues {
    TrainingValues(
      t.title, t.description.GetOr(""), t.startDate, t.endDate.GetOr(""),
      t.location.GetOr(""), t.mode, t.imageUrl.GetOr(""), t.link.GetOr(""))
  }

  /** What the form shows on opening: the training being edited, or the defaults for a new one. */
  function InitialValues(training: Option<Training>): TrainingValues {
    if training.Some? then Prefill(training.value) else Defaults()
  }

  /** The form shows `field` as its value, and an absent optional field as `''`. */
  predicate ShowsOptional(shown: string, field: Option<string>) {
    (field.Some? ==> shown == field.value) && (field.None? ==> shown == "")
  }

  /**
   * Opening with a training shows each of its fields: the required ones and the mode as stored,
   * a present optional field with its own value, and an absent one as `''`.
   */
  lemma PrefillFields(t: Training)
    ensures var v := Prefill(t);
      && v.title == t.title && v.startDate == t.startDate && v.mode == t.mode
      && ShowsOptional(v.description, t.description) && ShowsOptional(v.endDate, t.endDate)
      && ShowsOptional(v.location, t.location) && ShowsOptional(v.imageUrl, t.imageUrl)
      && ShowsOptional(v.link, t.link)
  {
  }

  // ----- validation -----

  /** The characters JavaScript's `.` does not match. */
  predicate IsLineTerminator(c: char) {
    c == '\n' || c == '\r' || c as int == 0x2028 || c as int == 0x2029
  }

  /** `s` starts with `scheme` and one more character that `.` matches. */
  predicate SchemeThenChar(s: string, scheme: string) {
    scheme <= s && |s| > |scheme| && !IsLineTerminator(s[|scheme|])
  }

  /** The link pattern `^https?:\/\/.+`. */
  predicate MatchesLinkPattern(s: string) {
    SchemeThenChar(s, "http://") || SchemeThenChar(s, "https://")
  }

  /** A link the pattern accepts starts with a scheme and has more after it; the bare schemes are refused. */
  lemma LinkPatternShape(s: string)
    ensures MatchesLinkPattern(s) ==> ("http://" <= s || "https://" <= s) && |s| >= 8
    ensures !MatchesLinkPattern("http://") && !MatchesLinkPattern("https://")
  {
    assert "http://"[4] != "https://"[4];
  }

  /** The pattern has no end anchor: whatever follows an accepted link, it is still accepted. */
  lemma LinkPatternExtends(s: string, rest: string)
    requires MatchesLinkPattern(s)
    ensures MatchesLinkPattern(s + rest)
  {
    var scheme := if SchemeThenChar(s, "http://") then "http://" else "https://";
    assert (s + rest)[..|scheme|] == s[..|scheme|];
    assert (s + rest)[|scheme|] == s[|scheme|];
  }

  datatype FieldError = TitleRequired | StartDateRequired | LinkInvalid

  /**
   * The field errors that block submission, in field order: a required title, a required start
   * date, and a non-empty link that does not match the pattern.
   */
  function Errors(v: TrainingValues): (errs: seq<FieldError>)
    ensures TitleRequired in errs <==> v.title == ""
    ensures StartDateRequired in errs <==> v.startDate == ""
    ensures LinkInvalid in errs <==> v.link != "" && !MatchesLinkPattern(v.link)
    ensures errs == [] <==> v.title != "" && v.startDate != "" && (v.link == "" || MatchesLinkPattern(v.link))
  {
    (if v.title == "" then [TitleRequired] else [])
    + (if v.startDate == "" then [StartDateRequired] else [])
    + (if v.link != "" && !MatchesLinkPattern(v.link) then [LinkInvalid] else [])
  }

  /** A new training cannot be saved from the untouched form: title and start date are missing. */
  lemma DefaultsBlocked()
    ensures Errors(Defaults()) == [TitleRequired, StartDateRequired]
  {
  }

  /** A stored training with a title, a start date and an acceptable link can be saved again unchanged. */
  lemma PrefillValid(t: Training)
    requires t.title != "" && t.startDate != ""
    requires t.link.None? || t.link.value == "" || MatchesLinkPattern(t.link.value)
    ensures Errors(Prefill(t)) == []
  {
  }

  // ----- the form state -----

  /** The form state the dialog keeps (`useForm`). */
  class TrainingForm {
    var values: TrainingValues

    /** `useForm({ defaultValues })`. */
    constructor (training: Option<Training>)
      ensures values == InitialValues(training)
    {
      values := InitialValues(training);
    }

    /**
     * The effect run when `open` or `training` changes: opening shows the training or the
     * defaults; closing always goes back to the defaults, whatever the training.
     */
    method SyncWithDialog(open: bool, training: Option<Training>)
      modifies this
      ensures values == if open then InitialValues(training) else Defaults()
    {
      if open {
        values := InitialValues(training);
      } else {
        values := Defaults();
      }
    }

    /** Typing into the registered inputs; mode and image URL are not among them. */
    method EditText(title: string, description: string, startDate: string, endDate: string, location: string, link: string)
      modifies this
      ensures values == old(values).(title := title, description := description, startDate := startDate,
                                     endDate := endDate, location := location, link := link)
    {
      values := values.(title := title, description := description, startDate := startDate,
                        endDate := endDate, location := location, link := link);
    }

    /** The mode select's `setValue('mode', …)`: one of the three modes. */
    method SetMode(m: Mode)
      modifies this
      ensures values == old(values).(mode := m)
    {
      values := values.(mode := m);
    }

    /** The image upload's `setValue('image_url', url)`. */
    method SetImageUrl(url: string)
      modifies this
      ensures values == old(values).(imageUrl := url)
    {
      values := values.(imageUrl := url);
    }

    /** `handleSubmit(handleFormSubmit)`: `onSubmit` gets the values only when no field error remains. */
    method HandleSubmit() returns (submitted: Option<TrainingValues>)
      ensures submitted.Some? <==> Errors(values) == []
      ensures submitted.Some? ==> submitted.value == values
    {
      if Errors(values) == [] {
        submitted := Some(values);
      } else {
        submitted := None;
      }
    }
  }
}
