/** The uniqueness validators of wildthoughts/forms.py: a new animal name, or
    a new discussion, petition or list title, is accepted only if no existing
    row already has it, nor the slug it would be given. */
module Forms {
  import opened Common

  /** One existing row of a table, by its name (or title) and its slug. */
  datatype Entry = Entry(title: string, slug: string)

  function Titles(table: seq<Entry>): set<string>
  {
    set e | e in table :: e.title
  }

  function Slugs(table: seq<Entry>): set<string>
  {
    set e | e in table :: e.slug
  }

  /** The row a save hook writes for a title: its slug is derived from it. */
  function Saved(title: string, slugify: Slugify): Entry
  {
    Entry(title, slugify(title))
  }

  /** No row of the table has this title, and none has its slug. */
  predicate Unclaimed(title: string, table: seq<Entry>, slugify: Slugify)
  {
    forall i :: 0 <= i < |table| ==> table[i].title != title && table[i].slug != slugify(title)
  }

  /** The forms.ValidationError a validator raises. */
  datatype ValidationError = ValidationError(message: string)

  /** The four model forms that validate a new name or title. */
  datatype Form = AnimalForm | DiscussionForm | PetitionForm | UserListForm

  /** The message each form's validator raises, for either lookup. */
  function Message(form: Form): string
  {
    match form
    case AnimalForm => "An animal with this name already exists."
    case DiscussionForm => "A discussion with this title already exists."
    case PetitionForm => "A petition with this title already exists."
    case UserListForm => "A list with this title already exists."
  }

  /** `AnimalForm.clean_name` and the `clean_title` of the other three forms:
      the title lookup, then the slug lookup, both raising the form's
      message; otherwise the value comes back unchanged. */
  function Clean(form: Form, value: string, table: seq<Entry>, slugify: Slugify): (r: Result<string, ValidationError>)
    ensures r.Success? <==> Unclaimed(value, table, slugify)
    ensures r.Success? ==> r.value == value
    ensures r.Failure? ==> r.error == ValidationError(Message(form))
  {
    if value in Titles(table) then
      Failure(ValidationError(Message(form)))
    else if slugify(value) in Slugs(table) then
      Failure(ValidationError(Message(form)))
    else
      assert forall i :: 0 <= i < |table| ==> table[i] in table;
      Success(value)
  }

  /** No two rows share a title, and no two share a slug. */
  predicate Distinct(table: seq<Entry>)
  {
    forall i, j :: 0 <= i < j < |table| ==> table[i].title != table[j].title && table[i].slug != table[j].slug
  }

  /** A title the validator accepts, saved through the slug hook, keeps the
      table free of duplicate titles and duplicate slugs. */
  lemma AcceptedTitleStaysDistinct(form: Form, title: string, table: seq<Entry>, slugify: Slugify)
    requires Distinct(table)
    requires Clean(form, title, table, slugify).Success?
    ensures Distinct(table + [Saved(Clean(form, title, table, slugify).value, slugify)])
  {
  }
}
