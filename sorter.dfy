/** `Sorter` of wildthoughts/views.py: a free-form `sort_by` query parameter
    and a model become a canonical option, and the option an ordering field.
    The ordering itself is the database's; a listing is modelled as the rows
    it selects and the field it orders them by. */
module Sorter {
  import opened Common

  /** The model classes of wildthoughts/models.py; `Other` stands for any
      other model class a caller could pass. */
  datatype ModelKind = Animal | Comment | Discussion | Petition | UserList | UserProfile | Other(name: string)

  /** `VALID_MODELS`. */
  predicate IsSortable(model: ModelKind)
  {
    model.Animal? || model.Comment? || model.Discussion? || model.Petition? || model.UserList?
  }

  /** `OPTIONS_ORDER`: option to ordering field; a leading '-' is descending. */
  const OptionsOrder: map<string, string> := map[
    "title" := "title",
    "name" := "name",
    "overrated" := "-votes",
    "underrated" := "votes",
    "newest" := "-date",
    "oldest" := "date",
    "most_signed" := "-signatures",
    "least_signed" := "signatures"
  ]

  /** The TypeError raised for a model outside `VALID_MODELS`. */
  datatype SortError = TypeError

  /** The options `validate` hands back unchanged for a model: a key of
      `OPTIONS_ORDER`, except 'title' for Animal and 'title' or 'name' for
      Comment. */
  predicate Admissible(choice: string, model: ModelKind)
  {
    && choice in OptionsOrder
    && !(model == Animal && choice == "title")
    && !(model == Comment && (choice == "title" || choice == "name"))
  }

  /** `Sorter.validate`. The result is always admissible, an admissible
      choice is kept, and everything else falls back: Animal's 'title' to
      'name', Comment's 'title' and 'name' to 'newest', anything unknown
      (or a missing parameter) to 'newest'. */
  function Validate(choice: Option<string>, model: ModelKind): (r: Result<string, SortError>)
    ensures r.Failure? <==> !IsSortable(model)
    ensures r.Success? ==> Admissible(r.value, model)
    ensures IsSortable(model) && choice.Some? && Admissible(choice.value, model) ==> r == Success(choice.value)
    ensures IsSortable(model) && (choice.None? || choice.value !in OptionsOrder) ==> r == Success("newest")
    ensures model == Animal && choice == Some("title") ==> r == Success("name")
    ensures model == Comment && (choice == Some("title") || choice == Some("name")) ==> r == Success("newest")
  {
    if !IsSortable(model) then Failure(TypeError)
    else if model == Animal && choice == Some("title") then Success("name")
    else if model == Comment && (choice == Some("title") || choice == Some("name")) then Success("newest")
    else if choice.None? || choice.value !in OptionsOrder then Success("newest")
    else Success(choice.value)
  }

  /** Validating a validated choice changes nothing. */
  lemma ValidateIdempotent(choice: Option<string>, model: ModelKind)
    requires IsSortable(model)
    ensures Validate(Some(Validate(choice, model).value), model) == Validate(choice, model)
  {
  }

  /** The rows a listing is drawn from. */
  datatype Rows =
    | AllOf(model: ModelKind)
    | AuthoredBy(model: ModelKind, author: ProfileId)
    | AnimalsOfList(userList: nat)
    | DiscussionsOfAnimal(animal: nat)
    | CommentsOfDiscussion(discussion: nat)

  /** A query: which rows, ordered by which field. */
  datatype Query = Query(rows: Rows, orderBy: string)

  /** What a sort helper returns: the canonical option and the query. */
  datatype Listing = Listing(choice: string, query: Query)

  /** `Sorter.sort_model`: all rows of the model, or only those of one author
      when a profile is given, ordered by the field of the validated option. */
  function SortModel(choice: Option<string>, model: ModelKind, profile: Option<ProfileId>): (r: Result<Listing, SortError>)
    ensures r.Failure? <==> !IsSortable(model)
    ensures r.Success? ==> r.value.choice == Validate(choice, model).value && r.value.query.orderBy == OptionsOrder[r.value.choice]
    ensures r.Success? ==> Admissible(r.value.choice, model) && r.value.query.orderBy in OptionsOrder.Values
    ensures r.Success? ==> r.value.query.rows == if profile.Some? then AuthoredBy(model, profile.value) else AllOf(model)
    ensures IsSortable(model) && (choice.None? || choice.value !in OptionsOrder) ==> r.value.choice == "newest" && r.value.query.orderBy == "-date"
    ensures r.Success? && model == Animal ==> r.value.query.orderBy != "title"
    ensures r.Success? && model == Comment ==> r.value.query.orderBy != "title" && r.value.query.orderBy != "name"
  {
    match Validate(choice, model)
    case Failure(e) => Failure(e)
    case Success(c) =>
      var rows := if profile.Some? then AuthoredBy(model, profile.value) else AllOf(model);
      Success(Listing(c, Query(rows, OptionsOrder[c])))
  }

  /** `Sorter.sort_user_list_animals`: the animals of a list, validated as
      Animal options, so never ordered by 'title'. */
  function SortUserListAnimals(choice: Option<string>, userList: nat): (r: Listing)
    ensures r.choice == Validate(choice, Animal).value
    ensures Admissible(r.choice, Animal) && r.query.orderBy == OptionsOrder[r.choice]
    ensures r.query.orderBy != "title" && r.query.rows == AnimalsOfList(userList)
  {
    var c := Validate(choice, Animal).value;
    Listing(c, Query(AnimalsOfList(userList), OptionsOrder[c]))
  }

  /** `Sorter.sort_animal_discussions`. */
  function SortAnimalDiscussions(choice: Option<string>, animal: nat): (r: Listing)
    ensures r.choice == Validate(choice, Discussion).value
    ensures Admissible(r.choice, Discussion) && r.query.orderBy == OptionsOrder[r.choice]
    ensures r.query.rows == DiscussionsOfAnimal(animal)
  {
    var c := Validate(choice, Discussion).value;
    Listing(c, Query(DiscussionsOfAnimal(animal), OptionsOrder[c]))
  }

  /** `Sorter.sort_discussion_comments`: validated as Comment options, so
      never ordered by 'title' or 'name'. */
  function SortDiscussionComments(choice: Option<string>, discussion: nat): (r: Listing)
    ensures r.choice == Validate(choice, Comment).value
    ensures Admissible(r.choice, Comment) && r.query.orderBy == OptionsOrder[r.choice]
    ensures r.query.orderBy != "title" && r.query.orderBy != "name"
    ensures r.query.rows == CommentsOfDiscussion(discussion)
  {
    var c := Validate(choice, Comment).value;
    Listing(c, Query(CommentsOfDiscussion(discussion), OptionsOrder[c]))
  }

  /** The options `sort_profiles` accepts and the field each orders by. */
  const ProfileOrder: map<string, string> := map[
    "name" := "user__username",
    "newest" := "-date",
    "oldest" := "date"
  ]

  /** `Sorter.sort_profiles`: only 'name', 'oldest' and 'newest' are kept,
      anything else (or nothing) becomes 'newest'. */
  function SortProfiles(choice: Option<string>): (r: Listing)
    ensures r.choice in ProfileOrder && r.query == Query(AllOf(UserProfile), ProfileOrder[r.choice])
    ensures choice.Some? && choice.value in ProfileOrder ==> r.choice == choice.value
    ensures choice.None? || choice.value !in ProfileOrder ==> r.choice == "newest"
  {
    var c := if choice.Some? && choice.value in ["name", "oldest", "newest"] then choice.value else "newest";
    var field :=
      if c == "name" then "user__username"
      else if c == "newest" then "-date"
      else "date";
    Listing(c, Query(AllOf(UserProfile), field))
  }

  /** Profile sorting is idempotent on its own output. */
  lemma SortProfilesIdempotent(choice: Option<string>)
    ensures SortProfiles(Some(SortProfiles(choice).choice)) == SortProfiles(choice)
  {
  }

  /** The column an ordering field names. */
  function Column(field: string): string
  {
    if |field| > 0 && field[0] == '-' then field[1..] else field
  }

  /** Whether a model declares a field of that name (wildthoughts/models.py;
      `id` is Django's implicit primary key). */
  predicate HasColumn(model: ModelKind, column: string)
  {
    match model
    case Animal =>
      column in {"id", "author", "name", "description", "picture", "votes", "upvoted_by", "downvoted_by", "date", "slug"}
    case Discussion =>
      column in {"id", "title", "author", "animal", "date", "description", "picture", "votes", "upvoted_by", "downvoted_by", "slug"}
    case Comment =>
      column in {"id", "author", "discussion", "content", "date", "votes", "upvoted_by", "downvoted_by"}
    case Petition =>
      column in {"id", "title", "date", "author", "animals", "picture", "description", "decision_maker", "goal", "signatures", "signed_by", "slug"}
    case UserList =>
      column in {"id", "title", "date", "author", "animals", "description", "votes", "upvoted_by", "downvoted_by", "slug"}
    case UserProfile =>
      column in {"id", "user", "picture", "date", "description"}
    case Other(_) => false
  }

  /** As written, `validate` lets through options whose column the model does
      not have, so `order_by` is asked for a field that does not exist. */
  lemma ValidateAdmitsMissingColumns()
    ensures Validate(Some("name"), Discussion) == Success("name") && !HasColumn(Discussion, Column(OptionsOrder["name"]))
    ensures Validate(Some("overrated"), Petition) == Success("overrated") && !HasColumn(Petition, Column(OptionsOrder["overrated"]))
    ensures Validate(Some("most_signed"), Animal) == Success("most_signed") && !HasColumn(Animal, Column(OptionsOrder["most_signed"]))
  {
  }

  /** `validate` as evidently intended: an option whose field the model lacks
      falls back to 'newest', like any other option the model cannot use. */
  function ValidateForModel(choice: Option<string>, model: ModelKind): (r: Result<string, SortError>)
    ensures r.Failure? <==> !IsSortable(model)
    ensures r.Success? ==> Admissible(r.value, model) && HasColumn(model, Column(OptionsOrder[r.value]))
    ensures Validate(choice, model).Success? && HasColumn(model, Column(OptionsOrder[Validate(choice, model).value]))
      ==> r == Validate(choice, model)
    ensures Validate(choice, model).Success? && !HasColumn(model, Column(OptionsOrder[Validate(choice, model).value]))
      ==> r == Success("newest")
  {
    match Validate(choice, model)
    case Failure(e) => Failure(e)
    case Success(c) =>
      assert Column("-date") == "date";
      if HasColumn(model, Column(OptionsOrder[c])) then Success(c) else Success("newest")
  }
}
