/** The option defaulting of `ThemeView`, `ProfileView` and `ListPetitionView`
    in wildthoughts/views.py: query parameters outside the accepted values fall
    back to a default instead of failing. */
module ViewOptions {
  import opened Common
  import opened Sorter

  /** What `ThemeView.get` answers: the theme cookie it sets and the response
      text, or the response "-1" when the theme is not accepted. */
  datatype ThemeResponse = ThemeSet(cookie: string, body: string) | ThemeRejected(body: string)

  function SetTheme(theme: Option<string>): (r: ThemeResponse)
    ensures r.ThemeSet? <==> theme == Some("dark") || theme == Some("light")
    ensures r.ThemeSet? ==> theme == Some(r.cookie) && r.body == "Theme set to: " + r.cookie
    ensures r.ThemeRejected? ==> r.body == "-1"
  {
    if theme.Some? && theme.value in ["dark", "light"] then ThemeSet(theme.value, "Theme set to: " + theme.value)
    else ThemeRejected("-1")
  }

  /** `ProfileView.TAB_TO_MODEL`. */
  const TabToModel: map<string, ModelKind> := map[
    "animals" := Animal,
    "discussions" := Discussion,
    "comments" := Comment,
    "lists" := UserList,
    "petitions" := Petition
  ]

  /** The tab `ProfileView.get` shows: the requested one if it is known,
      'animals' otherwise. Every tab's model is one `Sorter` accepts. */
  function ProfileTab(tab: Option<string>): (r: string)
    ensures r in TabToModel && IsSortable(TabToModel[r])
    ensures tab.Some? && tab.value in TabToModel ==> r == tab.value
    ensures tab.None? || tab.value !in TabToModel ==> r == "animals"
  {
    if tab.Some? && tab.value in TabToModel then tab.value else "animals"
  }

  /** The two signature options are shown with a space instead of the
      underscore; every other option is shown as it is. */
  function DisplayChoice(choice: string): (r: string)
    ensures choice == "most_signed" ==> r == "most signed"
    ensures choice == "least_signed" ==> r == "least signed"
    ensures choice != "most_signed" && choice != "least_signed" ==> r == choice
  {
    if choice in ["most_signed", "least_signed"] then
      if choice == "most_signed" then "most signed" else "least signed"
    else choice
  }

  /** What `ProfileView.get` renders about sorting. */
  datatype ProfilePage = ProfilePage(tab: string, sortBy: string, query: Query)

  /** `ProfileView.get`: the tab and sort handling never raises for any tab
      or sort option; it lists the profile's own rows of the tab's model, in
      the order `SortModel` gives. */
  function ProfileListing(tab: Option<string>, sortBy: Option<string>, profile: ProfileId): (r: ProfilePage)
    ensures r.tab == ProfileTab(tab)
    ensures var l := SortModel(sortBy, TabToModel[r.tab], Some(profile)).value;
      r.sortBy == DisplayChoice(l.choice) && r.query == l.query
    ensures r.query.rows == AuthoredBy(TabToModel[r.tab], profile)
    ensures exists c :: Admissible(c, TabToModel[r.tab]) && r.sortBy == DisplayChoice(c) && r.query.orderBy == OptionsOrder[c]
  {
    var t := ProfileTab(tab);
    var listing := SortModel(sortBy, TabToModel[t], Some(profile)).value;
    ProfilePage(t, DisplayChoice(listing.choice), listing.query)
  }

  /** What `ListPetitionView.get` renders about sorting. */
  function PetitionListing(sortBy: Option<string>): (r: (string, Query))
    ensures var l := SortModel(sortBy, Petition, None).value;
      r.0 == DisplayChoice(l.choice) && r.1 == l.query
    ensures r.1.rows == AllOf(Petition)
    ensures exists c :: Admissible(c, Petition) && r.0 == DisplayChoice(c) && r.1.orderBy == OptionsOrder[c]
    ensures sortBy == Some("most_signed") ==> r == ("most signed", Query(AllOf(Petition), "-signatures"))
  {
    var listing := SortModel(sortBy, Petition, None).value;
    (DisplayChoice(listing.choice), listing.query)
  }
}
