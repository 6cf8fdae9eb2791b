# wildthoughts decision logic, modelled in Dafny

wildthoughts is a Django community site for animals, discussions, petitions
and user lists, with voting and petition signing. Most of it is framework
glue. This project models the small pieces of decision logic inside it and
proves what they promise:

- **Sort options** (`Sorter` in `wildthoughts/views.py`). A free-form
  `sort_by` parameter and a model class become a canonical option. The option
  then becomes an ordering field (module `Sorter`). The option defaulting of
  `ThemeView`, `ProfileView` and `ListPetitionView` is in module `ViewOptions`.
- **Votes** (`VoteView.update_*`). For one item and one profile, the state is
  the `upvoted_by` set, the `downvoted_by` set and the `votes` counter. The
  four transitions keep `votes - |upvoted_by| + |downvoted_by|` constant. They
  also keep the two sets disjoint (module `VoteView`).
- **Petitions** (`Petition.save` and `SignPetitionView.get`). Saving
  enforces `0 <= signatures <= goal`, then sets the slug. Signing is not
  atomic: the signer is written at once, but the count is written only by a
  successful save (modules `Models` and `SignPetitionView`).
- **Uniqueness validators** (`clean_name` / `clean_title` in
  `wildthoughts/forms.py`) and the `save` hooks that derive the slug from the
  name or title (modules `Forms` and `Models`).

Modelling choices:

- Django's `slugify` is a parameter of type `string -> string`. Every result
  holds for any deterministic slug function.
- A missing query parameter (`request.GET.get` returning `None`) is
  `Option.None`.
- A raised exception is a `Failure`/`Fail` value.
- The vote fields that Animal, Discussion, Comment and UserList each declare
  are held as one `Ballot` object per item. The vote view updates that object
  in place.
- `Petition` keeps the row as last stored (`stored`) apart from its in-memory
  attributes. This makes the partial effect of a failed signing visible.

No save hook guards `votes >= 0`: `votes` goes negative when downvotes
outnumber upvotes (wildthoughts/models.py:27, wildthoughts/views.py:232-241).
The model follows the code.

## Model

| member | source | states |
|---|---|---|
| `Sorter.Validate` | wildthoughts/views.py:39-48 | A model outside the five allowed ones raises `TypeError`. Otherwise the result is always an admissible key of `OPTIONS_ORDER`. An admissible choice is kept. Animal's 'title' becomes 'name'. Comment's 'title' and 'name' become 'newest'. An unknown or missing choice becomes 'newest'. |
| `Sorter.ValidateIdempotent` | wildthoughts/views.py:39-48 | Validating an already validated choice returns it unchanged. |
| `Sorter.SortModel` | wildthoughts/views.py:51-62 | Fails exactly for models outside the allowed five. Otherwise the option is `Validate` of the request and the order field is `OPTIONS_ORDER` of that option. The option is admissible and the order field is an `OPTIONS_ORDER` field. Rows are filtered by author exactly when a profile is given. Invalid input orders by '-date'. Animal is never ordered by 'title', and Comment never by 'title' or 'name'. |
| `Sorter.SortUserListAnimals` | wildthoughts/views.py:79-83 | A list's animals are sorted by `Validate(choice, Animal)` and its `OPTIONS_ORDER` field, so never by 'title'. |
| `Sorter.SortAnimalDiscussions` | wildthoughts/views.py:86-91 | An animal's discussions are sorted by `Validate(choice, Discussion)` and its `OPTIONS_ORDER` field. |
| `Sorter.SortDiscussionComments` | wildthoughts/views.py:94-99 | A discussion's comments are sorted by `Validate(choice, Comment)` and its `OPTIONS_ORDER` field, so never by 'title' or 'name'. |
| `Sorter.SortProfiles` | wildthoughts/views.py:65-76 | The option is one of 'name', 'oldest' and 'newest'. An accepted option is kept, and anything else becomes 'newest'. The field comes from the name-to-field table. |
| `Sorter.SortProfilesIdempotent` | wildthoughts/views.py:65-76 | Sorting profiles by the option it returned yields the same listing. |
| `Sorter.ValidateAdmitsMissingColumns` | wildthoughts/views.py:39-48 | As written, 'name' for Discussion, 'overrated' for Petition and 'most_signed' for Animal all pass, yet each model lacks the field to order by. |
| `Sorter.ValidateForModel` | wildthoughts/views.py:39-48 | Corrected validation. The result is admissible and names a field the model has. It agrees with `Validate` whenever that one's field exists, and falls back to 'newest' whenever it does not. |
| `ViewOptions.SetTheme` | wildthoughts/views.py:202-209 | A theme is set exactly for 'dark' or 'light', with the response text "Theme set to: " plus the theme. Anything else answers "-1". |
| `ViewOptions.ProfileTab` | wildthoughts/views.py:519-524 | A known tab is kept and anything else becomes 'animals'. Every tab maps to a model that `Sorter` accepts. |
| `ViewOptions.DisplayChoice` | wildthoughts/views.py:527-528 | 'most_signed' and 'least_signed' are shown with a space. Every other option is shown unchanged. |
| `ViewOptions.ProfileListing` | wildthoughts/views.py:513-538 | The tab and sort handling never fails on any tab or sort option. The tab is `ProfileTab` of the request. The page lists the profile's own rows of that tab's model, in the order `SortModel` gives for the requested option, and shows that option in display form. The database can still reject that order for a missing column (see Findings). |
| `ViewOptions.PetitionListing` | wildthoughts/views.py:463-468 | The petition list is ordered as `SortModel` orders petitions for the requested option, and shows that option in display form. |
| `VoteView.Upvote` | wildthoughts/views.py:221-230 | Afterwards the profile upvotes and does not downvote. Other profiles are untouched. The balance is kept, and so is disjointness. Upvoting a second time changes nothing. |
| `VoteView.Downvote` | wildthoughts/views.py:232-241 | The mirror image of `Upvote`. |
| `VoteView.WithdrawUpvote` | wildthoughts/views.py:243-248 | Only removes the profile from `upvoted_by`. `votes` drops by one exactly when the profile was there. The balance is kept. |
| `VoteView.WithdrawDownvote` | wildthoughts/views.py:250-255 | Only removes the profile from `downvoted_by`. `votes` rises by one exactly when the profile was there. The balance is kept. |
| `VoteView.Vote` | wildthoughts/views.py:257-268 | 'upvote', 'downvote', 'upvoted' and 'downvoted' run `Upvote`, `Downvote`, `WithdrawUpvote` and `WithdrawDownvote`. Every status keeps the balance and disjointness, and touches only the one profile. An unrecognised or missing status changes nothing. |
| `VoteView.VoteIdempotent` | wildthoughts/views.py:221-268 | Sending the same status twice has the effect of sending it once. |
| `VoteView.VoteAllInvariant` | wildthoughts/views.py:221-268 | Over any sequence of vote requests, the balance is kept. Disjoint sets stay disjoint. |
| `VoteView.FreshItemCountsNetVotes` | wildthoughts/models.py:27-29 | An item created with the defaults always has `votes == upvoters - downvoters`. No profile is on both sides. |
| `VoteView.UpdateUpvote` | wildthoughts/views.py:221-230 | Updates the item in place to `Upvote` of its old state. |
| `VoteView.UpdateDownvote` | wildthoughts/views.py:232-241 | Updates the item in place to `Downvote` of its old state. |
| `VoteView.UpdateUpvoted` | wildthoughts/views.py:243-248 | Updates the item in place to `WithdrawUpvote` of its old state. |
| `VoteView.UpdateDownvoted` | wildthoughts/views.py:250-255 | Updates the item in place to `WithdrawDownvote` of its old state. |
| `VoteView.UpdateVote` | wildthoughts/views.py:257-268 | Updates the item in place to `Vote` of its old state. |
| `Models.Ballot.constructor` | wildthoughts/models.py:27-29 | A new item has `votes` 0 and no voters. |
| `Models.Animal.constructor` | wildthoughts/models.py:23-31 | A new animal keeps its name, has an empty slug and a fresh ballot with 0 votes. |
| `Models.Discussion.constructor` | wildthoughts/models.py:42-51 | A new discussion keeps its title, has an empty slug and a fresh ballot with 0 votes. |
| `Models.Comment.constructor` | wildthoughts/models.py:62-68 | A new comment has a fresh ballot with 0 votes. |
| `Models.UserList.constructor` | wildthoughts/models.py:102-110 | A new list keeps its title, has an empty slug and a fresh ballot with 0 votes. |
| `Models.Animal.Save` | wildthoughts/models.py:36-38 | After saving, `slug == slugify(name)`. |
| `Models.Discussion.Save` | wildthoughts/models.py:56-58 | After saving, `slug == slugify(title)`. |
| `Models.UserList.Save` | wildthoughts/models.py:115-116 | After saving, `slug == slugify(title)`. |
| `Models.SaveCheck` | wildthoughts/models.py:90-96 | A save passes exactly when `0 <= signatures <= goal`. Negative signatures are reported first, then a negative goal. Signatures over the goal are reported exactly when `0 <= goal < signatures`. |
| `Models.DefaultPetitionSaves` | wildthoughts/models.py:82-83 | A petition with the defaults (goal 10, signatures 0) passes the save guards. |
| `Models.Petition.constructor` | wildthoughts/models.py:82-83 | A new petition has goal 10, 0 signatures, no signers and no stored row. |
| `Models.Petition.Load` | wildthoughts/views.py:447 | A fetched petition's attributes equal its stored row. |
| `Models.Petition.Save` | wildthoughts/models.py:90-98 | The outcome is `SaveCheck` of the attributes. On success, the slug is `slugify(title)` and the row is written. On rejection, neither the slug nor the stored row changes. |
| `Forms.Clean` | wildthoughts/forms.py:17-26 | Accepts exactly when no existing row has the value as its name or title or has its slug. An accepted value is returned unchanged. A rejection carries the form's message. The three `clean_title` validators (forms.py lines 55-64, 87-96 and 120-129) are the same function with their own messages. |
| `Forms.AcceptedTitleStaysDistinct` | wildthoughts/forms.py:60-64 | Suppose a table has no duplicate titles or slugs. An accepted title, saved with slug `slugify(title)`, keeps it that way. |
| `SignPetitionView.SignRequest` | wildthoughts/views.py:449-456 | An already-signed profile changes nothing, and the view returns no response (Django then answers with a server error). A new profile is always added to the signers. The count is raised and the slug set exactly when the raised count passes the save guards. Otherwise the stored row is unchanged and the answer is an error. |
| `SignPetitionView.SignAllKeepsRowValid` | wildthoughts/views.py:449-452 | Over any sequence of signing requests, the stored row keeps `0 <= signatures <= goal`. The count never exceeds the number of signers. |
| `SignPetitionView.SignAtGoalLosesCount` | wildthoughts/views.py:449-452 | As written, signing a petition at its goal records the signer but fails. The stored count then trails the signers by one. |
| `SignPetitionView.SignRequestChecked` | wildthoughts/views.py:449-452 | Corrected signing: the profile becomes a signer exactly when the raised count is saved. Otherwise nothing changes, and a new profile gets an error. |
| `SignPetitionView.CheckedSigningCountsEverySigner` | wildthoughts/views.py:449-452 | With corrected signing, a count that matches the signers keeps matching over any sequence of requests. |
| `SignPetitionView.Get` | wildthoughts/views.py:443-459 | An anonymous user gets a login answer and the petition is unchanged. A missing petition gives an error. Otherwise the stored state and the answer are those of `SignRequest`. The in-memory count is raised even when the save fails. |

## Findings

| source | as written | input that shows it | evidently intended | confidence | as-written member | corrected member |
|---|---|---|---|---|---|---|
| wildthoughts/views.py:39-48 | `validate` keeps every key of `OPTIONS_ORDER` for every allowed model, except the two special cases. `sort_model` then orders by a field the model may not have. | `sort_by=name` on the discussion list, `sort_by=overrated` on the petition list, `sort_by=most_signed` on the animal list | An option whose field the model lacks falls back to 'newest', as other unusable options do. | medium; not executed | `Sorter.ValidateAdmitsMissingColumns` | `Sorter.ValidateForModel` |
| wildthoughts/views.py:449-452 | The profile is added to `signed_by` before `save()` runs its guards. At the goal, the save is rejected but the signer stays recorded. | A petition with goal 1, 1 signature and signer 7; profile 8 signs | A profile becomes a signer exactly when its signature is counted. | medium; not executed | `SignPetitionView.SignAtGoalLosesCount` | `SignPetitionView.SignRequestChecked` |

`Sorter.SortModel`, `SignPetitionView.SignRequest` and `SignPetitionView.Get`
model the code as written. The corrected members exist beside them, with
their properties proved.

## Left out

- The database work itself is not modelled: ordering, filtering, pagination and `SearchView`'s substring search. A listing is modelled as the rows it selects and the field it orders by.
- `slugify` is not defined. It is a parameter, so every statement holds for any slug function.
- The progress-bar width of `PetitionView` and `static/js/petition.js` is not modelled, because it uses floating-point division and truncation.
- The seeding script and the download, database and file helpers are not modelled: HTTP scraping, thread pools, JSON files and the filesystem. The same goes for the client-side JavaScript and the legacy `animals_of_all_time` app.
- Authentication, templates, URL routing, the admin, the template tags and JSON response shapes are framework plumbing. Only the login, error and success outcomes of the signing view are kept.
- The `VoteView.get` request handling is not modelled: the category lookup, `int(id)` and the broad exception handler. Choosing the 'petitions' category hands it a Petition, which has no vote fields, so it answers with an error.
- The `save()` call at the end of each vote transition is not modelled. It re-runs the slug hook of Animal, Discussion or UserList, but the vote path never changes the name or title.
- `SignPetitionView.Get` takes the fetched petition, or null when the id names none, and an optional profile. Parsing `petition_id` is not modelled. A missing `petition_id` raises outside the `try` block, and that is not modelled either.
- `votes`, `goal` and `signatures` are database integer fields with a fixed width. The model uses unbounded integers, so overflow is not modelled.
- Concurrent requests are not modelled: each request is applied whole, one after another. Two simultaneous votes can lose an update in the real system.
- The unique constraints on `Animal.name` and on the `slug` of Animal, Discussion, Petition and UserList (wildthoughts/models.py:24, 31, 51, 85, 110) are not modelled. A colliding `save()` raises IntegrityError in the real system, but the model's `Save` methods always write. `Forms.AcceptedTitleStaysDistinct` covers only the form path.
- `ProfileView.get` looks up the user by username with `User.objects.get`, which raises for an unknown username. That lookup is not modelled: `ViewOptions.ProfileListing` takes the profile as given.
- `NoResponse` stands for the view returning `None` for a profile that has already signed. Django then raises ValueError outside the view, so the client gets a server error. That framework behaviour is not modelled.
- The validators test title and slug equality exactly as sets of strings. Database collation, for example case-insensitive matching, is not modelled.
