/** The signing step of `SignPetitionView` in wildthoughts/views.py. The step
    is not atomic: the profile is added to `signed_by` (written at once), the
    counter is raised in memory, and only then does `Petition.save` run its
    guards and, if they pass, write the row. */
module SignPetitionView {
  import opened Common
  import opened Models

  /** The JSON status the view answers with; `NoResponse` is the path where
      the profile has already signed and the view returns nothing. */
  datatype SignResponse = Signed | Error | Login | NoResponse

  /** The database after one request, and the answer. */
  datatype Signing = Signing(db: PetitionDb, response: SignResponse)

  /** The save guards hold for the row. */
  predicate RowValid(row: PetitionRow)
  {
    SaveCheck(row.signatures, row.goal) == Pass
  }

  /** One signing request by an authenticated profile, as written. */
  function SignRequest(db: PetitionDb, p: ProfileId, slugify: Slugify): (r: Signing)
    ensures p in db.signedBy ==> r == Signing(db, NoResponse)
    ensures p !in db.signedBy ==> r.db.signedBy == db.signedBy + {p}
    ensures p !in db.signedBy ==> (r.response == Signed <==> RowValid(db.row.(signatures := db.row.signatures + 1)))
    ensures r.response == Signed ==>
      r.db.row == db.row.(signatures := db.row.signatures + 1, slug := slugify(db.row.title))
    ensures r.response != Signed ==> r.db.row == db.row
    ensures p !in db.signedBy && r.response != Signed ==> r.response == Error
  {
    if p in db.signedBy then
      Signing(db, NoResponse)
    else
      var raised := db.row.(signatures := db.row.signatures + 1);
      var signers := db.signedBy + {p};
      match SaveCheck(raised.signatures, raised.goal)
      case Pass => Signing(PetitionDb(raised.(slug := slugify(raised.title)), signers), Signed)
      case Fail(_) => Signing(PetitionDb(db.row, signers), Error)
  }

  /** The database after a sequence of signing requests. */
  function SignAll(db: PetitionDb, profiles: seq<ProfileId>, slugify: Slugify): PetitionDb
    decreases |profiles|
  {
    if profiles == [] then db
    else SignAll(SignRequest(db, profiles[0], slugify).db, profiles[1..], slugify)
  }

  /** Over any sequence of requests the stored row keeps the save guards and
      never counts more signatures than there are signers. */
  lemma {:induction false} SignAllKeepsRowValid(db: PetitionDb, profiles: seq<ProfileId>, slugify: Slugify)
    requires RowValid(db.row) && db.row.signatures <= |db.signedBy|
    ensures RowValid(SignAll(db, profiles, slugify).row)
    ensures SignAll(db, profiles, slugify).row.signatures <= |SignAll(db, profiles, slugify).signedBy|
    decreases |profiles|
  {
    if profiles != [] {
      var p := profiles[0];
      var next := SignRequest(db, p, slugify).db;
      if p !in db.signedBy {
        assert |next.signedBy| == |db.signedBy| + 1;
      }
      SignAllKeepsRowValid(next, profiles[1..], slugify);
    }
  }

  /** As written, a profile that signs a petition which has reached its goal
      is recorded as a signer while the count stays where it was: the request
      fails, and the count now trails the signers. */
  lemma SignAtGoalLosesCount(slugify: Slugify)
    ensures var db := PetitionDb(PetitionRow("Save the owls", 1, 1, slugify("Save the owls")), {7});
      var r := SignRequest(db, 8, slugify);
      db.row.signatures == |db.signedBy| && r.response == Error && r.db.row.signatures + 1 == |r.db.signedBy|
  {
  }

  /** Signing as evidently intended: the profile becomes a signer exactly
      when the raised count is saved. */
  function SignRequestChecked(db: PetitionDb, p: ProfileId, slugify: Slugify): (r: Signing)
    ensures p in db.signedBy ==> r == Signing(db, NoResponse)
    ensures r.response == Signed <==> p !in db.signedBy && RowValid(db.row.(signatures := db.row.signatures + 1))
    ensures r.response == Signed ==>
      r.db == PetitionDb(db.row.(signatures := db.row.signatures + 1, slug := slugify(db.row.title)), db.signedBy + {p})
    ensures r.response != Signed ==> r.db == db
    ensures p !in db.signedBy && r.response != Signed ==> r.response == Error
  {
    if p in db.signedBy then
      Signing(db, NoResponse)
    else
      var raised := db.row.(signatures := db.row.signatures + 1);
      match SaveCheck(raised.signatures, raised.goal)
      case Pass => Signing(PetitionDb(raised.(slug := slugify(raised.title)), db.signedBy + {p}), Signed)
      case Fail(_) => Signing(db, Error)
  }

  function SignAllChecked(db: PetitionDb, profiles: seq<ProfileId>, slugify: Slugify): PetitionDb
    decreases |profiles|
  {
    if profiles == [] then db
    else SignAllChecked(SignRequestChecked(db, profiles[0], slugify).db, profiles[1..], slugify)
  }

  /** With the corrected step, a petition whose count matches its signers
      keeps the guards and the match over any sequence of requests. */
  lemma {:induction false} CheckedSigningCountsEverySigner(db: PetitionDb, profiles: seq<ProfileId>, slugify: Slugify)
    requires RowValid(db.row) && db.row.signatures == |db.signedBy|
    ensures RowValid(SignAllChecked(db, profiles, slugify).row)
    ensures SignAllChecked(db, profiles, slugify).row.signatures == |SignAllChecked(db, profiles, slugify).signedBy|
    decreases |profiles|
  {
    if profiles != [] {
      var p := profiles[0];
      var next := SignRequestChecked(db, p, slugify).db;
      if p !in db.signedBy {
        assert |db.signedBy + {p}| == |db.signedBy| + 1;
      }
      CheckedSigningCountsEverySigner(next, profiles[1..], slugify);
    }
  }

  /** `SignPetitionView.get` on a petition fetched by id (null when the id
      names no petition) for the requesting profile (None when the user is
      not logged in). */
  method Get(petition: Petition?, user: Option<ProfileId>, slugify: Slugify) returns (response: SignResponse)
    requires petition != null ==> petition.Loaded()
    modifies petition
    ensures user.None? ==> response == Login
    ensures user.Some? && petition == null ==> response == Error
    ensures user.None? && petition != null ==> unchanged(petition)
    ensures user.Some? && petition != null ==>
      && petition.stored.Some?
      && Signing(petition.Db(), response) == SignRequest(old(petition.Db()), user.value, slugify)
    ensures user.Some? && petition != null && user.value !in old(petition.signedBy) ==>
      petition.signatures == old(petition.signatures) + 1
  {
    if user.None? {
      return Login;
    }
    if petition == null {
      return Error;
    }
    var profile := user.value;
    if profile !in petition.signedBy {
      petition.signatures := petition.signatures + 1;
      petition.signedBy := petition.signedBy + {profile};
      var outcome := petition.Save(slugify);
      if outcome.Fail? {
        return Error;
      }
      return Signed;
    }
    response := NoResponse;
  }
}
