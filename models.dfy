/** The persisted entities of wildthoughts/models.py, as far as the decision
    logic sees them: the vote fields, the petition counters and the slug hooks
    that run on every save. */
module Models {
  import opened Common

  /** Field defaults: `votes` on Animal, Discussion, Comment and UserList,
      `goal` and `signatures` on Petition. */
  const DefaultVotes: int := 0
  const DefaultGoal: int := 10
  const DefaultSignatures: int := 0

  /** The three vote fields of one voted item, as a value: the counter and the
      two many-to-many sets of profiles. */
  datatype Tally = Tally(votes: int, upvotedBy: set<ProfileId>, downvotedBy: set<ProfileId>)

  /** The quantity every vote transition keeps: the counter minus the net
      number of votes the two sets record. */
  function Balance(t: Tally): int
  {
    t.votes - |t.upvotedBy| + |t.downvotedBy|
  }

  /** No profile is recorded as both upvoting and downvoting the item. */
  predicate NoDoubleVote(t: Tally)
  {
    t.upvotedBy !! t.downvotedBy
  }

  /** The vote fields that Animal, Discussion, Comment and UserList each
      declare, held by each of them as one object so that the vote view can
      update any of the four. */
  class Ballot {
    var votes: int
    var upvotedBy: set<ProfileId>
    var downvotedBy: set<ProfileId>

    function AsTally(): Tally
      reads this
    {
      Tally(votes, upvotedBy, downvotedBy)
    }

    constructor ()
      ensures AsTally() == Tally(DefaultVotes, {}, {})
    {
      votes, upvotedBy, downvotedBy := DefaultVotes, {}, {};
    }
  }

  class Animal {
    var name: string
    var slug: string
    const ballot: Ballot

    constructor (name: string)
      ensures this.name == name && slug == ""
      ensures fresh(ballot) && ballot.AsTally() == Tally(DefaultVotes, {}, {})
    {
      this.name, slug := name, "";
      ballot := new Ballot();
    }

    /** The save hook: the slug is always re-derived from the name. */
    method Save(slugify: Slugify)
      modifies this`slug
      ensures slug == slugify(name)
    {
      slug := slugify(name);
    }
  }

  class Discussion {
    var title: string
    var slug: string
    const ballot: Ballot

    constructor (title: string)
      ensures this.title == title && slug == ""
      ensures fresh(ballot) && ballot.AsTally() == Tally(DefaultVotes, {}, {})
    {
      this.title, slug := title, "";
      ballot := new Ballot();
    }

    method Save(slugify: Slugify)
      modifies this`slug
      ensures slug == slugify(title)
    {
      slug := slugify(title);
    }
  }

  /** A comment has votes but no slug and no save hook. */
  class Comment {
    var content: string
    const ballot: Ballot

    constructor (content: string)
      ensures this.content == content
      ensures fresh(ballot) && ballot.AsTally() == Tally(DefaultVotes, {}, {})
    {
      this.content := content;
      ballot := new Ballot();
    }
  }

  class UserList {
    var title: string
    var slug: string
    const ballot: Ballot

    constructor (title: string)
      ensures this.title == title && slug == ""
      ensures fresh(ballot) && ballot.AsTally() == Tally(DefaultVotes, {}, {})
    {
      this.title, slug := title, "";
      ballot := new Ballot();
    }

    method Save(slugify: Slugify)
      modifies this`slug
      ensures slug == slugify(title)
    {
      slug := slugify(title);
    }
  }

  /** The ValidationError that `Petition.save` raises, one per guard. */
  datatype SaveError = NegativeSignatures | NegativeGoal | SignaturesOverGoal

  /** The guards of `Petition.save`, in the order they run. */
  function SaveCheck(signatures: int, goal: int): (r: Outcome<SaveError>)
    ensures r.Pass? <==> 0 <= signatures <= goal
    ensures signatures < 0 ==> r == Fail(NegativeSignatures)
    ensures 0 <= signatures && goal < 0 ==> r == Fail(NegativeGoal)
    ensures r == Fail(SignaturesOverGoal) <==> 0 <= goal < signatures
  {
    if signatures < 0 then Fail(NegativeSignatures)
    else if goal < 0 then Fail(NegativeGoal)
    else if signatures > goal then Fail(SignaturesOverGoal)
    else Pass
  }

  /** A petition built from the field defaults passes the save guards. */
  lemma DefaultPetitionSaves()
    ensures SaveCheck(DefaultSignatures, DefaultGoal) == Pass
  {
  }

  /** The petition's own row as the database holds it. */
  datatype PetitionRow = PetitionRow(title: string, goal: int, signatures: int, slug: string)

  /** What the database holds for one petition: its row and the profiles of
      the `signed_by` relation. */
  datatype PetitionDb = PetitionDb(row: PetitionRow, signedBy: set<ProfileId>)

  /** A petition instance. Its attributes change in memory; the `signedBy`
      relation is written through at once (as a many-to-many manager does);
      the row is written only by a successful `Save`, and `stored` is the row
      as last written (None before the first save). */
  class Petition {
    var title: string
    var goal: int
    var signatures: int
    var slug: string
    var signedBy: set<ProfileId>
    var stored: Option<PetitionRow>

    /** The instance's attributes are those of its stored row, as right after
        it is fetched from the database. */
    predicate Loaded()
      reads this
    {
      stored == Some(PetitionRow(title, goal, signatures, slug))
    }

    function Db(): PetitionDb
      reads this
      requires stored.Some?
    {
      PetitionDb(stored.value, signedBy)
    }

    /** A new, unsaved petition with the field defaults. */
    constructor (title: string)
      ensures this.title == title && goal == DefaultGoal && signatures == DefaultSignatures
      ensures slug == "" && signedBy == {} && stored == None
    {
      this.title, goal, signatures, slug := title, DefaultGoal, DefaultSignatures, "";
      signedBy, stored := {}, None;
    }

    /** A petition fetched from the database. */
    constructor Load(db: PetitionDb)
      ensures Loaded() && Db() == db
    {
      title, goal, signatures, slug := db.row.title, db.row.goal, db.row.signatures, db.row.slug;
      signedBy, stored := db.signedBy, Some(db.row);
    }

    /** `Petition.save`: the three guards, then the slug, then the write. A
        rejected save changes neither the slug nor the stored row. */
    method Save(slugify: Slugify) returns (outcome: Outcome<SaveError>)
      modifies this`slug, this`stored
      ensures outcome == SaveCheck(signatures, goal)
      ensures outcome.Pass? ==> slug == slugify(title) && Loaded()
      ensures outcome.Fail? ==> slug == old(slug) && stored == old(stored)
    {
      if signatures < 0 {
        return Fail(NegativeSignatures);
      }
      if goal < 0 {
        return Fail(NegativeGoal);
      }
      if signatures > goal {
        return Fail(SignaturesOverGoal);
      }
      slug := slugify(title);
      stored := Some(PetitionRow(title, goal, signatures, slug));
      outcome := Pass;
    }
  }
}
