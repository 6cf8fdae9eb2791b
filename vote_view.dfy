/** The vote transitions of `VoteView` in wildthoughts/views.py: for one item
    and one profile, a button press moves the profile between the item's
    `upvoted_by` and `downvoted_by` sets and adjusts the `votes` counter. */
module VoteView {
  import opened Common
  import opened Models

  /** Status 'upvote': the profile now upvotes the item. */
  function Upvote(t: Tally, p: ProfileId): (r: Tally)
    ensures p in r.upvotedBy && p !in r.downvotedBy
    ensures r.upvotedBy - {p} == t.upvotedBy - {p} && r.downvotedBy - {p} == t.downvotedBy - {p}
    ensures Balance(r) == Balance(t)
    ensures NoDoubleVote(t) ==> NoDoubleVote(r)
    ensures p in t.upvotedBy && p !in t.downvotedBy ==> r == t
  {
    var up := if p !in t.upvotedBy then t.(upvotedBy := t.upvotedBy + {p}, votes := t.votes + 1) else t;
    if p in up.downvotedBy then up.(votes := up.votes + 1, downvotedBy := up.downvotedBy - {p}) else up
  }

  /** Status 'downvote': the profile now downvotes the item. */
  function Downvote(t: Tally, p: ProfileId): (r: Tally)
    ensures p !in r.upvotedBy && p in r.downvotedBy
    ensures r.upvotedBy - {p} == t.upvotedBy - {p} && r.downvotedBy - {p} == t.downvotedBy - {p}
    ensures Balance(r) == Balance(t)
    ensures NoDoubleVote(t) ==> NoDoubleVote(r)
    ensures p !in t.upvotedBy && p in t.downvotedBy ==> r == t
  {
    var up := if p in t.upvotedBy then t.(upvotedBy := t.upvotedBy - {p}, votes := t.votes - 1) else t;
    if p !in up.downvotedBy then up.(votes := up.votes - 1, downvotedBy := up.downvotedBy + {p}) else up
  }

  /** Status 'upvoted': a press on an active upvote withdraws it. Only the
      profile's upvote can disappear; nothing is ever added. */
  function WithdrawUpvote(t: Tally, p: ProfileId): (r: Tally)
    ensures r.upvotedBy == t.upvotedBy - {p} && r.downvotedBy == t.downvotedBy
    ensures r.votes == t.votes - |t.upvotedBy * {p}|
    ensures Balance(r) == Balance(t)
  {
    if p in t.upvotedBy then
      assert t.upvotedBy * {p} == {p};
      t.(upvotedBy := t.upvotedBy - {p}, votes := t.votes - 1)
    else
      assert t.upvotedBy * {p} == {};
      t
  }

  /** Status 'downvoted': a press on an active downvote withdraws it. */
  function WithdrawDownvote(t: Tally, p: ProfileId): (r: Tally)
    ensures r.downvotedBy == t.downvotedBy - {p} && r.upvotedBy == t.upvotedBy
    ensures r.votes == t.votes + |t.downvotedBy * {p}|
    ensures Balance(r) == Balance(t)
  {
    if p in t.downvotedBy then
      assert t.downvotedBy * {p} == {p};
      t.(downvotedBy := t.downvotedBy - {p}, votes := t.votes + 1)
    else
      assert t.downvotedBy * {p} == {};
      t
  }

  /** `update_vote`: dispatch on the status; any other status, or none, leaves
      the item alone. */
  function Vote(t: Tally, p: ProfileId, status: Option<string>): (r: Tally)
    ensures Balance(r) == Balance(t)
    ensures NoDoubleVote(t) ==> NoDoubleVote(r)
    ensures r.upvotedBy - {p} == t.upvotedBy - {p} && r.downvotedBy - {p} == t.downvotedBy - {p}
    ensures status == Some("upvote") ==> r == Upvote(t, p)
    ensures status == Some("downvote") ==> r == Downvote(t, p)
    ensures status == Some("upvoted") ==> r == WithdrawUpvote(t, p)
    ensures status == Some("downvoted") ==> r == WithdrawDownvote(t, p)
    ensures status !in {Some("upvote"), Some("downvote"), Some("upvoted"), Some("downvoted")} ==> r == t
  {
    if status == Some("upvote") then Upvote(t, p)
    else if status == Some("downvote") then Downvote(t, p)
    else if status == Some("upvoted") then WithdrawUpvote(t, p)
    else if status == Some("downvoted") then WithdrawDownvote(t, p)
    else t
  }

  /** Pressing the same button twice has the effect of pressing it once. */
  lemma VoteIdempotent(t: Tally, p: ProfileId, status: Option<string>)
    ensures Vote(Vote(t, p, status), p, status) == Vote(t, p, status)
  {
  }

  /** One vote request as the view receives it. */
  datatype VoteRequest = VoteRequest(profile: ProfileId, status: Option<string>)

  /** The item after a sequence of requests, handled one at a time. */
  function VoteAll(t: Tally, requests: seq<VoteRequest>): Tally
    decreases |requests|
  {
    if requests == [] then t
    else VoteAll(Vote(t, requests[0].profile, requests[0].status), requests[1..])
  }

  /** Over any sequence of requests the balance is kept, and no profile ends
      up on both sides of an item that started without one. */
  lemma {:induction false} VoteAllInvariant(t: Tally, requests: seq<VoteRequest>)
    ensures Balance(VoteAll(t, requests)) == Balance(t)
    ensures NoDoubleVote(t) ==> NoDoubleVote(VoteAll(t, requests))
    decreases |requests|
  {
    if requests != [] {
      VoteAllInvariant(Vote(t, requests[0].profile, requests[0].status), requests[1..]);
    }
  }

  /** An item created with the default counter (0) and empty sets always
      shows the number of upvoting profiles minus the number of downvoting
      ones. */
  lemma {:induction false} FreshItemCountsNetVotes(requests: seq<VoteRequest>)
    ensures var r := VoteAll(Tally(DefaultVotes, {}, {}), requests);
      r.votes == |r.upvotedBy| - |r.downvotedBy| && NoDoubleVote(r)
  {
    VoteAllInvariant(Tally(DefaultVotes, {}, {}), requests);
  }

  method UpdateUpvote(profile: ProfileId, item: Ballot)
    modifies item
    ensures item.AsTally() == Upvote(old(item.AsTally()), profile)
  {
    ghost var t := item.AsTally();
    if profile !in item.upvotedBy {
      item.upvotedBy := item.upvotedBy + {profile};
      item.votes := item.votes + 1;
    }
    ghost var up := item.AsTally();
    assert up == if profile !in t.upvotedBy then t.(upvotedBy := t.upvotedBy + {profile}, votes := t.votes + 1) else t;
    if profile in item.downvotedBy {
      item.votes := item.votes + 1;
      item.downvotedBy := item.downvotedBy - {profile};
    }
    assert item.AsTally() == if profile in up.downvotedBy then up.(votes := up.votes + 1, downvotedBy := up.downvotedBy - {profile}) else up;
  }

  method UpdateDownvote(profile: ProfileId, item: Ballot)
    modifies item
    ensures item.AsTally() == Downvote(old(item.AsTally()), profile)
  {
    ghost var t := item.AsTally();
    if profile in item.upvotedBy {
      item.upvotedBy := item.upvotedBy - {profile};
      item.votes := item.votes - 1;
    }
    ghost var up := item.AsTally();
    assert up == if profile in t.upvotedBy then t.(upvotedBy := t.upvotedBy - {profile}, votes := t.votes - 1) else t;
    if profile !in item.downvotedBy {
      item.votes := item.votes - 1;
      item.downvotedBy := item.downvotedBy + {profile};
    }
    assert item.AsTally() == if profile !in up.downvotedBy then up.(votes := up.votes - 1, downvotedBy := up.downvotedBy + {profile}) else up;
  }

  method UpdateUpvoted(profile: ProfileId, item: Ballot)
    modifies item
    ensures item.AsTally() == WithdrawUpvote(old(item.AsTally()), profile)
  {
    if profile in item.upvotedBy {
      item.upvotedBy := item.upvotedBy - {profile};
      item.votes := item.votes - 1;
    }
  }

  method UpdateDownvoted(profile: ProfileId, item: Ballot)
    modifies item
    ensures item.AsTally() == WithdrawDownvote(old(item.AsTally()), profile)
  {
    if profile in item.downvotedBy {
      item.downvotedBy := item.downvotedBy - {profile};
      item.votes := item.votes + 1;
    }
  }

  method UpdateVote(profile: ProfileId, item: Ballot, status: Option<string>)
    modifies item
    ensures item.AsTally() == Vote(old(item.AsTally()), profile, status)
  {
    if status == Some("upvote") {
      UpdateUpvote(profile, item);
    } else if status == Some("downvote") {
      UpdateDownvote(profile, item);
    } else if status == Some("upvoted") {
      UpdateUpvoted(profile, item);
    } else if status == Some("downvoted") {
      UpdateDownvoted(profile, item);
    }
  }
}
