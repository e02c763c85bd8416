/** A poll as shown on a business profile: vote totals, per-option percentages, the
    "already voted" test, the vote handler's guards and the conditions of what is shown. */
module PollDisplay {
  import opened Common
  import opened Entities
  import opened Interaction

  /** The sum of the options' vote counts. */
  function TotalVotes(options: seq<PollOption>): nat {
    if options == [] then 0 else options[0].votes + TotalVotes(options[1..])
  }

  /** The total of a concatenation is the sum of the totals. */
  lemma {:induction false} TotalVotesConcat(a: seq<PollOption>, b: seq<PollOption>)
    ensures TotalVotes(a + b) == TotalVotes(a) + TotalVotes(b)
  {
    if a == [] {
      assert a + b == b;
    } else {
      assert (a + b)[1..] == a[1..] + b;
      TotalVotesConcat(a[1..], b);
    }
  }

  /** No option has more votes than the poll in total. */
  lemma {:induction false} OptionVotesWithinTotal(options: seq<PollOption>, i: int)
    requires 0 <= i < |options|
    ensures options[i].votes <= TotalVotes(options)
    decreases |options|
  {
    if i > 0 {
      OptionVotesWithinTotal(options[1..], i - 1);
    }
  }

  /** The percentage shown for an option: 0 when nobody has voted, otherwise
      `Math.round(votes / total * 100)`, computed exactly. */
  function Percentage(votes: nat, total: nat): (p: nat)
    ensures total == 0 ==> p == 0
    // round half up: p is the integer nearest to 100 * votes / total, ties going up
    ensures total > 0 ==> 2 * (p * total) - total <= 200 * votes < 2 * (p * total) + total
  {
    if total == 0 then 0 else (200 * votes + total) / (2 * total)
  }

  /** With at most `total` votes, the percentage is between 0 and 100. */
  lemma PercentageAtMost100(votes: nat, total: nat)
    requires votes <= total
    ensures Percentage(votes, total) <= 100
  {
    if total > 0 {
      assert 200 * votes + total < 101 * (2 * total);
      QuotientBelow(200 * votes + total, 2 * total, 101);
    }
  }

  lemma QuotientBelow(x: nat, d: nat, k: nat)
    requires d > 0 && x < k * d
    ensures x / d < k
  {
    var q := x / d;
    assert q * d <= x;
    if q >= k {
      MulMonotone(k, q, d);
    }
  }

  lemma MulMonotone(a: nat, b: nat, c: nat)
    requires a <= b
    ensures a * c <= b * c
  {
  }

  /** Every option's percentage lies in [0, 100]. */
  lemma PercentagesInRange(poll: Poll, i: int)
    requires 0 <= i < |poll.options|
    ensures Percentage(poll.options[i].votes, TotalVotes(poll.options)) <= 100
  {
    OptionVotesWithinTotal(poll.options, i);
    PercentageAtMost100(poll.options[i].votes, TotalVotes(poll.options));
  }

  /** `hasVoted`: a user is signed in and the poll's voter list names them. */
  predicate HasVoted(user: Option<User>, poll: Poll) {
    user.Some? && poll.voters.Some? && user.value.id in poll.voters.value
  }

  datatype Widget = Widget(loading: bool, error: string)

  const LoginToVote := "Please login to vote"
  const AlreadyVoted := "You have already voted on this poll"
  const VoteFailed := "Failed to submit vote"

  /** After `handleVote`: the widget, the calls made, and whether the page was asked to refresh. */
  datatype Outcome = Outcome(widget: Widget, calls: seq<Call>, refreshed: bool)

  /** `handleVote(optionIndex)`: signed-out visitors and repeat voters are stopped locally.
      `hasCallback` says whether the page passed the optional `onVoteSuccess` prop. */
  function Vote(w: Widget, user: Option<User>, poll: Poll, optionIndex: int, hasCallback: bool, reply: Reply<()>): (r: Outcome)
    ensures user.None? ==> r == Outcome(w.(error := LoginToVote), [], false)
    ensures HasVoted(user, poll) ==> r == Outcome(w.(error := AlreadyVoted), [], false)
    ensures r.calls != [] <==> user.Some? && !HasVoted(user, poll)
    ensures r.calls != [] ==> r.calls == [VotePollCall(poll.id, optionIndex)] && !r.widget.loading
    ensures r.refreshed <==> hasCallback && r.calls != [] && reply.Ok?
    ensures r.calls != [] && reply.Err? ==> r.widget.error == ErrorText(reply.message, VoteFailed)
  {
    if user.None? then Outcome(w.(error := LoginToVote), [], false)
    else if HasVoted(user, poll) then Outcome(w.(error := AlreadyVoted), [], false)
    else
      var calls := [VotePollCall(poll.id, optionIndex)];
      match reply
      case Ok(_) => Outcome(Widget(false, ""), calls, hasCallback)
      case Err(m) => Outcome(Widget(false, ErrorText(m, VoteFailed)), calls, false)
  }

  /** An option button is disabled while a vote is in flight, after voting, and once the poll ended. */
  predicate OptionDisabled(w: Widget, user: Option<User>, poll: Poll) {
    w.loading || HasVoted(user, poll) || !poll.isActive
  }

  /** Bars and percentages are shown only to someone who has voted. */
  predicate ShowsPercentages(user: Option<User>, poll: Poll) {
    HasVoted(user, poll)
  }

  predicate ShowsEndedBadge(poll: Poll) {
    !poll.isActive
  }

  predicate ShowsVotedBadge(user: Option<User>, poll: Poll) {
    HasVoted(user, poll) && poll.isActive
  }

  /** The count label uses the singular exactly for one vote. */
  function VoteLabel(votes: nat): string {
    if votes == 1 then "vote" else "votes"
  }

  /** What the rendering promises: at most one status badge; whoever sees percentages
      cannot vote again; a button that accepts a click leads to a vote request for a
      signed-in visitor, while a signed-out click only shows the login message. */
  lemma DisplayConsistent(w: Widget, user: Option<User>, poll: Poll, optionIndex: int, hasCallback: bool, reply: Reply<()>)
    ensures !(ShowsEndedBadge(poll) && ShowsVotedBadge(user, poll))
    ensures ShowsPercentages(user, poll) ==> OptionDisabled(w, user, poll)
    ensures !OptionDisabled(w, user, poll) && user.Some? ==> Vote(w, user, poll, optionIndex, hasCallback, reply).calls != []
    ensures !OptionDisabled(w, user, poll) && user.None? ==>
      Vote(w, user, poll, optionIndex, hasCallback, reply) == Outcome(w.(error := LoginToVote), [], false)
    ensures VoteLabel(1) == "vote" && (forall n: nat :: n != 1 ==> VoteLabel(n) == "votes")
  {
  }
}
