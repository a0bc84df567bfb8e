/** The request handlers of server.js over the module-level state `polls` and
    `pollCounter`, which they update in place. */
module PollServer {
  import opened PollTypes
  import opened PollSpec

  class PollStore {
    var polls: map<int, Poll>
    var pollCounter: int

    /** The store as a value, for the step functions of PollSpec. */
    function State(): (s: Store)
      reads this
    {
      Store(polls, pollCounter)
    }

    ghost predicate Valid()
      reads this
    {
      Inv(State())
    }

    /** Process start: no polls, counter at zero. */
    constructor ()
      ensures Valid()
      ensures State() == Empty
    {
      polls := map[];
      pollCounter := 0;
    }

    /** POST /api/poll. */
    method Create(question: Option<string>, optionsTexts: OptionsField) returns (r: Outcome)
      requires Valid()
      modifies this
      ensures Valid()
      ensures (r, State()) == CreateStep(old(State()), question, optionsTexts)
      ensures r.Err? ==> polls == old(polls) && pollCounter == old(pollCounter)
      ensures r.Ok? ==> r.poll.id == pollCounter == old(pollCounter) + 1 && polls == old(polls)[r.poll.id := r.poll]
    {
      CreatePreservesInv(State(), question, optionsTexts);
      match optionsTexts
      case Unparseable =>
        return Err(ServerError);
      case Parsed(texts) =>
        if question.None? || question.value == "" || |texts| < 2 {
          return Err(BadRequest);
        }
        pollCounter := pollCounter + 1;
        var newPoll := Poll(pollCounter, question.value, NewOptions(texts), []);
        polls := polls[newPoll.id := newPoll];
        r := Ok(newPoll);
    }

    /** POST /api/poll/:id/vote. */
    method Vote(id: int, optionIndex: int, ip: string) returns (r: Outcome)
      requires Valid()
      modifies this
      ensures Valid()
      ensures (r, State()) == VoteStep(old(State()), id, optionIndex, ip)
      ensures r.Err? ==> polls == old(polls) && pollCounter == old(pollCounter)
      ensures r.Ok? ==> pollCounter == old(pollCounter) && polls == old(polls)[id := r.poll]
    {
      VotePreservesInv(State(), id, optionIndex, ip);
      if id !in polls {
        return Err(NotFound);
      }
      var poll := polls[id];
      if ip in poll.votedIPs {
        return Err(AlreadyVoted);
      }
      if !(0 <= optionIndex < |poll.options|) {
        return Err(InvalidOption);
      }
      var chosen := poll.options[optionIndex];
      poll := poll.(options := poll.options[optionIndex := chosen.(votes := chosen.votes + 1)]);
      poll := poll.(votedIPs := poll.votedIPs + [ip]);
      polls := polls[id := poll];
      r := Ok(poll);
    }

    /** GET /api/poll/:id. */
    method Get(id: int) returns (r: Outcome)
      ensures r == Lookup(State(), id)
      ensures r.Ok? <==> id in polls
    {
      if id in polls {
        r := Ok(polls[id]);
      } else {
        r := Err(NotFound);
      }
    }

    /** GET /admin/polls. */
    method List() returns (all: seq<Poll>)
      requires Valid()
      ensures all == AllPolls(State())
      ensures |all| == pollCounter
      ensures forall i, j :: 0 <= i < j < |all| ==> all[i].id < all[j].id
      ensures forall k :: k in polls ==> polls[k] in all
    {
      AllPollsSortedAndComplete(State());
      all := PollsUpTo(polls, pollCounter);
    }
  }

  /** The end-to-end session: a two-option poll gets id 1, a first vote from an
      address is counted, its repeat is refused, and a second address adds to
      the same option. */
  method FavoriteColorSession()
  {
    var store := new PollStore();
    var created := store.Create(Some("Favorite color?"), Parsed(["Red", "Blue"]));
    assert created.Ok? && created.poll.id == 1;
    assert created.poll.options[0].votes == 0 && created.poll.options[1].votes == 0;
    assert StatusCode(PostPoll, created) == 201;

    var first := store.Vote(1, 1, "1.2.3.4");
    assert first.Ok? && first.poll.options[1].votes == 1;
    assert first.poll.votedIPs == ["1.2.3.4"];

    var again := store.Vote(1, 1, "1.2.3.4");
    assert again == Err(AlreadyVoted);
    assert StatusCode(PostVote, again) == 403;

    var second := store.Vote(1, 1, "5.6.7.8");
    assert second.Ok? && second.poll.options[1].votes == 2;

    var missing := store.Get(2);
    assert StatusCode(GetPoll, missing) == 404;
  }
}
