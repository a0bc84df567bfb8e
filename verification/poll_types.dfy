/** Values handled by the poll service: polls, their options, request fields,
    and the failures a request can end in (server.js). */
module PollTypes {

  /** A nullable value; `None` stands for JavaScript's `null` or a missing field. */
  datatype Option<+T> = None | Some(value: T)

  /** One selectable answer of a poll. `image` is the reference of an uploaded
      picture; uploads are disabled, so every option is created with `None`. */
  datatype PollOption = PollOption(text: string, image: Option<string>, votes: nat)

  /** A stored poll. `votedIPs` lists, in arrival order, the addresses whose vote
      was accepted. */
  datatype Poll = Poll(id: int, question: string, options: seq<PollOption>, votedIPs: seq<string>)

  /** The `optionsTexts` form field after JSON decoding: either the text did not
      parse, or it parsed to a list of option texts. */
  datatype OptionsField = Unparseable | Parsed(texts: seq<string>)

  /** Why a request failed. */
  datatype Error =
    | BadRequest     // question missing or empty, or fewer than two options
    | NotFound       // no poll under that id
    | AlreadyVoted   // this address already voted on this poll
    | InvalidOption  // option index out of range
    | ServerError    // the option list could not be decoded

  /** What a create, vote or get request hands back to the transport layer. */
  datatype Outcome = Ok(poll: Poll) | Err(error: Error)

  /** The routes whose handlers can fail; `GET /admin/polls` always answers 200. */
  datatype Endpoint = PostPoll | PostVote | GetPoll

  /** The HTTP status the handler of `ep` sends for outcome `o`. */
  function StatusCode(ep: Endpoint, o: Outcome): (code: int)
    ensures 200 <= code < 300 <==> o.Ok?
    ensures o.Ok? ==> (code == 201 <==> ep == PostPoll)
    ensures o.Ok? && ep != PostPoll ==> code == 200
    ensures o.Err? ==> (code == 400 <==> o.error in {BadRequest, InvalidOption})
    ensures o == Err(NotFound) <==> code == 404
    ensures o == Err(AlreadyVoted) <==> code == 403
    ensures o == Err(ServerError) <==> code == 500
  {
    match o
    case Ok(_) => if ep == PostPoll then 201 else 200
    case Err(BadRequest) => 400
    case Err(NotFound) => 404
    case Err(AlreadyVoted) => 403
    case Err(InvalidOption) => 400
    case Err(ServerError) => 500
  }

  /** The options of a new poll: one per text, in order, with no image and no votes. */
  function NewOptions(texts: seq<string>): (r: seq<PollOption>)
    ensures |r| == |texts|
    ensures forall i :: 0 <= i < |r| ==> r[i] == PollOption(texts[i], None, 0)
  {
    if texts == [] then [] else [PollOption(texts[0], None, 0)] + NewOptions(texts[1..])
  }

  /** Sum of the vote counters of `opts`. */
  function TotalVotes(opts: seq<PollOption>): (total: nat)
  {
    if opts == [] then 0 else opts[0].votes + TotalVotes(opts[1..])
  }

  lemma {:induction false} NewOptionsHaveNoVotes(texts: seq<string>)
    ensures TotalVotes(NewOptions(texts)) == 0
  {
    if texts != [] {
      var r := NewOptions(texts);
      assert r[1..] == NewOptions(texts[1..]);
      NewOptionsHaveNoVotes(texts[1..]);
    }
  }

  /** Raising one counter by one raises the total by one. */
  lemma {:induction false} TotalVotesAfterIncrement(opts: seq<PollOption>, i: int)
    requires 0 <= i < |opts|
    ensures TotalVotes(opts[i := opts[i].(votes := opts[i].votes + 1)]) == TotalVotes(opts) + 1
  {
    var bumped := opts[i := opts[i].(votes := opts[i].votes + 1)];
    if i == 0 {
      assert bumped[1..] == opts[1..];
    } else {
      var tail := opts[1..];
      assert bumped[1..] == tail[i - 1 := tail[i - 1].(votes := tail[i - 1].votes + 1)];
      TotalVotesAfterIncrement(tail, i - 1);
    }
  }

  /** No address occurs twice. */
  ghost predicate Distinct(ips: seq<string>)
  {
    forall i, j :: 0 <= i < j < |ips| ==> ips[i] != ips[j]
  }

  /** The shape every stored poll keeps: a non-empty question, at least two
      options, no images, each voter recorded once, and one vote per voter. */
  ghost predicate WellFormed(p: Poll)
  {
    && p.question != ""
    && |p.options| >= 2
    && (forall i :: 0 <= i < |p.options| ==> p.options[i].image == None)
    && Distinct(p.votedIPs)
    && TotalVotes(p.options) == |p.votedIPs|
  }

  /** `after` is `before` with one more vote for option `i`, cast from `ip`,
      and nothing else changed. */
  ghost predicate VoteRecorded(before: Poll, after: Poll, i: int, ip: string)
  {
    && 0 <= i < |before.options|
    && after.id == before.id
    && after.question == before.question
    && |after.options| == |before.options|
    && after.options[i].text == before.options[i].text
    && after.options[i].image == before.options[i].image
    && after.options[i].votes == before.options[i].votes + 1
    && (forall j :: 0 <= j < |before.options| && j != i ==> after.options[j] == before.options[j])
    && after.votedIPs == before.votedIPs + [ip]
  }

  /** The in-place update of an accepted vote: bump option `i`, then remember `ip`. */
  function RecordVote(p: Poll, i: int, ip: string): (r: Poll)
    requires 0 <= i < |p.options|
    ensures VoteRecorded(p, r, i, ip)
    ensures TotalVotes(r.options) == TotalVotes(p.options) + 1
  {
    TotalVotesAfterIncrement(p.options, i);
    var bumped := p.(options := p.options[i := p.options[i].(votes := p.options[i].votes + 1)]);
    bumped.(votedIPs := bumped.votedIPs + [ip])
  }

  /** An accepted vote from a new address keeps a poll well formed. */
  lemma RecordVoteKeepsWellFormed(p: Poll, i: int, ip: string)
    requires WellFormed(p) && 0 <= i < |p.options| && ip !in p.votedIPs
    ensures WellFormed(RecordVote(p, i, ip))
  {
  }
}
