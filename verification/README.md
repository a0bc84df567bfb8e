# In-memory poll store

This project models the poll store behind a small polling web service
(`server.js`). The service keeps every poll in process memory, in a map
`polls` from id to poll and a counter `pollCounter` of the last id handed
out. It answers four requests:

- `POST /api/poll` creates a poll from a question and a JSON-encoded list of
  option texts.
- `POST /api/poll/:id/vote` records one vote per IP address per poll.
- `GET /api/poll/:id` reads one poll.
- `GET /admin/polls` lists all polls.

The model has three modules:

- `PollTypes` (`poll_types.dfy`) holds the values: `Poll`, `PollOption`, the
  decoded request fields, the failures, and the mapping from outcome to HTTP
  status. It also holds the pure pieces of the handlers: building the options
  of a new poll, and the vote update of one poll. `WellFormed` is the shape
  every stored poll keeps: at least two options, no images, each voter
  recorded once, and total votes equal to the number of voters.
- `PollSpec` (`poll_spec.dfy`) describes the store as a value (`Store`). It has
  one step function per handler and the invariant `Inv`: the keys are exactly
  `1..counter`, each poll is stored under its own id, and each poll is well
  formed. It also states what holds across any sequence of requests (`Run`):
  - the invariant is kept;
  - the counter never goes back, and no poll is removed or renumbered;
  - no option loses votes, and no recorded voter is dropped;
  - a repeat voter is always refused;
  - a new id is never one already in use.
- `PollServer` (`poll_server.dfy`) is the class `PollStore`. It has the two
  fields the handlers update in place. Its methods `Create` and `Vote` change
  them step by step, like the handlers, and are proved equal to the step
  functions. `Get` and `List` only read.

Other versions of this server have a poll logo, image uploads and an edit
endpoint; this `server.js` has none of them, and the model follows it. It
also never checks that an option text is non-empty, and neither does the
model.

## Model

| member | source | states |
|---|---|---|
| PollTypes.StatusCode | server.js:33-74 | 201 for a created poll and exactly 200 for a successful vote or get; 400 for validation or bad index, 403 for a repeat voter, 404 for an unknown poll, 500 for an undecodable option list |
| PollTypes.NewOptions | server.js:39-43 | one option per input text, same order, text copied, no image, zero votes |
| PollTypes.NewOptionsHaveNoVotes | server.js:39-43 | a new poll's options sum to zero votes |
| PollTypes.TotalVotesAfterIncrement | server.js:63 | raising one option's counter by one raises the poll's total by exactly one |
| PollTypes.RecordVote | server.js:63-64 | an accepted vote raises exactly the chosen counter by one and appends the voter; the id, question, texts, images and all other options are unchanged |
| PollTypes.RecordVoteKeepsWellFormed | server.js:60-64 | a vote from a new address keeps voters distinct and total votes equal to the number of voters |
| PollSpec.EmptyIsValid | server.js:15-16 | the start state (no polls, counter 0) satisfies the store invariant |
| PollSpec.CreateStep | server.js:27-51 | an undecodable list gives 500; a missing or empty question, or fewer than two options, gives 400; every failure leaves polls and counter unchanged; success takes id counter+1, builds the poll from the inputs with no voters, adds it under that id, and leaves every other poll unchanged |
| PollSpec.VoteStep | server.js:53-66 | checks run in order: unknown id gives 404, then a repeat voter gives 403 (even with a bad index), then an index outside the options gives 400; a stored poll, a new address and an in-range index always succeed (if and only if); failures change nothing; success records exactly one vote and changes no other poll and not the counter |
| PollSpec.Lookup | server.js:68-76 | succeeds exactly when the id is stored, returning that poll; otherwise 404 |
| PollSpec.PollsUpTo | server.js:79 | the polls under ids 1..n, in ascending id order |
| PollSpec.AllPolls | server.js:78-80 | the listing has one entry per id handed out, entry i being the poll with id i+1 |
| PollSpec.AllPollsSortedAndComplete | server.js:79 | the listing is strictly sorted by id and contains every stored poll |
| PollSpec.CreatePreservesInv | server.js:36-46 | creation keeps the store invariant: ids 1..counter, each poll under its own id and well formed |
| PollSpec.VotePreservesInv | server.js:58-64 | voting keeps the store invariant, including one vote per recorded voter |
| PollSpec.ApplyPreservesInv | server.js:27-80 | serving any one request keeps the store invariant |
| PollSpec.RunPreservesInv | server.js:27-80 | every store reached by any sequence of requests satisfies the invariant |
| PollSpec.ApplyGrows | server.js:27-80 | one request never lowers the counter, removes or renumbers a poll, changes its question or texts, lowers a counter or drops a voter |
| PollSpec.RunGrows | server.js:27-80 | the same holds across any sequence of requests |
| PollSpec.RepeatVoteRejected | server.js:60-64 | once a vote from an address is accepted on a poll, every later vote from it on that poll, after any requests, gives 403 and changes nothing |
| PollSpec.FreshIdAfterRun | server.js:37 | a poll created after any requests gets an id above every id in use before them, so ids are never reused |
| PollServer.PollStore.constructor | server.js:15-16 | the store starts empty with counter 0 and satisfies the invariant |
| PollServer.PollStore.Create | server.js:27-51 | updates the map and counter in place exactly as CreateStep says and keeps the invariant |
| PollServer.PollStore.Vote | server.js:53-66 | updates the stored poll in place exactly as VoteStep says and keeps the invariant |
| PollServer.PollStore.Get | server.js:68-76 | returns the stored poll when the id is present, otherwise not-found, without changing the store |
| PollServer.PollStore.List | server.js:78-80 | returns every stored poll once, in ascending id order, without changing the store |

## Left out

- Express routing, CORS, JSON body parsing and the static HTML pages
  (server.js:1-12, 22-24) are framework I/O. So are JSON serialisation of
  responses and `module.exports`.
- File uploads (server.js:19, 27). Uploads are disabled, so every option's
  `image` is `None`. This is part of `WellFormed`.
- JSON decoding of `optionsTexts` (server.js:30). It is modelled as an input
  that is either `Unparseable` (the 500 path) or an already-decoded list of
  strings.
- Option lists that decode to a JSON value other than an array are not
  modelled. JSON `null`, `false`, `0` and a string shorter than two give 400.
  Every other non-array value passes the length check at server.js:32: a
  string of length two or more, any non-zero number, `true`, and any object
  whose `length` is missing or does not compare below 2 (so `{}` and
  `{"length": 5}` pass, while `{"length": 1}` or `{"length": null}` give
  400). For those, with a question present, `++pollCounter` runs
  (server.js:37), `.map` throws, and the handler answers 500
  (server.js:48-49), so an id is used up with no poll stored under it. With a
  missing or empty question the same values give 400 and use up no id.
- A `question` that is not a string is not modelled. The JSON body parser is
  mounted for every route (server.js:11), so `question` can be any JSON value,
  and a multipart field such as `question[]` can arrive as an array. JSON `0`,
  `false` and `null` give 400; any other value (`7`, `true`, `[]`, `{}`)
  passes the check at server.js:32 and is stored as it is (server.js:38). The
  model takes the question as an optional string, so the non-empty question
  in `WellFormed` holds only for string questions.
- PollSpec.AllPolls: the listing has one entry per id handed out only
  because the used-up-id case above is left out. The invariant `Inv` (keys
  exactly 1..counter) rests on the same omission. In server.js the key set
  can have gaps, and `Object.values(polls)` can then have fewer than
  `pollCounter` entries.
- PollServer.PollStore.List: `|all| == pollCounter` holds for the same
  reason, and fails in server.js once an id has been used up.
- List elements that are not strings are not modelled.
- Deriving the voter address from `x-forwarded-for` or the socket is left
  out. The address is an opaque string input, and a missing address is not
  modelled.
- JavaScript coercions are not modelled. These include string path
  parameters used as object keys and non-integer or string option indices.
  Keys such as `constructor` that reach `Object.prototype` are also left out.
  Ids and indices are integers.
- The JavaScript number range is not modelled. Ids are unbounded integers.
  The ascending listing order needs no bound: past 2^32 - 1 JavaScript lists
  the remaining keys in creation order, and ids are created in ascending order
  and never deleted.
- PollSpec.FreshIdAfterRun: ids are never reused only for unbounded
  integers. In JavaScript, once `pollCounter` reaches 2^53, `++pollCounter`
  (server.js:37) no longer changes it, so the same id is handed out again and
  the poll under it is overwritten (server.js:46).
- Aliasing is not modelled. In JavaScript the vote handler changes the stored
  object that the response then serialises. Here polls are values, and the
  returned poll equals the stored one.
- Concurrency is not modelled. Requests are handled one at a time.
