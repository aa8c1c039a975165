# rendezvous-mcp: L402 payment gate, routing gateway and fair venue ranking

This project models the core of rendezvous-mcp, a tool server that finds fair meeting places using a metered routing engine (Valhalla). The engine gates its API behind L402: when the free tier runs out it answers HTTP 402 with a Lightning invoice and a macaroon. The caller pays, and later requests carry `Authorization: L402 <macaroon>:<preimage>`.

The model covers three parts:

- **L402 state and challenge parsing** (`l402.dfy`, module `L402`).
  - A session's credential store is a class with its two nullable fields. Store and clear change them in place; the header operation only reads them.
  - The `WWW-Authenticate` parser is written out as the two regular-expression searches it performs: the leftmost `key="…"` with a greedy run of non-quote characters. A missing key gives no challenge.
  - Properties proved:
    - the header-to-record result, with both captures characterised as the leftmost matches;
    - independence of key order;
    - header injectivity;
    - the test scenarios.
- **Routing gateway** (`routing.dfy`, module `Routing`).
  - The client class holds the configured base URL (or the default `https://routing.trotters.cc`) and the session's credential store.
  - The engine it builds carries an `Authorization` header exactly when a credential with a non-empty macaroon and a non-empty preimage is stored.
  - The error handler turns a 402 engine error into a payment-required record:
    - each field is taken from the JSON body, or its default when the body lacks it or holds null;
    - the degraded record comes from a body that is not valid JSON, a body that is JSON `null`, or a hash whose conversion to text throws (an object with its own `toString` key, or an array holding one at any depth);
    - every other failure is rethrown unchanged.
  - The payment-required type guard is proved to recognise every record produced and nothing without a `status`.
- **Venue scoring** (`score_venues.dfy`, module `ScoreVenues`). The handler of the score-venues tool is an imperative method. Its nested loops are two methods: the outer loop over venues (`ScoreReachable`) and the inner loop over participants (`VenueTimes`), which stops at the first unusable time. The outer loop is proved equal to a recursive specification of the venues kept. The handler is proved against a specification:
  - the result is a sorted permutation of the reachable venues' records;
  - ties keep their input order;
  - a payment challenge from the gateway is returned as is, and other errors propagate.
  - The specification functions carry their own lemmas:
    - a venue is kept exactly when every participant has a non-negative time to it;
    - labels default to "Participant n", and automatic labels never collide;
    - a repeated label keeps the last participant's time, and the label `__proto__` never becomes a key;
    - the scoring strategies behave as stated, and unknown strategies score as `min_max`;
    - rounding to one decimal is monotone and moves a value by at most 0.05.
  - The sort is an in-place stable insertion sort on an array.

`json.dfy` holds parsed JSON values and the JavaScript behaviour the source relies on:

- reading one of the four body keys the gateway uses, which yields undefined on anything but an object holding it;
- `??`, which treats null and undefined alike;
- template-literal stringification.

`wrappers.dfy` holds `Option`.

Behaviour of the code worth noting:

- A 402 body that parses to JSON `null` also yields the degraded record. Reading a field of `null` throws inside the same `try`.
- `amount_sats` (and the other body fields) are passed through as whatever JSON value the body holds, not forced to a positive integer.
- The header path's `payment_url` is the base URL plus `/invoice-status/` with nothing appended, and its `payment_hash` is empty.
- Two participants with the same label overwrite each other in a venue's time mapping. `ScoreVenues.TravelTimesLastWins` states that the last one wins.
- The hash goes into `payment_url` through a template literal. A parsed object that has its own `toString` key cannot be converted to text: its `toString` is not a function, and its `valueOf`, inherited or own, gives no primitive. The same holds for an array holding such an object. The conversion throws inside the `try`, so such a body gives the degraded record.
- The degraded message holds an em dash encoded twice: the three characters `â€”`. The model keeps them as they are.
- The time mapping is a plain object. Assigning a number to its `__proto__` key goes to the prototype setter, which ignores it, so a participant labelled `__proto__` has no entry in `travel_times`.

## Model

| member | source | states |
|---|---|---|
| Json.Property | src/routing.ts:68-72 | for the body keys `invoice`, `macaroon`, `payment_hash` and `amount_sats`, reading `body.key` on a non-null parsed value yields a value exactly when the value is an object holding the key, and then it is that field |
| Json.Coalesce | src/routing.ts:68-72 | `x ?? d` is d exactly when x is undefined or null, and x otherwise |
| Json.TemplateString | src/routing.ts:71 | the conversion throws (None) exactly when `ConversionThrows` holds: an object with its own `toString` key, or an array with such an element at any depth; a string appears as itself and any other object as `[object Object]` |
| Json.NatToString | src/tools/score-venues.ts:25 | the decimal rendering of a position is non-empty, all digits, without a leading zero |
| Json.NatToStringRoundTrip | src/tools/score-venues.ts:25 | reading the rendered digits back gives the number |
| Json.NatToStringInjective | src/tools/score-venues.ts:25 | different numbers render to different text |
| L402.L402State.constructor | src/l402.ts:13-15 | a new store holds no macaroon and no preimage and yields no header |
| L402.L402State.Store | src/l402.ts:18-21 | both fields are replaced; the header afterwards is present exactly when both values are non-empty, and is `L402 m:p` |
| L402.L402State.GetAuthHeader | src/l402.ts:24-27 | a header exists exactly when both fields are set and non-empty; it is `L402 ` + macaroon + `:` + preimage |
| L402.L402State.Clear | src/l402.ts:30-33 | both fields are null again and no header is produced |
| L402.HeaderValueInjective | src/l402.ts:26 | the header determines the stored pair whenever the preimages contain no colon |
| L402.StoreStoreClear | src/__tests__/l402.test.ts:10-22 | a second store overwrites the first (`L402 m2:p2`), and clear removes the header |
| L402.RunLength | src/l402.ts:41-42 | `[^"]+` consumes the whole run of non-quote characters and stops at a quote or the end |
| L402.MatchAt | src/l402.ts:41-42 | at one position the pattern `key="([^"]+)"` matches with at most one capture, and the capture returned is a match |
| L402.Search | src/l402.ts:41-42 | the search returns the first position at which the pattern matches, and none when no later position matches |
| L402.MatchQuoted | src/l402.ts:41-42 | `String.match` yields the capture of the leftmost match, and nothing exactly when the pattern matches nowhere |
| L402.LeftmostUnique | src/l402.ts:41-42 | the leftmost capture is unique |
| L402.LeftmostCaptureIsQuoteFree | src/l402.ts:41-42 | a capture is non-empty and contains no quote |
| L402.FirstOpening | src/l402.ts:41-42 | a match is the leftmost one when no `key="` opens before it |
| L402.PairAfterPrefix | src/l402.ts:41-42 | a `key="v"` pair preceded by text with no opening of that key is what the search captures |
| L402.NoOpeningAfterPair | src/l402.ts:41-42 | a leading `L402 k="v", ` pair of another key cannot hide an opening of the searched key |
| L402.Parse402 | src/l402.ts:40-57 | no record exactly when the macaroon or the invoice pattern fails; otherwise the leftmost captures, the fixed status and message, empty hash, `url/invoice-status/`, 1000 sats |
| L402.HeaderChallenge | src/l402.ts:48-56 | the header record holds the two captures as text, the fixed status and message, an empty hash, 1000 sats and `url/invoice-status/` |
| L402.HeaderPairsAnywhere | src/l402.ts:40-57 | any header whose first `macaroon="` and first `invoice="` open the given pairs parses to those values, whatever surrounds them |
| L402.TwoPairValues | src/l402.ts:41-42 | in a two-pair header each key's search captures its own value |
| L402.HeaderKeyOrder | src/l402.ts:36-57 | `macaroon` before `invoice` and the reverse order parse to the same record |
| L402.HeaderExample | src/l402.ts:38-57 | a header in the documented format `L402 macaroon="…", invoice="…"` yields the record with its two values |
| L402.HeaderWithoutInvoice | src/l402.ts:43 | a header with a macaroon but no invoice yields no record |
| Routing.ConfiguredUrl | src/routing.ts:11 | the configured URL when one is given, otherwise `https://routing.trotters.cc` |
| Routing.HandleError | src/routing.ts:61-87 | rethrows exactly the errors that are not a 402 engine error, unchanged; a 402 gives a payment-required record whose fields come from the body, or default to empty text and 1000 when missing or null, with `payment_url` ending in the hash as text; invalid JSON, a null body, or a hash whose conversion to text throws gives the degraded record |
| Routing.HashOf | src/routing.ts:70-71 | the hash is the body's `payment_hash` when supplied and not null, else empty text |
| Routing.BodyChallenge | src/routing.ts:64-73 | for a body that is not null and whose hash converts to text, each of invoice, macaroon, payment hash and amount is the body's value when supplied and not null, else empty text or 1000; the URL is the base URL, `/invoice-status/` and the hash as text |
| Routing.DegradedChallenge | src/routing.ts:74-83 | the degraded record: the could-not-parse message (with the dash as the program encodes it), empty invoice, macaroon and hash, 1000 sats, and the bare base URL to poll |
| Routing.DegradedMessageDash | src/routing.ts:77 | the degraded message holds the three characters U+00E2, U+20AC and U+201D where an em dash was meant, and differs from the text with a single em dash |
| Routing.IsPaymentRequired | src/routing.ts:91-93 | the guard rejects anything that is not an object, an object without `status`, and an object whose `status` is not `payment_required` |
| Routing.Dispatch | src/routing.ts:29-59 | a gateway call returns the engine's result unchanged exactly when the engine succeeded, and the error handler's answer otherwise |
| Routing.IsPaymentRequiredDiscriminates | src/routing.ts:91-93 | the type guard accepts every record the handler or the header parser produces, and rejects null and objects without `status` |
| Routing.PaidBodyExample | src/routing.ts:64-73 | a body with all four fields gives those values, with the URL ending in `/invoice-status/hash` |
| Routing.UnconvertibleHashDegrades | src/routing.ts:71-83 | a hash that is an object with its own `toString` key, or an array holding one inside a nested array, gives the degraded record |
| Routing.ObjectHashText | src/routing.ts:71 | an object hash without `toString` puts `[object Object]` after `/invoice-status/` |
| Routing.EmptyBodyDefaults | src/routing.ts:68-72 | an empty body object gives empty strings, 1000 sats, and the URL ending in the bare path |
| Routing.RoutingClient.constructor | src/routing.ts:10-13 | the URL is the configured one or the default, and a fresh credential store yields no header |
| Routing.RoutingClient.StoreL402Credentials | src/routing.ts:16-18 | the session's store holds the pair, and yields the `L402 m:p` header exactly when both are non-empty |
| Routing.RoutingClient.GetEngine | src/routing.ts:21-26 | the engine uses the client's URL and has an `Authorization` header, holding the stored header, exactly when one exists, and no other header |
| Routing.RoutingClient.Compute | src/routing.ts:29-59 | the engine uses the client's URL and has exactly the `Authorization` header holding the stored header when one exists, and no other; a result passes through, a 402 becomes a challenge, every other failure is rethrown |
| Routing.StoreThenBuild | src/__tests__/routing.test.ts:5-21 | a default client that has stored a credential builds an engine for `https://routing.trotters.cc` whose only header is `Authorization: L402 m:p` |
| ScoreVenues.StrategyOf | src/tools/score-venues.ts:20 | the given strategy, or `min_max` when none is given |
| ScoreVenues.Labelled | src/tools/score-venues.ts:22-26 | every participant keeps its position and coordinates and its given label (even an empty one), or gets `Participant <position from 1>` |
| ScoreVenues.AutoLabelsDistinct | src/tools/score-venues.ts:25 | automatic labels of different positions differ |
| ScoreVenues.UnlabelledPair | src/__tests__/tools/score-venues.test.ts:83-105 | two unlabelled participants become `Participant 1` and `Participant 2` |
| ScoreVenues.FirstEntryIndex | src/tools/score-venues.ts:69-71 | the lookup finds the first entry for the participant and venue, and none exactly when no entry matches |
| ScoreVenues.FindEntryFindsAny | src/tools/score-venues.ts:69-71 | an entry is found exactly when the matrix holds one for the pair, and it is for that pair |
| ScoreVenues.Duration | src/tools/score-venues.ts:72 | the duration of the first entry for the pair, and a negative value when there is none |
| ScoreVenues.ReachableMeans | src/tools/score-venues.ts:68-82 | a venue is reachable exactly when every participant has an entry for it and the first such entry's duration is not negative |
| ScoreVenues.RoundTenth | src/tools/score-venues.ts:78 | `Math.round(x * 10) / 10` lies within 0.05 of x |
| ScoreVenues.RoundTenthMonotone | src/tools/score-venues.ts:91 | rounding to one decimal never reverses the order of two scores |
| ScoreVenues.Sum | src/tools/score-venues.ts:110 | for non-negative times the total is non-negative and at least every single time |
| ScoreVenues.Max | src/tools/score-venues.ts:107-108 | `Math.max` over the times is one of them and no smaller than any |
| ScoreVenues.FairnessScore | src/tools/score-venues.ts:105-118 | `min_total` gives the sum, `min_variance` the square root of the population variance, every other strategy the largest time |
| ScoreVenues.DefaultAndUnknownAreMinMax | src/tools/score-venues.ts:115-116 | an unknown strategy scores exactly like the default `min_max` |
| ScoreVenues.TravelTimes | src/tools/score-venues.ts:64-78 | the rounded times by label never hold the key `__proto__` |
| ScoreVenues.TravelTimesLastWins | src/tools/score-venues.ts:77-78 | each label other than `__proto__` maps to the rounded time of the last participant carrying it |
| ScoreVenues.TravelTimesKeys | src/tools/score-venues.ts:77-78 | the mapping's keys are exactly the participants' labels other than `__proto__` |
| ScoreVenues.RankVenue | src/tools/score-venues.ts:84-92 | a kept venue's record copies its name, coordinates and type, holds the rounded times by label, and a score within 0.05 of the fairness score |
| ScoreVenues.Candidates | src/tools/score-venues.ts:62-93 | the kept records number no more than the venues |
| ScoreVenues.CandidatesCount | src/tools/score-venues.ts:62-93 | there is exactly one kept record per reachable venue |
| ScoreVenues.ReachableIsKept | src/tools/score-venues.ts:73-76 | every reachable venue's record is kept |
| ScoreVenues.KeptIsReachable | src/tools/score-venues.ts:82 | every kept record is the record of a reachable venue |
| ScoreVenues.CandidatesAreReachableVenues | src/tools/score-venues.ts:62-93 | every reachable venue's record is kept, every kept record belongs to a reachable venue, there is one kept record per reachable venue, and each record occurs as often as there are reachable venues ranking as it |
| ScoreVenues.CandidatesMultiplicity | src/tools/score-venues.ts:62-93 | the number of times a record occurs among the kept records equals the number of reachable venues ranking as it |
| ScoreVenues.RankedScore | src/tools/score-venues.ts:84-92 | a kept record scores the rounded maximum (`min_max`) or rounded sum (`min_total`) of the unrounded times |
| ScoreVenues.VenueTimes | src/tools/score-venues.ts:68-80 | the inner loop reports the venue reachable exactly when every participant's time is usable, and then gives the unrounded times in participant order and the rounded times by label |
| ScoreVenues.ScoreReachable | src/tools/score-venues.ts:62-93 | the outer loop produces, in venue order, exactly the records of the reachable venues, with rounded times by label and the rounded score |
| ScoreVenues.SwapKeepsScoreClasses | src/tools/score-venues.ts:95 | exchanging neighbours with different scores keeps the order within every score |
| ScoreVenues.SortByScore | src/tools/score-venues.ts:95 | the array ends sorted by score, a permutation of its old contents, with equal-score venues in their old order |
| ScoreVenues.HandleScoreVenues | src/tools/score-venues.ts:11-103 | a challenge is returned as the unpaid answer and other errors propagate; otherwise the ranking is sorted and holds exactly the reachable venues' records, ties in input order |
| ScoreVenues.TwoVenueCandidates | src/__tests__/tools/score-venues.test.ts:14-55 | with Alice 10/20 and Bob 13/15 minutes, both venues are kept, scoring 13 (Alice 10, Bob 13) and 20 |
| ScoreVenues.RankTwoVenues | src/__tests__/tools/score-venues.test.ts:14-55 | the tool ranks The Crown first with score 13 and times Alice 10, Bob 13, ahead of Railway Arms |
| ScoreVenues.UnreachableVenueSkipped | src/__tests__/tools/score-venues.test.ts:107-134 | a venue with negative durations is dropped and only the reachable one remains |

## Left out

- Network I/O, the MCP server, tool registration, the zod argument schemas, `console.error` logging, and the other tools and `index.ts` are not part of this model. Each engine call is represented by its outcome, passed in as an `EngineOutcome`.
- `transport_mode` and the coordinates sent with the matrix request only reach the engine, so they are not modelled.
- `computeIsochrone`, `computeRouteMatrix` and `computeRoute` differ only in the engine call they make. They are modelled by the one generic `Routing.RoutingClient.Compute`.
- Numbers are exact. Times, coordinates and scores are `real`, so floating-point rounding of sums and the variance is not modelled. JSON numbers are integers, so fractional and exponent renderings in `payment_url` are not modelled.
- ScoreVenues.FairnessScore: `Math.sqrt` is a parameter (`sqrt`), so only its argument is stated for `min_variance`.
- ScoreVenues.HandleScoreVenues: requires at least one participant. The argument schema demands at least two, and with none `Math.max()` would be `-Infinity`.
- ScoreVenues.HandleScoreVenues: the payment check is made on the gateway's tagged answer. An engine result that itself carried `status: "payment_required"` would also be taken as a challenge by the source's structural guard. A route matrix has no such field.
- ScoreVenues.SortByScore: `Array.prototype.sort` is modelled by one stable algorithm (insertion sort). The contract states what any stable sort must give, not the engine's own steps.
- L402.HeaderKeyOrder: order independence is proved for values that do not end with the other key followed by `=`. In that case the other key's search can start inside the first value.
- Json.Property: models reading only the four body keys the gateway uses. Own keys of arrays and strings (`length`, indices) and keys inherited from `Object.prototype` are not modelled.
- ScoreVenues.TravelTimes: a map without order. The key order of the `travel_times` object in the JSON output is not modelled.
- L402.HeaderValueInjective: stated for preimages without a colon. With a colon the header `L402 a:b:c` can come from two different pairs.
