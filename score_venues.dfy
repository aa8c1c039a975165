/**
 * The fairness ranker behind the score_venues tool: given participants, candidate venues
 * and the participant-by-venue travel-time matrix, it drops every venue some participant
 * cannot reach, scores the others by the chosen fairness strategy and orders them by score,
 * lowest first, keeping the input order among equal scores.
 */
module ScoreVenues {
  import opened Wrappers
  import opened Json
  import opened L402
  import opened Routing

  datatype LatLon = LatLon(lat: real, lon: real)

  /** One cell of the matrix; a negative duration marks an unreachable pair. */
  datatype TravelEntry = TravelEntry(originIndex: int, destinationIndex: int, durationMinutes: real, distanceKm: real)

  datatype RouteMatrix = RouteMatrix(origins: seq<LatLon>, destinations: seq<LatLon>, entries: seq<TravelEntry>)

  /** A participant as the caller passes it, with an optional label. */
  datatype ParticipantArg = ParticipantArg(lat: real, lon: real, givenLabel: Option<string>)

  /** A participant after labelling. */
  datatype Participant = Participant(lat: real, lon: real, labelText: string)

  datatype VenueArg = VenueArg(lat: real, lon: real, name: string, venueType: Option<string>)

  /** A scored venue: the per-participant minutes by label and the fairness score, both rounded. */
  datatype RankedVenue = RankedVenue(
    name: string,
    lat: real,
    lon: real,
    venueType: Option<string>,
    travelTimes: map<string, real>,
    fairnessScore: real)

  /** What the tool answers: the ranking, the payment challenge, or the error it lets escape. */
  datatype ScoreResponse =
    | Ranked(rankedVenues: seq<RankedVenue>)
    | Unpaid(challenge: PaymentRequired)
    | Thrown(error: EngineError)

  const DefaultFairness: string := "min_max"

  /**
   * The one label a plain object cannot take as a key: assigning a number to `__proto__`
   * goes to the prototype setter, which ignores it.
   */
  const ProtoKey: string := "__proto__"

  // ---------------------------------------------------------------------------
  // Labels
  // ---------------------------------------------------------------------------

  /** The label of the participant at 0-based position i when none is given. */
  function AutoLabel(i: nat): string
  {
    "Participant " + NatToString(i + 1)
  }

  /**
   * `p.label ?? \`Participant ${i + 1}\``, position by position: every participant keeps its
   * place and coordinates, a given label is kept (even an empty one), and a missing one
   * becomes "Participant <position from 1>".
   */
  function Labelled(ps: seq<ParticipantArg>): (r: seq<Participant>)
    ensures |r| == |ps|
    ensures forall i :: 0 <= i < |ps| ==> r[i].lat == ps[i].lat && r[i].lon == ps[i].lon
    ensures forall i :: 0 <= i < |ps| && ps[i].givenLabel.Some? ==> r[i].labelText == ps[i].givenLabel.value
    ensures forall i :: 0 <= i < |ps| && ps[i].givenLabel.None? ==> r[i].labelText == AutoLabel(i)
  {
    seq(|ps|, i requires 0 <= i < |ps| =>
      Participant(ps[i].lat, ps[i].lon, if ps[i].givenLabel.Some? then ps[i].givenLabel.value else AutoLabel(i)))
  }

  /** Automatic labels of different positions never collide. */
  lemma AutoLabelsDistinct(i: nat, j: nat)
    requires i != j
    ensures AutoLabel(i) != AutoLabel(j)
  {
    if AutoLabel(i) == AutoLabel(j) {
      var prefix := "Participant ";
      assert NatToString(i + 1) == AutoLabel(i)[|prefix|..];
      assert NatToString(j + 1) == AutoLabel(j)[|prefix|..];
      NatToStringInjective(i + 1, j + 1);
    }
  }

  /** Two unlabelled participants become "Participant 1" and "Participant 2". */
  lemma UnlabelledPair(ps: seq<ParticipantArg>)
    requires |ps| == 2 && ps[0].givenLabel.None? && ps[1].givenLabel.None?
    ensures Labelled(ps)[0].labelText == "Participant 1"
    ensures Labelled(ps)[1].labelText == "Participant 2"
  {
  }

  // ---------------------------------------------------------------------------
  // Looking up the matrix
  // ---------------------------------------------------------------------------

  predicate IsEntryFor(e: TravelEntry, pi: int, vi: int)
  {
    e.originIndex == pi && e.destinationIndex == vi
  }

  /** `entries.find(...)` from position from on: the index of the first entry for (pi, vi). */
  function FirstEntryIndex(entries: seq<TravelEntry>, pi: int, vi: int, from: nat): (r: Option<nat>)
    requires from <= |entries|
    decreases |entries| - from
    ensures r.Some? ==> from <= r.value < |entries| && IsEntryFor(entries[r.value], pi, vi)
    ensures r.Some? ==> forall k :: from <= k < r.value ==> !IsEntryFor(entries[k], pi, vi)
    ensures r.None? ==> forall k :: from <= k < |entries| ==> !IsEntryFor(entries[k], pi, vi)
  {
    if from == |entries| then None
    else if IsEntryFor(entries[from], pi, vi) then Some(from)
    else FirstEntryIndex(entries, pi, vi, from + 1)
  }

  /** The first entry for participant pi and venue vi, if there is one. */
  function FindEntry(entries: seq<TravelEntry>, pi: int, vi: int): Option<TravelEntry>
  {
    match FirstEntryIndex(entries, pi, vi, 0)
    case Some(k) => Some(entries[k])
    case None => None
  }

  /** `entry?.durationMinutes ?? -1`: a missing entry reads as unreachable. */
  function Duration(entries: seq<TravelEntry>, pi: int, vi: int): (r: real)
    ensures FindEntry(entries, pi, vi).None? ==> r < 0.0
    ensures FindEntry(entries, pi, vi).Some? ==> r == FindEntry(entries, pi, vi).value.durationMinutes
  {
    match FindEntry(entries, pi, vi)
    case Some(e) => e.durationMinutes
    case None => -1.0
  }

  /**
   * Venue vi is reachable by the first n participants when each of them has an entry for
   * it and the first such entry has a non-negative duration.
   */
  predicate Reachable(entries: seq<TravelEntry>, n: nat, vi: int)
  {
    forall pi :: 0 <= pi < n ==> Duration(entries, pi, vi) >= 0.0
  }

  /** An entry is found exactly when the matrix holds one for the pair. */
  lemma FindEntryFindsAny(entries: seq<TravelEntry>, pi: int, vi: int)
    ensures FindEntry(entries, pi, vi).Some? <==> exists k :: 0 <= k < |entries| && IsEntryFor(entries[k], pi, vi)
    ensures FindEntry(entries, pi, vi).Some? ==> IsEntryFor(FindEntry(entries, pi, vi).value, pi, vi)
  {
    var r := FirstEntryIndex(entries, pi, vi, 0);
    if r.Some? {
      assert IsEntryFor(entries[r.value], pi, vi);
    }
  }

  /** Reachable means: every participant has an entry for the venue, and the first one is not negative. */
  lemma ReachableMeans(entries: seq<TravelEntry>, n: nat, vi: int)
    ensures Reachable(entries, n, vi) <==>
      forall pi :: 0 <= pi < n ==>
        (exists k :: 0 <= k < |entries| && IsEntryFor(entries[k], pi, vi)) &&
        FindEntry(entries, pi, vi).Some? && FindEntry(entries, pi, vi).value.durationMinutes >= 0.0
  {
    forall pi | 0 <= pi < n
      ensures Duration(entries, pi, vi) >= 0.0 <==>
        (exists k :: 0 <= k < |entries| && IsEntryFor(entries[k], pi, vi)) &&
        FindEntry(entries, pi, vi).Some? && FindEntry(entries, pi, vi).value.durationMinutes >= 0.0
    {
      FindEntryFindsAny(entries, pi, vi);
    }
  }

  // ---------------------------------------------------------------------------
  // Scores
  // ---------------------------------------------------------------------------

  /**
   * `Math.round(x * 10) / 10`: rounding to one decimal, halves upwards; the result is within
   * half a tenth of x.
   */
  function RoundTenth(x: real): (r: real)
    ensures x - 0.05 < r <= x + 0.05
  {
    var f := (x * 10.0 + 0.5).Floor;
    assert f as real <= x * 10.0 + 0.5 < f as real + 1.0;
    (f as real) / 10.0
  }

  /** Rounding never reverses an order. */
  lemma RoundTenthMonotone(x: real, y: real)
    requires x <= y
    ensures RoundTenth(x) <= RoundTenth(y)
  {
    var fx := (x * 10.0 + 0.5).Floor;
    var fy := (y * 10.0 + 0.5).Floor;
    assert fx <= fy;
  }

  /** `Math.max(...times)`. */
  function Max(ts: seq<real>): (r: real)
    requires |ts| > 0
    ensures r in ts
    ensures forall k :: 0 <= k < |ts| ==> ts[k] <= r
  {
    if |ts| == 1 then ts[0]
    else
      var m := Max(ts[1..]);
      assert forall k :: 1 <= k < |ts| ==> ts[k] == ts[1..][k - 1];
      if ts[0] > m then ts[0] else m
  }

  /**
   * `times.reduce((sum, t) => sum + t, 0)`. For times that are not negative, as a kept
   * venue's are, the total is not negative and no single time exceeds it.
   */
  function Sum(ts: seq<real>): (r: real)
    ensures (forall k :: 0 <= k < |ts| ==> ts[k] >= 0.0) ==> r >= 0.0
    ensures (forall k :: 0 <= k < |ts| ==> ts[k] >= 0.0) ==> forall k :: 0 <= k < |ts| ==> ts[k] <= r
  {
    if ts == [] then 0.0 else Sum(ts[..|ts| - 1]) + ts[|ts| - 1]
  }

  /** The population variance, as the min_variance branch computes it before its square root. */
  function PopulationVariance(ts: seq<real>): real
    requires |ts| > 0
  {
    var mean := Sum(ts) / |ts| as real;
    SumSquaredDeviations(ts, mean) / |ts| as real
  }

  function SumSquaredDeviations(ts: seq<real>, mean: real): real
  {
    if ts == [] then 0.0
    else SumSquaredDeviations(ts[..|ts| - 1], mean) + (ts[|ts| - 1] - mean) * (ts[|ts| - 1] - mean)
  }

  /**
   * `computeFairnessScore`: the largest time for min_max and for any unrecognised strategy,
   * the total for min_total, and the square root (the host's, passed in) of the population
   * variance for min_variance.
   */
  function FairnessScore(times: seq<real>, strategy: string, sqrt: real -> real): (r: real)
    requires |times| > 0
    ensures strategy == "min_total" ==> r == Sum(times)
    ensures strategy == "min_variance" ==> r == sqrt(PopulationVariance(times))
    ensures strategy != "min_total" && strategy != "min_variance" ==>
      r in times && forall k :: 0 <= k < |times| ==> times[k] <= r
  {
    if strategy == "min_max" then Max(times)
    else if strategy == "min_total" then Sum(times)
    else if strategy == "min_variance" then sqrt(PopulationVariance(times))
    else Max(times)
  }

  /** `args.fairness ?? 'min_max'`. */
  function StrategyOf(fairness: Option<string>): (s: string)
    ensures fairness.None? ==> s == "min_max"
    ensures fairness.Some? ==> s == fairness.value
  {
    if fairness.Some? then fairness.value else DefaultFairness
  }

  /** An omitted strategy and every unrecognised one score exactly as min_max does. */
  lemma DefaultAndUnknownAreMinMax(times: seq<real>, strategy: string, sqrt: real -> real)
    requires |times| > 0
    requires strategy != "min_total" && strategy != "min_variance"
    ensures FairnessScore(times, strategy, sqrt) == FairnessScore(times, StrategyOf(None), sqrt)
  {
    MaxIsUnique(times, FairnessScore(times, strategy, sqrt), FairnessScore(times, StrategyOf(None), sqrt));
  }

  /** A sequence has one maximum. */
  lemma MaxIsUnique(ts: seq<real>, a: real, b: real)
    requires a in ts && forall k :: 0 <= k < |ts| ==> ts[k] <= a
    requires b in ts && forall k :: 0 <= k < |ts| ==> ts[k] <= b
    ensures a == b
  {
  }

  // ---------------------------------------------------------------------------
  // Scoring one venue and collecting the reachable ones
  // ---------------------------------------------------------------------------

  /** The unrounded times of the first n participants to venue vi, in participant order. */
  function Times(entries: seq<TravelEntry>, n: nat, vi: int): (r: seq<real>)
    ensures |r| == n
  {
    seq(n, pi requires 0 <= pi < n => Duration(entries, pi, vi))
  }

  /**
   * The rounded minutes by label of the first n participants; a later label overwrites an
   * earlier one, and the label `__proto__` never becomes a key.
   */
  function TravelTimes(ps: seq<Participant>, entries: seq<TravelEntry>, vi: int, n: nat): (r: map<string, real>)
    requires n <= |ps|
    ensures ProtoKey !in r
  {
    if n == 0 then map[]
    else if ps[n - 1].labelText == ProtoKey then TravelTimes(ps, entries, vi, n - 1)
    else TravelTimes(ps, entries, vi, n - 1)[ps[n - 1].labelText := RoundTenth(Duration(entries, n - 1, vi))]
  }

  /**
   * Each label other than `__proto__` maps to the rounded time of the last participant
   * carrying it.
   */
  lemma {:induction false} TravelTimesLastWins(ps: seq<Participant>, entries: seq<TravelEntry>, vi: int, n: nat, k: nat)
    requires k < n <= |ps| && ps[k].labelText != ProtoKey
    requires forall k' :: k < k' < n ==> ps[k'].labelText != ps[k].labelText
    ensures ps[k].labelText in TravelTimes(ps, entries, vi, n)
    ensures TravelTimes(ps, entries, vi, n)[ps[k].labelText] == RoundTenth(Duration(entries, k, vi))
  {
    if k < n - 1 {
      TravelTimesLastWins(ps, entries, vi, n - 1, k);
    }
  }

  /** The keys are exactly the participants' labels, except `__proto__`. */
  lemma {:induction false} TravelTimesKeys(ps: seq<Participant>, entries: seq<TravelEntry>, vi: int, n: nat)
    requires n <= |ps|
    ensures TravelTimes(ps, entries, vi, n).Keys == set k | 0 <= k < n && ps[k].labelText != ProtoKey :: ps[k].labelText
  {
    if n > 0 {
      TravelTimesKeys(ps, entries, vi, n - 1);
      if ps[n - 1].labelText == ProtoKey {
        assert (set k | 0 <= k < n && ps[k].labelText != ProtoKey :: ps[k].labelText) ==
               (set k | 0 <= k < n - 1 && ps[k].labelText != ProtoKey :: ps[k].labelText);
      } else {
        assert (set k | 0 <= k < n && ps[k].labelText != ProtoKey :: ps[k].labelText) ==
               (set k | 0 <= k < n - 1 && ps[k].labelText != ProtoKey :: ps[k].labelText) + {ps[n - 1].labelText};
      }
    }
  }

  /** The record for reachable venue vi: copied venue fields, minutes by label, rounded score. */
  function RankVenue(ps: seq<Participant>, venue: VenueArg, vi: int, entries: seq<TravelEntry>,
                     strategy: string, sqrt: real -> real): (r: RankedVenue)
    requires |ps| > 0
    ensures r.name == venue.name && r.lat == venue.lat && r.lon == venue.lon && r.venueType == venue.venueType
    ensures r.travelTimes == TravelTimes(ps, entries, vi, |ps|)
    ensures var score := FairnessScore(Times(entries, |ps|, vi), strategy, sqrt);
      score - 0.05 < r.fairnessScore <= score + 0.05
  {
    RankedVenue(
      name := venue.name,
      lat := venue.lat,
      lon := venue.lon,
      venueType := venue.venueType,
      travelTimes := TravelTimes(ps, entries, vi, |ps|),
      fairnessScore := RoundTenth(FairnessScore(Times(entries, |ps|, vi), strategy, sqrt)))
  }

  /** The ranked records of the reachable venues among the first n, in venue order. */
  function Candidates(ps: seq<Participant>, venues: seq<VenueArg>, entries: seq<TravelEntry>,
                      strategy: string, sqrt: real -> real, n: nat): (r: seq<RankedVenue>)
    requires |ps| > 0 && n <= |venues|
    ensures |r| <= n
  {
    if n == 0 then []
    else
      Candidates(ps, venues, entries, strategy, sqrt, n - 1) +
      if Reachable(entries, |ps|, n - 1) then [RankVenue(ps, venues[n - 1], n - 1, entries, strategy, sqrt)] else []
  }

  /** The positions among the first n venues that every participant can reach. */
  function ReachableVenues(entries: seq<TravelEntry>, np: nat, n: nat): set<nat>
  {
    set vi: nat | vi < n && Reachable(entries, np, vi)
  }

  /** There is one candidate per reachable venue. */
  lemma {:induction false} CandidatesCount(ps: seq<Participant>, venues: seq<VenueArg>, entries: seq<TravelEntry>,
                                           strategy: string, sqrt: real -> real, n: nat)
    requires |ps| > 0 && n <= |venues|
    ensures |Candidates(ps, venues, entries, strategy, sqrt, n)| == |ReachableVenues(entries, |ps|, n)|
  {
    if n == 0 {
      assert ReachableVenues(entries, |ps|, 0) == {};
    } else {
      CandidatesCount(ps, venues, entries, strategy, sqrt, n - 1);
      var before := ReachableVenues(entries, |ps|, n - 1);
      assert (n - 1) !in before;
      if Reachable(entries, |ps|, n - 1) {
        assert ReachableVenues(entries, |ps|, n) == before + {n - 1};
      } else {
        assert ReachableVenues(entries, |ps|, n) == before;
      }
    }
  }

  /** Every reachable venue among the first n has its record among the candidates. */
  lemma {:induction false} ReachableIsKept(ps: seq<Participant>, venues: seq<VenueArg>, entries: seq<TravelEntry>,
                                           strategy: string, sqrt: real -> real, n: nat, vi: nat)
    requires |ps| > 0 && vi < n <= |venues| && Reachable(entries, |ps|, vi)
    ensures RankVenue(ps, venues[vi], vi, entries, strategy, sqrt) in Candidates(ps, venues, entries, strategy, sqrt, n)
  {
    var prev := Candidates(ps, venues, entries, strategy, sqrt, n - 1);
    var c := Candidates(ps, venues, entries, strategy, sqrt, n);
    if vi < n - 1 {
      ReachableIsKept(ps, venues, entries, strategy, sqrt, n - 1, vi);
      assert c[..|prev|] == prev;
    } else {
      assert c == prev + [RankVenue(ps, venues[vi], vi, entries, strategy, sqrt)];
    }
  }

  /** Every candidate is the record of a reachable venue among the first n. */
  lemma {:induction false} KeptIsReachable(ps: seq<Participant>, venues: seq<VenueArg>, entries: seq<TravelEntry>,
                                           strategy: string, sqrt: real -> real, n: nat, k: nat)
    requires |ps| > 0 && n <= |venues| && k < |Candidates(ps, venues, entries, strategy, sqrt, n)|
    ensures exists vi ::
      0 <= vi < n && Reachable(entries, |ps|, vi) &&
      Candidates(ps, venues, entries, strategy, sqrt, n)[k] == RankVenue(ps, venues[vi], vi, entries, strategy, sqrt)
  {
    var prev := Candidates(ps, venues, entries, strategy, sqrt, n - 1);
    var c := Candidates(ps, venues, entries, strategy, sqrt, n);
    if k < |prev| {
      KeptIsReachable(ps, venues, entries, strategy, sqrt, n - 1, k);
      assert c[k] == prev[k];
    } else {
      assert Reachable(entries, |ps|, n - 1) && c[k] == RankVenue(ps, venues[n - 1], n - 1, entries, strategy, sqrt);
    }
  }

  /** The positions among the first n venues that are reachable and rank as the record rec. */
  function RankedAs(ps: seq<Participant>, venues: seq<VenueArg>, entries: seq<TravelEntry>,
                    strategy: string, sqrt: real -> real, n: nat, rec: RankedVenue): set<nat>
    requires |ps| > 0 && n <= |venues|
  {
    set vi: nat | vi < n && Reachable(entries, |ps|, vi) &&
      RankVenue(ps, venues[vi], vi, entries, strategy, sqrt) == rec
  }

  /** Extending the prefix by one venue adds that venue when it is reachable and ranks as rec. */
  lemma RankedAsStep(ps: seq<Participant>, venues: seq<VenueArg>, entries: seq<TravelEntry>,
                     strategy: string, sqrt: real -> real, n: nat, rec: RankedVenue)
    requires |ps| > 0 && 0 < n <= |venues|
    ensures RankedAs(ps, venues, entries, strategy, sqrt, n, rec) ==
      RankedAs(ps, venues, entries, strategy, sqrt, n - 1, rec) +
      if Reachable(entries, |ps|, n - 1) && RankVenue(ps, venues[n - 1], n - 1, entries, strategy, sqrt) == rec
      then {n - 1} else {}
  {
  }

  /**
   * Each record occurs among the candidates exactly as often as there are reachable venues
   * ranking as it: the candidates are the reachable venues' records, each venue once.
   */
  lemma {:induction false} CandidatesMultiplicity(ps: seq<Participant>, venues: seq<VenueArg>, entries: seq<TravelEntry>,
                                                  strategy: string, sqrt: real -> real, n: nat, rec: RankedVenue)
    requires |ps| > 0 && n <= |venues|
    ensures multiset(Candidates(ps, venues, entries, strategy, sqrt, n))[rec] ==
      |RankedAs(ps, venues, entries, strategy, sqrt, n, rec)|
  {
    if n == 0 {
      assert RankedAs(ps, venues, entries, strategy, sqrt, 0, rec) == {};
    } else {
      CandidatesMultiplicity(ps, venues, entries, strategy, sqrt, n - 1, rec);
      RankedAsStep(ps, venues, entries, strategy, sqrt, n, rec);
      var prev := Candidates(ps, venues, entries, strategy, sqrt, n - 1);
      assert (n - 1) !in RankedAs(ps, venues, entries, strategy, sqrt, n - 1, rec);
      if Reachable(entries, |ps|, n - 1) {
        var last := RankVenue(ps, venues[n - 1], n - 1, entries, strategy, sqrt);
        assert Candidates(ps, venues, entries, strategy, sqrt, n) == prev + [last];
        assert multiset(prev + [last]) == multiset(prev) + multiset{last};
      } else {
        assert Candidates(ps, venues, entries, strategy, sqrt, n) == prev + [];
      }
    }
  }

  /**
   * A venue is kept exactly when it is reachable: every reachable venue has its record among
   * the candidates, every candidate is the record of a reachable venue, there is one
   * candidate per reachable venue, and each record occurs as often as there are reachable
   * venues ranking as it.
   */
  lemma CandidatesAreReachableVenues(ps: seq<Participant>, venues: seq<VenueArg>, entries: seq<TravelEntry>,
                                     strategy: string, sqrt: real -> real, n: nat)
    requires |ps| > 0 && n <= |venues|
    ensures |Candidates(ps, venues, entries, strategy, sqrt, n)| == |ReachableVenues(entries, |ps|, n)|
    ensures forall vi :: 0 <= vi < n && Reachable(entries, |ps|, vi) ==>
      RankVenue(ps, venues[vi], vi, entries, strategy, sqrt) in Candidates(ps, venues, entries, strategy, sqrt, n)
    ensures forall k :: 0 <= k < |Candidates(ps, venues, entries, strategy, sqrt, n)| ==>
      exists vi :: 0 <= vi < n && Reachable(entries, |ps|, vi) &&
        Candidates(ps, venues, entries, strategy, sqrt, n)[k] == RankVenue(ps, venues[vi], vi, entries, strategy, sqrt)
    ensures forall rec ::
      multiset(Candidates(ps, venues, entries, strategy, sqrt, n))[rec] == |RankedAs(ps, venues, entries, strategy, sqrt, n, rec)|
  {
    CandidatesCount(ps, venues, entries, strategy, sqrt, n);
    forall rec
      ensures multiset(Candidates(ps, venues, entries, strategy, sqrt, n))[rec] ==
        |RankedAs(ps, venues, entries, strategy, sqrt, n, rec)|
    {
      CandidatesMultiplicity(ps, venues, entries, strategy, sqrt, n, rec);
    }
    forall vi | 0 <= vi < n && Reachable(entries, |ps|, vi)
      ensures RankVenue(ps, venues[vi], vi, entries, strategy, sqrt) in Candidates(ps, venues, entries, strategy, sqrt, n)
    {
      ReachableIsKept(ps, venues, entries, strategy, sqrt, n, vi);
    }
    forall k | 0 <= k < |Candidates(ps, venues, entries, strategy, sqrt, n)|
      ensures exists vi ::
        0 <= vi < n && Reachable(entries, |ps|, vi) &&
        Candidates(ps, venues, entries, strategy, sqrt, n)[k] == RankVenue(ps, venues[vi], vi, entries, strategy, sqrt)
    {
      KeptIsReachable(ps, venues, entries, strategy, sqrt, n, k);
    }
  }

  /** The score of a kept venue under min_max and min_total, rounded to one decimal. */
  lemma RankedScore(ps: seq<Participant>, venue: VenueArg, vi: int, entries: seq<TravelEntry>, strategy: string, sqrt: real -> real)
    requires |ps| > 0
    ensures var r := RankVenue(ps, venue, vi, entries, strategy, sqrt);
      && (strategy == "min_max" ==> r.fairnessScore == RoundTenth(Max(Times(entries, |ps|, vi))))
      && (strategy == "min_total" ==> r.fairnessScore == RoundTenth(Sum(Times(entries, |ps|, vi))))
  {
    var t := Times(entries, |ps|, vi);
    if strategy == "min_max" {
      MaxIsUnique(t, FairnessScore(t, strategy, sqrt), Max(t));
    }
  }

  // ---------------------------------------------------------------------------
  // Ordering: a stable sort by fairness score
  // ---------------------------------------------------------------------------

  predicate SortedByScore(s: seq<RankedVenue>)
  {
    forall p, q :: 0 <= p < q < |s| ==> s[p].fairnessScore <= s[q].fairnessScore
  }

  /** The venues of s whose score is x, in their order in s. */
  function WithScore(s: seq<RankedVenue>, x: real): seq<RankedVenue>
  {
    if s == [] then []
    else WithScore(s[..|s| - 1], x) + if s[|s| - 1].fairnessScore == x then [s[|s| - 1]] else []
  }

  /**
   * Stability: for every score, the venues with that score appear in the same order in both
   * sequences.
   */
  ghost predicate SameScoreClasses(s: seq<RankedVenue>, t: seq<RankedVenue>)
  {
    forall x :: WithScore(s, x) == WithScore(t, x)
  }

  lemma {:induction false} WithScoreAppend(s: seq<RankedVenue>, t: seq<RankedVenue>, x: real)
    ensures WithScore(s + t, x) == WithScore(s, x) + WithScore(t, x)
  {
    if t != [] {
      WithScoreAppend(s, t[..|t| - 1], x);
      assert (s + t)[..|s + t| - 1] == s + t[..|t| - 1];
      assert (s + t)[|s + t| - 1] == t[|t| - 1];
    } else {
      assert s + t == s;
    }
  }

  /** Two venues with different scores contribute the same to every score class in either order. */
  lemma SwapMiddle(front: seq<RankedVenue>, u: RankedVenue, v: RankedVenue, back: seq<RankedVenue>, x: real)
    requires u.fairnessScore != v.fairnessScore
    ensures WithScore(front + [u, v] + back, x) == WithScore(front + [v, u] + back, x)
  {
    WithScoreAppend(front + [u, v], back, x);
    WithScoreAppend(front + [v, u], back, x);
    WithScoreAppend(front, [u, v], x);
    WithScoreAppend(front, [v, u], x);
    assert [u, v][..1] == [u];
    assert [v, u][..1] == [v];
  }

  /** Exchanging two neighbours with different scores leaves every score class as it was. */
  lemma SwapKeepsScoreClasses(s: seq<RankedVenue>, j: nat)
    requires 0 < j < |s| && s[j - 1].fairnessScore != s[j].fairnessScore
    ensures SameScoreClasses(s[j - 1 := s[j]][j := s[j - 1]], s)
  {
    var t := s[j - 1 := s[j]][j := s[j - 1]];
    var front, back := s[..j - 1], s[j + 1..];
    assert s == front + [s[j - 1], s[j]] + back;
    assert t == front + [s[j], s[j - 1]] + back;
    forall x
      ensures WithScore(t, x) == WithScore(s, x)
    {
      SwapMiddle(front, s[j], s[j - 1], back, x);
    }
  }

  /** The first n venues of s are ordered by score. */
  predicate SortedPrefix(s: seq<RankedVenue>, n: nat)
    requires n <= |s|
  {
    forall p, q :: 0 <= p < q < n ==> s[p].fairnessScore <= s[q].fairnessScore
  }

  /**
   * The insertion state while the venue now at j travels down into s[..i + 1]: the other
   * venues of that prefix are ordered and all those after j score more than it.
   */
  predicate Inserting(s: seq<RankedVenue>, i: nat, j: nat)
    requires j <= i < |s|
  {
    && (forall p, q :: 0 <= p < q <= i && p != j && q != j ==> s[p].fairnessScore <= s[q].fairnessScore)
    && (forall q :: j < q <= i ==> s[j].fairnessScore < s[q].fairnessScore)
  }

  lemma InsertStart(s: seq<RankedVenue>, i: nat)
    requires i < |s| && SortedPrefix(s, i)
    ensures Inserting(s, i, i)
  {
  }

  /** One step down: the moving venue passes a neighbour with a higher score. */
  lemma InsertStep(s: seq<RankedVenue>, i: nat, j: nat)
    requires 0 < j <= i < |s| && Inserting(s, i, j)
    requires s[j - 1].fairnessScore > s[j].fairnessScore
    ensures Inserting(s[j - 1 := s[j]][j := s[j - 1]], i, j - 1)
    ensures multiset(s[j - 1 := s[j]][j := s[j - 1]]) == multiset(s)
    ensures SameScoreClasses(s[j - 1 := s[j]][j := s[j - 1]], s)
  {
    SwapKeepsScoreClasses(s, j);
  }

  /** The moving venue has come to rest: the prefix one longer is ordered. */
  lemma InsertDone(s: seq<RankedVenue>, i: nat, j: nat)
    requires j <= i < |s| && Inserting(s, i, j)
    requires j == 0 || s[j - 1].fairnessScore <= s[j].fairnessScore
    ensures SortedPrefix(s, i + 1)
  {
  }

  /**
   * `ranked.sort((a, b) => a.fairness_score - b.fairness_score)`, as a stable insertion sort:
   * afterwards the array is ordered by score, holds the same venues, and venues with equal
   * scores keep their order.
   */
  method SortByScore(a: array<RankedVenue>)
    modifies a
    ensures SortedByScore(a[..])
    ensures multiset(a[..]) == multiset(old(a[..]))
    ensures SameScoreClasses(a[..], old(a[..]))
  {
    var i := 0;
    while i < a.Length
      invariant 0 <= i <= a.Length
      invariant SortedPrefix(a[..], i)
      invariant multiset(a[..]) == multiset(old(a[..]))
      invariant SameScoreClasses(a[..], old(a[..]))
    {
      InsertStart(a[..], i);
      var j := i;
      while j > 0 && a[j - 1].fairnessScore > a[j].fairnessScore
        invariant 0 <= j <= i
        invariant Inserting(a[..], i, j)
        invariant multiset(a[..]) == multiset(old(a[..]))
        invariant SameScoreClasses(a[..], old(a[..]))
      {
        InsertStep(a[..], i, j);
        a[j - 1], a[j] := a[j], a[j - 1];
        j := j - 1;
      }
      InsertDone(a[..], i, j);
      i := i + 1;
    }
  }

  /** One more participant's time. */
  lemma TimesStep(entries: seq<TravelEntry>, n: nat, vi: int)
    ensures Times(entries, n + 1, vi) == Times(entries, n, vi) + [Duration(entries, n, vi)]
  {
  }

  /** A participant without a usable time makes the venue unreachable for any group containing it. */
  lemma UnreachableWitness(entries: seq<TravelEntry>, n: nat, vi: int, pi: nat)
    requires pi < n && Duration(entries, pi, vi) < 0.0
    ensures !Reachable(entries, n, vi)
  {
  }

  /** One more participant's entry in the mapping. */
  lemma TravelTimesStep(ps: seq<Participant>, entries: seq<TravelEntry>, vi: int, n: nat)
    requires n < |ps|
    ensures TravelTimes(ps, entries, vi, n + 1) ==
      if ps[n].labelText == ProtoKey then TravelTimes(ps, entries, vi, n)
      else TravelTimes(ps, entries, vi, n)[ps[n].labelText := RoundTenth(Duration(entries, n, vi))]
  {
  }

  /** One more venue considered. */
  lemma CandidatesStep(ps: seq<Participant>, venues: seq<VenueArg>, entries: seq<TravelEntry>,
                       strategy: string, sqrt: real -> real, vi: nat)
    requires |ps| > 0 && vi < |venues|
    ensures Candidates(ps, venues, entries, strategy, sqrt, vi + 1) ==
      Candidates(ps, venues, entries, strategy, sqrt, vi) +
      if Reachable(entries, |ps|, vi) then [RankVenue(ps, venues[vi], vi, entries, strategy, sqrt)] else []
  {
  }

  /** The record of a kept venue, field by field. */
  lemma RankVenueFields(ps: seq<Participant>, venue: VenueArg, vi: int, entries: seq<TravelEntry>,
                        strategy: string, sqrt: real -> real)
    requires |ps| > 0
    ensures RankVenue(ps, venue, vi, entries, strategy, sqrt) ==
      RankedVenue(venue.name, venue.lat, venue.lon, venue.venueType, TravelTimes(ps, entries, vi, |ps|),
                  RoundTenth(FairnessScore(Times(entries, |ps|, vi), strategy, sqrt)))
  {
  }

  // ---------------------------------------------------------------------------
  // The tool handler
  // ---------------------------------------------------------------------------

  /**
   * The inner loop of the handler for venue vi: look up each participant's time in turn and
   * give up at the first missing or negative one; otherwise the unrounded times in
   * participant order and the rounded times by label.
   */
  method VenueTimes(ps: seq<Participant>, entries: seq<TravelEntry>, vi: int)
    returns (reachable: bool, travelTimes: map<string, real>, times: seq<real>)
    ensures reachable <==> Reachable(entries, |ps|, vi)
    ensures reachable ==> times == Times(entries, |ps|, vi)
    ensures reachable ==> travelTimes == TravelTimes(ps, entries, vi, |ps|)
  {
    travelTimes := map[];
    times := [];
    reachable := true;
    var pi := 0;
    while pi < |ps|
      invariant 0 <= pi <= |ps|
      invariant reachable && Reachable(entries, pi, vi)
      invariant times == Times(entries, pi, vi)
      invariant travelTimes == TravelTimes(ps, entries, vi, pi)
    {
      var entry := FindEntry(entries, pi, vi);
      var duration := if entry.Some? then entry.value.durationMinutes else -1.0;
      assert duration == Duration(entries, pi, vi);
      if duration < 0.0 {
        UnreachableWitness(entries, |ps|, vi, pi);
        reachable := false;
        return;
      }
      var name := ps[pi].labelText;
      TravelTimesStep(ps, entries, vi, pi);
      if name != ProtoKey {
        travelTimes := travelTimes[name := RoundTenth(duration)];
      }
      times := times + [duration];
      TimesStep(entries, pi, vi);
      pi := pi + 1;
    }
  }

  /**
   * The outer loop of the handler: for each venue in order, skip it when some participant
   * cannot reach it, and otherwise record its rounded times by label and its rounded score.
   */
  method ScoreReachable(ps: seq<Participant>, venues: seq<VenueArg>, entries: seq<TravelEntry>,
                        strategy: string, sqrt: real -> real) returns (ranked: seq<RankedVenue>)
    requires |ps| > 0
    ensures ranked == Candidates(ps, venues, entries, strategy, sqrt, |venues|)
  {
    ranked := [];
    var vi := 0;
    while vi < |venues|
      invariant 0 <= vi <= |venues|
      invariant ranked == Candidates(ps, venues, entries, strategy, sqrt, vi)
    {
      var venue := venues[vi];
      var reachable, travelTimes, times := VenueTimes(ps, entries, vi);
      CandidatesStep(ps, venues, entries, strategy, sqrt, vi);
      if reachable {
        RankVenueFields(ps, venue, vi, entries, strategy, sqrt);
        var fairnessScore := FairnessScore(times, strategy, sqrt);
        ranked := ranked + [RankedVenue(venue.name, venue.lat, venue.lon, venue.venueType, travelTimes, RoundTenth(fairnessScore))];
      }
      vi := vi + 1;
    }
  }

  /**
   * `handleScoreVenues`: label the participants, ask the gateway for the matrix (the
   * engine's answer is `outcome`), pass a payment challenge straight back, otherwise score
   * every venue that all participants can reach and return them ordered by score.
   */
  method HandleScoreVenues(participants: seq<ParticipantArg>, venues: seq<VenueArg>, fairness: Option<string>,
                           client: RoutingClient, outcome: EngineOutcome<RouteMatrix>, sqrt: real -> real)
    returns (resp: ScoreResponse)
    requires |participants| > 0
    ensures var g := Dispatch(client.valhallaUrl, outcome);
      && (g.Challenge? ==> resp == Unpaid(g.challenge))
      && (g.Rethrow? ==> resp == Thrown(g.error))
      && (g.Result? ==>
            var cands := Candidates(Labelled(participants), venues, g.value.entries, StrategyOf(fairness), sqrt, |venues|);
            && resp.Ranked?
            && SortedByScore(resp.rankedVenues)
            && multiset(resp.rankedVenues) == multiset(cands)
            && SameScoreClasses(resp.rankedVenues, cands))
  {
    var strategy := StrategyOf(fairness);
    var ps := Labelled(participants);
    var engine, matrix := client.Compute(outcome);
    if matrix.Challenge? {
      resp := Unpaid(matrix.challenge);
      return;
    } else if matrix.Rethrow? {
      resp := Thrown(matrix.error);
      return;
    }
    var ranked := ScoreReachable(ps, venues, matrix.value.entries, strategy, sqrt);
    var a := new RankedVenue[|ranked|](k requires 0 <= k < |ranked| => ranked[k]);
    assert a[..] == ranked;
    SortByScore(a);
    resp := Ranked(a[..]);
  }

  // ---------------------------------------------------------------------------
  // Worked examples
  // ---------------------------------------------------------------------------

  /** A sorted sequence holding two venues with different scores holds the lower one first. */
  lemma SortedPairOrder(out: seq<RankedVenue>, a: RankedVenue, b: RankedVenue)
    requires SortedByScore(out) && multiset(out) == multiset([a, b])
    requires a.fairnessScore < b.fairnessScore
    ensures out == [a, b]
  {
    assert |out| == |multiset(out)| == 2;
    assert out == [out[0], out[1]];
    assert out[0] in multiset(out) && out[1] in multiset(out);
  }

  /** Alice takes 10 and 20 minutes to the two venues, Bob 13 and 15. */
  function TwoVenueEntries(): seq<TravelEntry>
  {
    [ TravelEntry(0, 0, 10.0, 15.0), TravelEntry(0, 1, 20.0, 30.0),
      TravelEntry(1, 0, 13.0, 18.0), TravelEntry(1, 1, 15.0, 22.0) ]
  }

  /**
   * Under min_max both venues are kept: the first scores 13 with Alice at 10 and Bob at 13
   * minutes, the second scores 20.
   */
  lemma TwoVenueCandidates(ps: seq<Participant>, venues: seq<VenueArg>, sqrt: real -> real)
    requires |ps| == 2 && ps[0].labelText == "Alice" && ps[1].labelText == "Bob"
    requires |venues| == 2
    ensures var c := Candidates(ps, venues, TwoVenueEntries(), "min_max", sqrt, 2);
      && |c| == 2
      && c[0].name == venues[0].name && c[0].fairnessScore == 13.0
      && c[0].travelTimes == map["Alice" := 10.0, "Bob" := 13.0]
      && c[1].name == venues[1].name && c[1].fairnessScore == 20.0
  {
    var e := TwoVenueEntries();
    assert FirstEntryIndex(e, 0, 0, 0) == Some(0);
    assert FirstEntryIndex(e, 1, 0, 0) == Some(2);
    assert FirstEntryIndex(e, 0, 1, 0) == Some(1);
    assert FirstEntryIndex(e, 1, 1, 0) == Some(3);
    assert Duration(e, 0, 0) == 10.0 && Duration(e, 1, 0) == 13.0;
    assert Duration(e, 0, 1) == 20.0 && Duration(e, 1, 1) == 15.0;
    assert Reachable(e, 2, 0) && Reachable(e, 2, 1);
    assert Times(e, 2, 0) == [10.0, 13.0];
    assert Times(e, 2, 1) == [20.0, 15.0];
    assert Max([10.0, 13.0]) == 13.0;
    assert Max([20.0, 15.0]) == 20.0;
    assert RoundTenth(13.0) == 13.0 && RoundTenth(20.0) == 20.0 && RoundTenth(10.0) == 10.0;
    assert TravelTimes(ps, e, 0, 1) == map["Alice" := 10.0];
    assert TravelTimes(ps, e, 0, 2) == map["Alice" := 10.0, "Bob" := 13.0];
    assert Candidates(ps, venues, e, "min_max", sqrt, 1) == [RankVenue(ps, venues[0], 0, e, "min_max", sqrt)];
  }

  /**
   * The ranking case of the tool: with Alice and Bob, the venue where the slower of the two
   * needs 13 minutes comes first, ahead of the one where the slower needs 20.
   */
  method RankTwoVenues(client: RoutingClient, sqrt: real -> real) returns (resp: ScoreResponse)
    ensures resp.Ranked? && |resp.rankedVenues| == 2
    ensures resp.rankedVenues[0].name == "The Crown" && resp.rankedVenues[0].fairnessScore == 13.0
    ensures resp.rankedVenues[0].travelTimes == map["Alice" := 10.0, "Bob" := 13.0]
    ensures resp.rankedVenues[1].name == "Railway Arms"
  {
    var participants := [ParticipantArg(51.45, -2.59, Some("Alice")), ParticipantArg(51.50, -0.12, Some("Bob"))];
    var venues := [VenueArg(51.47, -1.35, "The Crown", None), VenueArg(51.48, -1.30, "Railway Arms", None)];
    var matrix := RouteMatrix(
      [LatLon(51.45, -2.59), LatLon(51.50, -0.12)],
      [LatLon(51.47, -1.35), LatLon(51.48, -1.30)],
      TwoVenueEntries());
    resp := HandleScoreVenues(participants, venues, Some("min_max"), client, Ok(matrix), sqrt);
    var ps := Labelled(participants);
    TwoVenueCandidates(ps, venues, sqrt);
    var c := Candidates(ps, venues, TwoVenueEntries(), "min_max", sqrt, 2);
    assert c == [c[0], c[1]];
    SortedPairOrder(resp.rankedVenues, c[0], c[1]);
  }

  /** Both participants reach the first venue; the routing engine marks the second unreachable. */
  function OneUnreachableEntries(): seq<TravelEntry>
  {
    [ TravelEntry(0, 0, 10.0, 15.0), TravelEntry(0, 1, -1.0, -1.0),
      TravelEntry(1, 0, 12.0, 18.0), TravelEntry(1, 1, -1.0, -1.0) ]
  }

  /** A venue with a negative duration for any participant is left out of the ranking. */
  lemma UnreachableVenueSkipped(ps: seq<Participant>, venues: seq<VenueArg>, strategy: string, sqrt: real -> real)
    requires |ps| == 2 && |venues| == 2
    ensures var c := Candidates(ps, venues, OneUnreachableEntries(), strategy, sqrt, 2);
      |c| == 1 && c[0].name == venues[0].name
  {
    var e := OneUnreachableEntries();
    assert FirstEntryIndex(e, 0, 0, 0) == Some(0);
    assert FirstEntryIndex(e, 1, 0, 0) == Some(2);
    assert FirstEntryIndex(e, 0, 1, 0) == Some(1);
    assert Duration(e, 0, 0) == 10.0 && Duration(e, 1, 0) == 12.0 && Duration(e, 0, 1) == -1.0;
    assert Reachable(e, 2, 0) && !Reachable(e, 2, 1);
    assert Candidates(ps, venues, e, strategy, sqrt, 1) == [RankVenue(ps, venues[0], 0, e, strategy, sqrt)];
  }
}
