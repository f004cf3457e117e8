/** The intervention choice of `choose_intervention` (app.py).

    A score falls into one of four severity bands cut at 30, 60 and 80, a cut
    point belonging to the higher band. Each band has a fixed list of three
    messages, and the source draws one of them with `random.choice`; here the
    draw is the index `pick` supplied by the caller.
 */
module Intervention {

  datatype Option<T> = None | Some(value: T)

  /** The severity bands, from least to most severe. */
  datatype Band = Calm | Light | Medium | High

  /** Position of a band in the order Calm < Light < Medium < High. */
  function Rank(b: Band): (r: nat)
    ensures r < 4
  {
    match b
    case Calm => 0
    case Light => 1
    case Medium => 2
    case High => 3
  }

  /** The band of a score, as the `if`/`elif` chain of `choose_intervention`:
      the score lies in the interval of the band chosen. */
  function BandOf(score: real): (b: Band)
    ensures InBand(score, b)
  {
    if score < 30.0 then Calm
    else if score < 60.0 then Light
    else if score < 80.0 then Medium
    else High
  }

  /** The half-open score interval each band covers. */
  predicate InBand(score: real, b: Band) {
    match b
    case Calm => score < 30.0
    case Light => 30.0 <= score < 60.0
    case Medium => 60.0 <= score < 80.0
    case High => 80.0 <= score
  }

  /** Different bands have different ranks. */
  lemma RankInjective(b1: Band, b2: Band)
    requires Rank(b1) == Rank(b2)
    ensures b1 == b2
  {
  }

  /** A score lies in a band's interval exactly when that band is the one
      chosen. */
  lemma BandPartition(score: real, b: Band)
    ensures InBand(score, b) <==> BandOf(score) == b
  {
  }

  /** Every score lies in the interval of exactly one band. */
  lemma ExactlyOneBand(score: real)
    ensures exists b: Band :: InBand(score, b)
    ensures forall b1: Band, b2: Band :: InBand(score, b1) && InBand(score, b2) ==> b1 == b2
  {
    assert InBand(score, BandOf(score));
  }

  /** The cut points, in increasing order. */
  const Thresholds: seq<real> := [30.0, 60.0, 80.0]

  /** How many of the cut points `ts` are at or below `x`. */
  function CountAtOrBelow(ts: seq<real>, x: real): (n: nat)
    ensures n <= |ts|
  {
    if ts == [] then 0
    else (if ts[0] <= x then 1 else 0) + CountAtOrBelow(ts[1..], x)
  }

  /** A larger value has at least as many cut points at or below it. */
  lemma {:induction false} CountAtOrBelowMonotone(ts: seq<real>, x1: real, x2: real)
    requires x1 <= x2
    ensures CountAtOrBelow(ts, x1) <= CountAtOrBelow(ts, x2)
  {
    if ts != [] {
      CountAtOrBelowMonotone(ts[1..], x1, x2);
    }
  }

  /** Reference definition of the band: its rank is the number of cut points
      the score has reached. */
  lemma BandOfCountsThresholds(score: real)
    ensures Rank(BandOf(score)) == CountAtOrBelow(Thresholds, score)
  {
    var above30, above60 := Thresholds[1..], Thresholds[1..][1..];
    assert above30 == [60.0, 80.0] && above60 == [80.0] && above60[1..] == [];
    assert CountAtOrBelow(above60, score) == if 80.0 <= score then 1 else 0;
    assert CountAtOrBelow(above30, score)
        == (if 60.0 <= score then 1 else 0) + CountAtOrBelow(above60, score);
  }

  /** A higher score never gets a less severe band. */
  lemma BandMonotone(score1: real, score2: real)
    requires score1 <= score2
    ensures Rank(BandOf(score1)) <= Rank(BandOf(score2))
  {
    BandOfCountsThresholds(score1);
    BandOfCountsThresholds(score2);
    CountAtOrBelowMonotone(Thresholds, score1, score2);
  }

  /** The bands on either side of each cut point. */
  lemma BandBoundaries()
    ensures BandOf(29.99) == Calm && BandOf(30.0) == Light
    ensures BandOf(59.99) == Light && BandOf(60.0) == Medium
    ensures BandOf(79.99) == Medium && BandOf(80.0) == High
  {
  }

  const CalmMessages: seq<string> := [
    "You're calm! Keep it up.",
    "Everything seems smooth — enjoy the moment.",
    "Great job staying relaxed today!"
  ]

  const LightMessages: seq<string> := [
    "Try a quick 1-minute breathing exercise.",
    "Stretch your arms and shoulders for a minute.",
    "Take a short walk around the room."
  ]

  const MediumMessages: seq<string> := [
    "Take a 3-minute break away from your screen.",
    "Listen to a relaxing song.",
    "Try a short guided meditation."
  ]

  const HighMessages: seq<string> := [
    "High stress detected — take a 5-minute walk or hydration break.",
    "Step outside for fresh air and deep breaths.",
    "Do a short body scan to release tension."
  ]

  /** The message list of a band. */
  function Messages(b: Band): (ms: seq<string>)
    ensures |ms| == 3
  {
    match b
    case Calm => CalmMessages
    case Light => LightMessages
    case Medium => MediumMessages
    case High => HighMessages
  }

  /** The band whose list holds `message`, if any. */
  function BandOfMessage(message: string): (r: Option<Band>)
    ensures r.Some? ==> message in Messages(r.value)
    ensures r.None? ==> forall b: Band :: message !in Messages(b)
  {
    if message in CalmMessages then Some(Calm)
    else if message in LightMessages then Some(Light)
    else if message in MediumMessages then Some(Medium)
    else if message in HighMessages then Some(High)
    else None
  }

  /** No message belongs to two bands. */
  lemma MessagesDisjoint(b1: Band, b2: Band, message: string)
    requires b1 != b2 && message in Messages(b1)
    ensures message !in Messages(b2)
  {
  }

  /** A band's message identifies the band. */
  lemma MessageIdentifiesBand(b: Band, message: string)
    requires message in Messages(b)
    ensures BandOfMessage(message) == Some(b)
  {
    if b != Calm { MessagesDisjoint(b, Calm, message); }
    if b != Light { MessagesDisjoint(b, Light, message); }
    if b != Medium { MessagesDisjoint(b, Medium, message); }
  }

  /** `choose_intervention(score)`, with the random draw given as `pick`. */
  function ChooseIntervention(score: real, pick: nat): (message: string)
    requires pick < 3
    ensures message in Messages(BandOf(score))
    ensures BandOfMessage(message) == Some(BandOf(score))
  {
    var message := Messages(BandOf(score))[pick];
    MessageIdentifiesBand(BandOf(score), message);
    message
  }

  /** Every message of the score's band is some draw's result. */
  lemma EveryBandMessageChosen(score: real, message: string)
    requires message in Messages(BandOf(score))
    ensures exists pick: nat :: pick < 3 && ChooseIntervention(score, pick) == message
  {
    var ms := Messages(BandOf(score));
    var pick :| 0 <= pick < 3 && ms[pick] == message;
    assert ChooseIntervention(score, pick) == message;
  }
}
