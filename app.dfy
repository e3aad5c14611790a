/** The score-to-decision layer of the web front end (src/app.py): the
    calibration of a raw cosine score into a "human" percentage, the
    three-way verdict shown for the winner, and the integer bar length shown
    for every candidate. */
module App {
  import Engine

  /** The raw score below which a pair counts as a mismatch. */
  const Threshold: real := 0.6

  function Max(a: real, b: real): (r: real)
    ensures r == a || r == b
    ensures a <= r && b <= r
  {
    if a < b then b else a
  }

  /** get_human_score: raw scores below the floor are squeezed into [0, 10),
      the rest are rescaled linearly so that the floor maps to 0 and a
      perfect score of 1 maps to 100. */
  function HumanScore(raw: real): (h: real)
    ensures 0.0 <= h
    ensures raw <= 0.0 ==> h == 0.0
    ensures raw < Threshold ==> h < 10.0
    ensures raw == Threshold ==> h == 0.0
    ensures raw == 1.0 ==> h == 100.0
    ensures raw <= 1.0 ==> h <= 100.0
  {
    if raw < Threshold then Max(0.0, raw / Threshold * 10.0)
    else (raw - Threshold) / (1.0 - Threshold) * 100.0
  }

  /** The worked example of the source's comment, raw 0.80 gives 50, holds;
      its second example does not: raw 0.95 gives 87.5, not 95 (it is still
      an exact match). */
  lemma WorkedExamples()
    ensures HumanScore(0.8) == 50.0
    ensures HumanScore(0.95) == 87.5
    ensures HumanVerdict(HumanScore(0.95)) == ExactMatch
  {
  }

  /** Below the floor the score grows with the raw score. */
  lemma MonotoneBelowFloor(a: real, b: real)
    requires a <= b < Threshold
    ensures HumanScore(a) <= HumanScore(b)
  {
  }

  /** From the floor up the score grows strictly with the raw score. */
  lemma MonotoneFromFloor(a: real, b: real)
    requires Threshold <= a < b
    ensures HumanScore(a) < HumanScore(b)
  {
  }

  /** Across the floor the score is not monotone: every positive raw score
      just under the floor scores higher than the floor itself. */
  lemma DropAtFloor(raw: real)
    requires 0.0 < raw < Threshold
    ensures HumanScore(Threshold) < HumanScore(raw)
  {
  }

  datatype Verdict = ExactMatch | Similar | NoMatch

  /** The verdict shown for a human score; a score on a boundary falls into
      the lower band. */
  function HumanVerdict(h: real): (v: Verdict)
    ensures v == ExactMatch <==> h > 85.0
    ensures v == Similar <==> 60.0 < h <= 85.0
    ensures v == NoMatch <==> h <= 60.0
  {
    if h > 85.0 then ExactMatch
    else if h > 60.0 then Similar
    else NoMatch
  }

  /** The verdicts ordered from worst to best. */
  function Rank(v: Verdict): (r: nat)
  {
    match v
    case NoMatch => 0
    case Similar => 1
    case ExactMatch => 2
  }

  /** The verdict of a raw score, pulled back through the calibration:
      exact above 0.94, similar in (0.84, 0.94], no match up to 0.84 and in
      particular for every raw score under the floor. */
  lemma VerdictOfRaw(raw: real)
    ensures HumanVerdict(HumanScore(raw)) == ExactMatch <==> raw > 0.94
    ensures HumanVerdict(HumanScore(raw)) == Similar <==> 0.84 < raw <= 0.94
    ensures HumanVerdict(HumanScore(raw)) == NoMatch <==> raw <= 0.84
    ensures raw < Threshold ==> HumanVerdict(HumanScore(raw)) == NoMatch
  {
  }

  /** Although the calibration drops at the floor, the verdict of a raw score
      never gets worse as the raw score grows. */
  lemma VerdictMonotone(a: real, b: real)
    requires a <= b
    ensures Rank(HumanVerdict(HumanScore(a))) <= Rank(HumanVerdict(HumanScore(b)))
  {
  }

  /** Python's int() on a number: truncation toward zero. */
  function TruncateToInt(x: real): (n: int)
    ensures 0.0 <= x ==> n as real <= x < n as real + 1.0
    ensures x < 0.0 ==> n as real - 1.0 < x <= n as real
  {
    if 0.0 <= x then x.Floor else -((-x).Floor)
  }

  /** The bar drawn for each candidate, int(h_score), stays within 0..100 for
      every cosine score. */
  lemma BarInRange(raw: real)
    requires -1.0 <= raw <= 1.0
    ensures 0 <= TruncateToInt(HumanScore(raw)) <= 100
  {
  }

  /** The verdict the page shows: the winner's raw score, calibrated and put
      in a band. A failed match carries the score 0.0 and so shows no match. */
  function WinnerVerdict<Img, Emb>(query: Img, candidates: seq<Img>,
                                   encode: Img -> Engine.Option<Emb>, sim: (Emb, Emb) -> real): (v: Verdict)
    ensures v != NoMatch ==> Engine.FindBestMatch(query, candidates, encode, sim).index != -1
  {
    HumanVerdict(HumanScore(Engine.FindBestMatch(query, candidates, encode, sim).score))
  }

  /** The winner's verdict is at least as good as that of any candidate in the
      breakdown list. */
  lemma WinnerVerdictIsBest<Img, Emb>(query: Img, candidates: seq<Img>,
                                      encode: Img -> Engine.Option<Emb>, sim: (Emb, Emb) -> real, i: int)
    requires 0 <= i < |Engine.FindBestMatch(query, candidates, encode, sim).scores|
    ensures var m := Engine.FindBestMatch(query, candidates, encode, sim);
            Rank(HumanVerdict(HumanScore(m.scores[i]))) <= Rank(WinnerVerdict(query, candidates, encode, sim))
  {
  }

  /** The winner's bar, however, can be shorter than a loser's: with raw
      scores 0.59 and 0.6 the second candidate wins with a human score of 0
      while the first shows about 9.8. */
  lemma WinnerBarCanBeShorter()
    ensures var s := [0.59, 0.6];
            && Engine.ArgMax(s) == 1
            && HumanScore(s[Engine.ArgMax(s)]) < HumanScore(s[0])
  {
  }
}
