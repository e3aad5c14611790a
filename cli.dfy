/** The verdict of the command-line tool (main.py) on one raw similarity
    score. The score is an input here: the comparison call that produces it
    is not part of this model. */
module Cli {
  import App

  datatype CliVerdict = Match | Similar | Different

  /** Above 0.85 a match, above 0.65 similar, anything else different; a score
      on a boundary falls into the lower band. */
  function RawVerdict(score: real): (v: CliVerdict)
    ensures v == Match <==> score > 0.85
    ensures v == Similar <==> 0.65 < score <= 0.85
    ensures v == Different <==> score <= 0.65
  {
    if score > 0.85 then Match
    else if score > 0.65 then Similar
    else Different
  }

  /** The verdicts ordered from worst to best. */
  function Rank(v: CliVerdict): (r: nat)
  {
    match v
    case Different => 0
    case Similar => 1
    case Match => 2
  }

  /** The web front end is never more generous than the command line: for
      every raw score, its calibrated verdict ranks at most as high as the
      command line's verdict on the same score. */
  lemma WebNoMoreGenerousThanCli(raw: real)
    ensures App.Rank(App.HumanVerdict(App.HumanScore(raw))) <= Rank(RawVerdict(raw))
  {
  }

  /** The converse fails: raw 0.9 is a match on the command line but only
      similar on the page. */
  lemma CliMatchMayBeWebSimilar()
    ensures RawVerdict(0.9) == Match
    ensures App.HumanVerdict(App.HumanScore(0.9)) == App.Similar
  {
  }
}
