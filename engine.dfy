/** The matching step of the image comparator (src/engine.py): encode a query
    image and a list of candidate images with an embedding model, score every
    candidate against the query and pick the best one.

    The embedding model and cosine similarity are collaborators the model does
    not look inside: they are passed in as functions. `encode` returns None
    where the model call raises. */
module Engine {

  datatype Option<T> = None | Some(value: T)

  /** The triple find_best_match returns: the winner's index, its score and
      the score of every candidate, in candidate order. */
  datatype BestMatch = BestMatch(index: int, score: real, scores: seq<real>)

  /** What find_best_match returns when anything inside it fails. */
  const Failed: BestMatch := BestMatch(-1, 0.0, [])

  /** `k` is the first index holding a maximal element of `s`. */
  predicate IsFirstMax(s: seq<real>, k: int)
  {
    && 0 <= k < |s|
    && (forall j :: 0 <= j < |s| ==> s[j] <= s[k])
    && (forall j :: 0 <= j < k ==> s[j] < s[k])
  }

  /** The index argmax picks: a maximal score, the first one on ties. */
  function ArgMax(s: seq<real>): (k: nat)
    requires |s| > 0
    ensures IsFirstMax(s, k)
    decreases |s|
  {
    if |s| == 1 then 0
    else
      var k := ArgMax(s[..|s| - 1]);
      if s[|s| - 1] > s[k] then |s| - 1 else k
  }

  /** The contract of ArgMax pins its result down: no other index is the
      first maximal one. */
  lemma ArgMaxIsTheFirstMax(s: seq<real>, k: int)
    requires |s| > 0
    ensures IsFirstMax(s, k) <==> k == ArgMax(s)
  {
  }

  /** Batch encoding: one embedding per image, in order, or a failure when the
      model fails on any image of the batch. */
  function EncodeAll<Img, Emb>(images: seq<Img>, encode: Img -> Option<Emb>): (r: Option<seq<Emb>>)
    ensures r.Some? <==> forall i :: 0 <= i < |images| ==> encode(images[i]).Some?
    ensures r.Some? ==> |r.value| == |images|
    ensures r.Some? ==> forall i :: 0 <= i < |images| ==> encode(images[i]) == Some(r.value[i])
    decreases |images|
  {
    if images == [] then Some([])
    else
      match encode(images[0])
      case None => None
      case Some(e) =>
        match EncodeAll(images[1..], encode)
        case None => None
        case Some(rest) => Some([e] + rest)
  }

  /** find_best_match: encode the query, encode all candidates in one batch,
      score each candidate against the query, and return the first maximal
      score with its index and the whole score list. Any failure of the model,
      and an empty candidate list (an empty batch makes the library calls
      raise), gives the
      Failed triple. */
  function FindBestMatch<Img, Emb>(query: Img, candidates: seq<Img>,
                                   encode: Img -> Option<Emb>, sim: (Emb, Emb) -> real): (r: BestMatch)
    ensures r.index == -1 <==> r.scores == []
    ensures r.index == -1 <==>
              || encode(query).None?
              || |candidates| == 0
              || exists i :: 0 <= i < |candidates| && encode(candidates[i]).None?
    ensures r.index == -1 ==> r == Failed
    ensures r.index != -1 ==>
              && 0 <= r.index < |candidates|
              && |r.scores| == |candidates|
              && IsFirstMax(r.scores, r.index)
              && r.score == r.scores[r.index]
    ensures r.index != -1 ==>
              && encode(query).Some?
              && forall i :: 0 <= i < |candidates| ==>
                   && encode(candidates[i]).Some?
                   && r.scores[i] == sim(encode(query).value, encode(candidates[i]).value)
  {
    match encode(query)
    case None => Failed
    case Some(q) =>
      match EncodeAll(candidates, encode)
      case None => Failed
      case Some(embs) =>
        var scores := seq(|embs|, i requires 0 <= i < |embs| => sim(q, embs[i]));
        if |scores| == 0 then Failed
        else
          var k := ArgMax(scores);
          BestMatch(k, scores[k], scores)
  }
}
