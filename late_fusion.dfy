/**
 * Late fusion of the detector's visual class scores with the audio
 * classifier's: a per-class convex blend, then the class with the highest
 * blended score.  A Python dict is a sequence of (key, score) pairs with
 * distinct keys, in insertion order; scores are reals.
 */
module LateFusion {

  /** The default weight of the visual scores. */
  const DEFAULT_ALPHA: real := 0.5

  /** A dict from class to score, in insertion order. */
  type Scores<K> = seq<(K, real)>

  predicate DistinctKeys<K(==)>(d: Scores<K>) {
    forall i, j :: 0 <= i < j < |d| ==> d[i].0 != d[j].0
  }

  function Keys<K(==)>(d: Scores<K>): (ks: seq<K>)
    ensures |ks| == |d| && forall i :: 0 <= i < |d| ==> ks[i] == d[i].0
  {
    if d == [] then [] else [d[0].0] + Keys(d[1..])
  }

  /** `d.get(k, default)`. */
  function Get<K(==)>(d: Scores<K>, k: K, default: real): (v: real)
    ensures k !in Keys(d) ==> v == default
    ensures forall i :: 0 <= i < |d| && d[i].0 == k && k !in Keys(d[..i]) ==> v == d[i].1
  {
    if d == [] then default
    else if d[0].0 == k then d[0].1
    else
      assert forall i :: 1 <= i <= |d| ==> d[1..][..i - 1] == d[..i][1..];
      Get(d[1..], k, default)
  }

  /** `d[k] = v`: replace the score of a present key in place, or add the key at the end. */
  function Put<K(==)>(d: Scores<K>, k: K, v: real): (r: Scores<K>)
    ensures (forall j :: 0 <= j < |d| ==> d[j].0 != k) ==> r == d + [(k, v)]
  {
    if d == [] then [(k, v)]
    else if d[0].0 == k then [(k, v)] + d[1..]
    else
      assert d == [d[0]] + d[1..];
      [d[0]] + Put(d[1..], k, v)
  }

  function Score(alpha: real, v: real, a: real): real {
    alpha * v + (1.0 - alpha) * a
  }

  /** `final_probs` once the keys `keys` of `visual` have been processed. */
  function BlendKeys<K(==)>(keys: seq<K>, visual: Scores<K>, audio: Scores<K>, alpha: real): (r: Scores<K>)
    ensures |r| == |keys|
  {
    if keys == [] then []
    else
      var k := keys[|keys| - 1];
      BlendKeys(keys[..|keys| - 1], visual, audio, alpha) + [(k, Score(alpha, Get(visual, k, 0.0), Get(audio, k, 0.0)))]
  }

  /** `final_probs`: every visual class with its blended score, in the visual order. */
  function Blend<K(==)>(visual: Scores<K>, audio: Scores<K>, alpha: real): (r: Scores<K>)
    ensures |r| == |visual| && forall i :: 0 <= i < |visual| ==> r[i].0 == visual[i].0
  {
    BlendKeysKeys(Keys(visual), visual, audio, alpha);
    BlendKeys(Keys(visual), visual, audio, alpha)
  }

  /** Python's `max` over a non-empty dict by value: the first position holding the highest score. */
  function FirstArgMax<K(==)>(d: Scores<K>): (m: nat)
    requires |d| > 0
    ensures m < |d|
    ensures forall j :: 0 <= j < |d| ==> d[j].1 <= d[m].1
    ensures forall j :: 0 <= j < m ==> d[j].1 < d[m].1
  {
    if |d| == 1 then 0
    else
      var best := FirstArgMax(d[..|d| - 1]);
      if d[|d| - 1].1 > d[best].1 then |d| - 1 else best
  }

  /** `late_fusion_visual_audio`; `max` of an empty dict raises, so `visual` is non-empty. */
  method LateFusionVisualAudio<K(==)>(visual: Scores<K>, audio: Scores<K>, alpha: real) returns (finalClass: K, finalProbs: Scores<K>)
    requires |visual| > 0 && DistinctKeys(visual)
    ensures finalProbs == Blend(visual, audio, alpha)
    ensures finalClass == finalProbs[FirstArgMax(finalProbs)].0
  {
    finalProbs := [];
    for i := 0 to |visual|
      invariant finalProbs == BlendKeys(Keys(visual)[..i], visual, audio, alpha)
    {
      var cls := visual[i].0;
      var v := Get(visual, cls, 0.0);
      var a := Get(audio, cls, 0.0);
      BlendKeysStep(visual, audio, alpha, i);
      finalProbs := Put(finalProbs, cls, Score(alpha, v, a));
    }
    assert Keys(visual)[..|visual|] == Keys(visual);
    finalClass := finalProbs[FirstArgMax(finalProbs)].0;
  }

  /** Storing the blended score of the next visual class adds it at the end, since no earlier class has its key. */
  lemma BlendKeysStep<K>(visual: Scores<K>, audio: Scores<K>, alpha: real, i: nat)
    requires DistinctKeys(visual) && i < |visual|
    ensures var k := visual[i].0;
            Put(BlendKeys(Keys(visual)[..i], visual, audio, alpha), k, Score(alpha, Get(visual, k, 0.0), Get(audio, k, 0.0)))
            == BlendKeys(Keys(visual)[..i + 1], visual, audio, alpha)
  {
    var keys := Keys(visual);
    assert keys[..i + 1][..i] == keys[..i];
    BlendKeysKeys(keys[..i], visual, audio, alpha);
  }

  // ---------------------------------------------------------------- properties

  /** In a dict, `get` of the key at position `i` is the score at position `i`. */
  lemma GetAtKey<K>(d: Scores<K>, i: nat)
    requires DistinctKeys(d) && i < |d|
    ensures Get(d, d[i].0, 0.0) == d[i].1
  {
  }

  /** The blend has the keys of `visual`, in its order: classes only the audio scores know are ignored. */
  lemma BlendKeysAreVisualKeys<K>(visual: Scores<K>, audio: Scores<K>, alpha: real)
    ensures Keys(Blend(visual, audio, alpha)) == Keys(visual)
  {
    BlendKeysKeys(Keys(visual), visual, audio, alpha);
  }

  lemma BlendKeysKeys<K>(keys: seq<K>, visual: Scores<K>, audio: Scores<K>, alpha: real)
    ensures forall i :: 0 <= i < |keys| ==> BlendKeys(keys, visual, audio, alpha)[i].0 == keys[i]
  {
    forall i | 0 <= i < |keys|
      ensures BlendKeys(keys, visual, audio, alpha)[i].0 == keys[i]
    {
      BlendKeysAt(keys, visual, audio, alpha, i);
    }
  }

  /** The score at each position of the blend, with 0 for a class the audio scores lack. */
  lemma {:induction false} BlendAt<K>(visual: Scores<K>, audio: Scores<K>, alpha: real, i: nat)
    requires DistinctKeys(visual) && i < |visual|
    ensures var r := Blend(visual, audio, alpha);
            var k := visual[i].0;
            r[i] == (k, Score(alpha, visual[i].1, Get(audio, k, 0.0)))
  {
    BlendKeysAt(Keys(visual), visual, audio, alpha, i);
    GetAtKey(visual, i);
  }

  /** A class the audio scores lack contributes audio score 0 to the blend. */
  lemma MissingAudioScoresZero<K>(visual: Scores<K>, audio: Scores<K>, alpha: real, i: nat)
    requires DistinctKeys(visual) && i < |visual| && visual[i].0 !in Keys(audio)
    ensures Blend(visual, audio, alpha)[i].1 == alpha * visual[i].1
  {
    BlendAt(visual, audio, alpha, i);
    assert (1.0 - alpha) * 0.0 == 0.0;
  }

  lemma {:induction false} BlendKeysAt<K>(keys: seq<K>, visual: Scores<K>, audio: Scores<K>, alpha: real, i: nat)
    requires i < |keys|
    ensures BlendKeys(keys, visual, audio, alpha)[i]
         == (keys[i], Score(alpha, Get(visual, keys[i], 0.0), Get(audio, keys[i], 0.0)))
  {
    if i < |keys| - 1 {
      BlendKeysAt(keys[..|keys| - 1], visual, audio, alpha, i);
    }
  }

  /** With `alpha = 1` the blend is the visual scores. */
  lemma BlendAlphaOne<K>(visual: Scores<K>, audio: Scores<K>)
    requires DistinctKeys(visual)
    ensures Blend(visual, audio, 1.0) == visual
  {
    var r := Blend(visual, audio, 1.0);
    forall i | 0 <= i < |visual|
      ensures r[i] == visual[i]
    {
      BlendAt(visual, audio, 1.0, i);
    }
  }

  /** With `alpha = 0` the blend is the audio score of each visual class, 0 when missing. */
  lemma BlendAlphaZero<K>(visual: Scores<K>, audio: Scores<K>)
    requires DistinctKeys(visual)
    ensures var r := Blend(visual, audio, 0.0);
            |r| == |visual| && forall i :: 0 <= i < |visual| ==> r[i] == (visual[i].0, Get(audio, visual[i].0, 0.0))
  {
    forall i | 0 <= i < |visual|
      ensures Blend(visual, audio, 0.0)[i] == (visual[i].0, Get(audio, visual[i].0, 0.0))
    {
      BlendAt(visual, audio, 0.0, i);
    }
  }

  /** For `alpha` in [0, 1] each blended score lies between the visual and the audio score. */
  lemma BlendBetween(alpha: real, v: real, a: real)
    requires 0.0 <= alpha <= 1.0
    ensures v <= a ==> v <= Score(alpha, v, a) <= a
    ensures a <= v ==> a <= Score(alpha, v, a) <= v
  {
    var d := if v <= a then a - v else v - a;
    assert alpha * d >= 0.0 && (1.0 - alpha) * d >= 0.0 by { NonNegativeProduct(alpha, d); NonNegativeProduct(1.0 - alpha, d); }
    if v <= a {
      assert Score(alpha, v, a) == a - alpha * d;
    } else {
      assert Score(alpha, v, a) == v - (1.0 - alpha) * d;
    }
  }

  /** With the default weight the blend is the mean of the two scores. */
  lemma DefaultAlphaIsMean(v: real, a: real)
    ensures Score(DEFAULT_ALPHA, v, a) == (v + a) / 2.0
  {
  }

  lemma NonNegativeProduct(x: real, y: real)
    requires x >= 0.0 && y >= 0.0
    ensures x * y >= 0.0
  {
  }

  /** The final class is a visual class whose blended score is the highest, and no class before it in
      the visual order scores as high. */
  lemma FinalClassIsFirstMax<K>(visual: Scores<K>, audio: Scores<K>, alpha: real)
    requires |visual| > 0 && DistinctKeys(visual)
    ensures var r := Blend(visual, audio, alpha);
            var m := FirstArgMax(r);
            && r[m].0 == visual[m].0
            && (forall j :: 0 <= j < |visual| ==> r[j].1 <= r[m].1)
            && (forall j :: 0 <= j < m ==> r[j].1 < r[m].1)
  {
    BlendKeysKeys(Keys(visual), visual, audio, alpha);
  }
}
