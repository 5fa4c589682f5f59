/**
 * The Elo rating store (`elo_get`, `elo_set`) and the paired rating update
 * (`elo_update`). Keys are sport-namespaced competitor names such as
 * `"MLB:Boston Red Sox"`; a key seen for the first time gets the base rating.
 */
module Ratings {
  import opened Probability

  /** The rating given to a key the first time it is looked up. */
  const BaseRating: real := 1500.0

  /** The K-factor `elo_update` uses when its caller gives none. */
  const DefaultK: real := 20.0

  /** The sports whose competitors are rated; each namespaces its keys. */
  datatype Sport = MLB | NFL | UFC

  function Prefix(sport: Sport): (r: string)
  {
    match sport
    case MLB => "MLB:"
    case NFL => "NFL:"
    case UFC => "UFC:"
  }

  /** The store key of a competitor, as the f-strings `f"MLB:{home}"` and the like build it. */
  function Key(sport: Sport, name: string): (r: string)
  {
    Prefix(sport) + name
  }

  /** Namespacing keeps the sports apart: a key determines its sport and its name. */
  lemma KeyInjective(s1: Sport, n1: string, s2: Sport, n2: string)
    requires Key(s1, n1) == Key(s2, n2)
    ensures s1 == s2 && n1 == n2
  {
    var k1, k2 := Key(s1, n1), Key(s2, n2);
    assert k1[0] == Prefix(s1)[0] && k2[0] == Prefix(s2)[0];
    assert |Prefix(s1)| == |Prefix(s2)| == 4;
    assert n1 == k1[4..] && n2 == k2[4..];
  }

  /** The rating a read of `key` yields in the store `m`. */
  function Rating(m: map<string, real>, key: string): (r: real)
  {
    if key in m then m[key] else BaseRating
  }

  /** The store after a read of `key`: the base rating is inserted when the key is absent. */
  function Seed(m: map<string, real>, key: string): (r: map<string, real>)
  {
    if key in m then m else m[key := BaseRating]
  }

  /** Two stores that give every key the same rating. */
  ghost predicate SameRatings(m1: map<string, real>, m2: map<string, real>)
  {
    forall key :: Rating(m1, key) == Rating(m2, key)
  }

  /** A read inserts the key, never changes any rating, and a second read changes nothing. */
  lemma SeedKeepsRatings(m: map<string, real>, key: string)
    ensures key in Seed(m, key)
    ensures Seed(m, key).Keys == m.Keys + {key}
    ensures SameRatings(Seed(m, key), m)
    ensures Seed(Seed(m, key), key) == Seed(m, key)
  {
  }

  /** The actual score of the first side: 1 for a win, 0.5 for a draw, 0 for a loss. */
  function ActualScore(aScore: int, bScore: int): (sa: real)
    ensures sa == 1.0 <==> aScore > bScore
    ensures sa == 0.5 <==> aScore == bScore
    ensures sa == 0.0 <==> aScore < bScore
  {
    if aScore > bScore then 1.0 else if aScore == bScore then 0.5 else 0.0
  }

  /** `Sb = 1 - Sa` is the actual score seen from the second side. */
  lemma ActualScoreComplement(aScore: int, bScore: int)
    ensures 1.0 - ActualScore(aScore, bScore) == ActualScore(bScore, aScore)
  {
  }

  /** The expected score of a side rated `ra` against one rated `rb`, written as in the source. */
  function Expected(ra: real, rb: real): (r: real)
  {
    1.0 / (1.0 + Pow10((rb - ra) / 400.0))
  }

  /**
   * The two expected scores are computed independently, yet they are the
   * win probabilities of opposite differentials, and so add up to one.
   */
  lemma ExpectedComplement(ra: real, rb: real)
    ensures Expected(ra, rb) == WinProb(ra - rb)
    ensures Expected(ra, rb) + Expected(rb, ra) == 1.0
  {
    assert (rb - ra) / 400.0 == -(ra - rb) / 400.0;
    assert (ra - rb) / 400.0 == -(rb - ra) / 400.0;
    WinProbComplement(ra - rb);
  }

  /** The two new ratings `(Ra2, Rb2)` of `elo_update` for old ratings `ra`, `rb`. */
  function Updated(ra: real, rb: real, aScore: int, bScore: int, k: real): (r: (real, real))
  {
    var ea := Expected(ra, rb);
    var eb := Expected(rb, ra);
    var sa := ActualScore(aScore, bScore);
    var sb := 1.0 - sa;
    (ra + k * (sa - ea), rb + k * (sb - eb))
  }

  /** The store after `elo_update(aKey, bKey, aScore, bScore, k)`: `aKey` is written first, then `bKey`. */
  function ApplyResult(m: map<string, real>, aKey: string, bKey: string,
                       aScore: int, bScore: int, k: real): (r: map<string, real>)
  {
    var r := Updated(Rating(m, aKey), Rating(m, bKey), aScore, bScore, k);
    m[aKey := r.0][bKey := r.1]
  }

  /** An update between two distinct keys neither creates nor destroys rating points. */
  lemma ZeroSum(m: map<string, real>, aKey: string, bKey: string, aScore: int, bScore: int, k: real)
    requires aKey != bKey
    ensures var r := ApplyResult(m, aKey, bKey, aScore, bScore, k);
      r[aKey] + r[bKey] == Rating(m, aKey) + Rating(m, bKey)
  {
    var ra, rb := Rating(m, aKey), Rating(m, bKey);
    ExpectedComplement(ra, rb);
    var ea, eb := Expected(ra, rb), Expected(rb, ra);
    var sa := ActualScore(aScore, bScore);
    assert k * (ea + eb) == k;
    assert k * (sa - ea) + k * ((1.0 - sa) - eb) == k - k * (ea + eb);
  }

  /** Writing both keys afterwards erases whatever the two reads inserted. */
  lemma WritesCoverReads(m: map<string, real>, aKey: string, bKey: string, ra: real, rb: real)
    ensures Seed(Seed(m, aKey), bKey)[aKey := ra][bKey := rb] == m[aKey := ra][bKey := rb]
  {
  }

  /** An update writes the two keys and leaves every other key as it was. */
  lemma UpdateFrame(m: map<string, real>, aKey: string, bKey: string, aScore: int, bScore: int, k: real)
    ensures var r := ApplyResult(m, aKey, bKey, aScore, bScore, k);
      r.Keys == m.Keys + {aKey, bKey} &&
      forall other :: other != aKey && other != bKey ==>
        (other in r <==> other in m) && Rating(r, other) == Rating(m, other)
  {
  }

  lemma PositiveProduct(k: real, d: real)
    requires k > 0.0 && d > 0.0
    ensures k * d > 0.0
  {
  }

  lemma NegativeProduct(k: real, d: real)
    requires k > 0.0 && d < 0.0
    ensures k * d < 0.0
  {
  }

  /** With two distinct keys and a positive K, the winner gains rating points and the loser loses them. */
  lemma WinnerGains(m: map<string, real>, aKey: string, bKey: string, aScore: int, bScore: int, k: real)
    requires aKey != bKey && k > 0.0 && aScore > bScore
    ensures var r := ApplyResult(m, aKey, bKey, aScore, bScore, k);
      r[aKey] > Rating(m, aKey) && r[bKey] < Rating(m, bKey)
  {
    var ra, rb := Rating(m, aKey), Rating(m, bKey);
    var ea, eb := Expected(ra, rb), Expected(rb, ra);
    ExpectedComplement(ra, rb);
    ExpectedComplement(rb, ra);
    PositiveProduct(k, 1.0 - ea);
    NegativeProduct(k, 0.0 - eb);
    assert ActualScore(aScore, bScore) == 1.0;
    var u := Updated(ra, rb, aScore, bScore, k);
    assert u.0 == ra + k * (1.0 - ea);
    assert u.1 == rb + k * (0.0 - eb);
  }

  /** The same with the second side winning: it gains rating points and the first side loses them. */
  lemma WinnerGainsAsSecond(m: map<string, real>, aKey: string, bKey: string, aScore: int, bScore: int, k: real)
    requires aKey != bKey && k > 0.0 && aScore < bScore
    ensures var r := ApplyResult(m, aKey, bKey, aScore, bScore, k);
      r[aKey] < Rating(m, aKey) && r[bKey] > Rating(m, bKey)
  {
    var ra, rb := Rating(m, aKey), Rating(m, bKey);
    var ea, eb := Expected(ra, rb), Expected(rb, ra);
    ExpectedComplement(ra, rb);
    ExpectedComplement(rb, ra);
    NegativeProduct(k, 0.0 - ea);
    PositiveProduct(k, 1.0 - eb);
    assert ActualScore(aScore, bScore) == 0.0;
    var u := Updated(ra, rb, aScore, bScore, k);
    assert u.0 == ra + k * (0.0 - ea);
    assert u.1 == rb + k * (1.0 - eb);
  }

  /** Between distinct ratings, the lower-rated side expects less than half a point and the higher more. */
  lemma UnderdogExpectsLess(ra: real, rb: real)
    requires ra < rb
    ensures Expected(ra, rb) < 0.5 < Expected(rb, ra)
  {
    ExpectedComplement(ra, rb);
    ExpectedComplement(rb, ra);
    WinProbHalfIffEven(0.0);
    WinProbStrictlyIncreasing(ra - rb, 0.0);
    WinProbStrictlyIncreasing(0.0, rb - ra);
  }

  /** A draw moves the lower-rated of two distinct keys up and the higher-rated down. */
  lemma DrawFavoursUnderdog(m: map<string, real>, aKey: string, bKey: string, score: int, k: real)
    requires aKey != bKey && k > 0.0 && Rating(m, aKey) < Rating(m, bKey)
    ensures var r := ApplyResult(m, aKey, bKey, score, score, k);
      r[aKey] > Rating(m, aKey) && r[bKey] < Rating(m, bKey)
  {
    var ra, rb := Rating(m, aKey), Rating(m, bKey);
    var ea, eb := Expected(ra, rb), Expected(rb, ra);
    UnderdogExpectsLess(ra, rb);
    PositiveProduct(k, 0.5 - ea);
    NegativeProduct(k, 0.5 - eb);
    assert ActualScore(score, score) == 0.5;
    var u := Updated(ra, rb, score, score, k);
    assert u.0 == ra + k * (0.5 - ea);
    assert u.1 == rb + k * (0.5 - eb);
  }

  /** The same with the second side rated lower: a draw moves it up and the first side down. */
  lemma DrawFavoursUnderdogAsSecond(m: map<string, real>, aKey: string, bKey: string, score: int, k: real)
    requires aKey != bKey && k > 0.0 && Rating(m, aKey) > Rating(m, bKey)
    ensures var r := ApplyResult(m, aKey, bKey, score, score, k);
      r[aKey] < Rating(m, aKey) && r[bKey] > Rating(m, bKey)
  {
    var ra, rb := Rating(m, aKey), Rating(m, bKey);
    var ea, eb := Expected(ra, rb), Expected(rb, ra);
    UnderdogExpectsLess(rb, ra);
    NegativeProduct(k, 0.5 - ea);
    PositiveProduct(k, 0.5 - eb);
    assert ActualScore(score, score) == 0.5;
    var u := Updated(ra, rb, score, score, k);
    assert u.0 == ra + k * (0.5 - ea);
    assert u.1 == rb + k * (0.5 - eb);
  }

  /** Two competitors both at the base rating, the first winning, with the default K: 1510 and 1490. */
  lemma FirstResultFromBase(m: map<string, real>, aKey: string, bKey: string, aScore: int, bScore: int)
    requires aKey != bKey && Rating(m, aKey) == BaseRating && Rating(m, bKey) == BaseRating && aScore > bScore
    ensures var r := ApplyResult(m, aKey, bKey, aScore, bScore, DefaultK);
      r[aKey] == 1510.0 && r[bKey] == 1490.0
  {
    Pow10Zero();
    assert (BaseRating - BaseRating) / 400.0 == 0.0;
    assert Expected(BaseRating, BaseRating) == 0.5;
  }

  /**
   * When both keys are the same, the second write wins: the key ends at its
   * rating plus `k * (1 - Sa - 0.5)`.
   */
  lemma SelfMatchLastWriteWins(m: map<string, real>, key: string, aScore: int, bScore: int, k: real)
    ensures ApplyResult(m, key, key, aScore, bScore, k)
         == m[key := Rating(m, key) + k * (1.0 - ActualScore(aScore, bScore) - 0.5)]
  {
    var r := Rating(m, key);
    Pow10Zero();
    assert (r - r) / 400.0 == 0.0;
    assert Expected(r, r) == 0.5;
    var u := Updated(r, r, aScore, bScore, k);
    assert u.1 == r + k * (1.0 - ActualScore(aScore, bScore) - 0.5);
    assert m[key := u.0][key := u.1] == m[key := u.1];
  }

  /** The persistent `elo` table: one rating per key. */
  class RatingStore {
    var ratings: map<string, real>

    /** A store in which no key has been seen yet. */
    constructor ()
      ensures ratings == map[]
    {
      ratings := map[];
    }

    /** `elo_get`: the stored rating, or the base rating inserted for a key never seen. */
    method Get(key: string) returns (r: real)
      modifies this
      ensures key in old(ratings) ==> r == old(ratings)[key] && ratings == old(ratings)
      ensures key !in old(ratings) ==> r == BaseRating && ratings == old(ratings)[key := BaseRating]
      ensures r == Rating(old(ratings), key) && ratings == Seed(old(ratings), key)
    {
      if key in ratings {
        r := ratings[key];
        return;
      }
      ratings := ratings[key := BaseRating];
      r := BaseRating;
    }

    /** `elo_set`: overwrite (or create) the rating of `key`, and nothing else. */
    method Set(key: string, rating: real)
      modifies this
      ensures ratings == old(ratings)[key := rating]
    {
      ratings := ratings[key := rating];
    }

    /** `elo_update`: the paired Elo update from the two sides' scores. */
    method Update(aKey: string, bKey: string, aScore: int, bScore: int, k: real := DefaultK)
      modifies this
      ensures ratings == ApplyResult(old(ratings), aKey, bKey, aScore, bScore, k)
      ensures aKey != bKey ==> ratings[aKey] + ratings[bKey] == Rating(old(ratings), aKey) + Rating(old(ratings), bKey)
      ensures forall other :: other != aKey && other != bKey ==> Rating(ratings, other) == Rating(old(ratings), other)
    {
      ghost var m := ratings;
      var ra := Get(aKey);
      var rb := Get(bKey);
      assert ra == Rating(m, aKey) && rb == Rating(m, bKey);
      var (ra2, rb2) := Updated(ra, rb, aScore, bScore, k);
      Set(aKey, ra2);
      Set(bKey, rb2);
      WritesCoverReads(m, aKey, bKey, ra2, rb2);
      assert ratings == ApplyResult(m, aKey, bKey, aScore, bScore, k);
      if aKey != bKey {
        ZeroSum(m, aKey, bKey, aScore, bScore, k);
      }
      UpdateFrame(m, aKey, bKey, aScore, bScore, k);
    }
  }
}
