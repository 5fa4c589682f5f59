/**
 * `mlb_predict`, `nfl_predict` and `ufc_predict`: read (and so possibly
 * initialise) the two ratings, add the home-side delta, and turn the
 * adjusted differential into the home (or first fighter's) win probability.
 */
module Predictions {
  import opened Options
  import opened Probability
  import opened Ratings
  import opened Features

  /** The home win probability `mlb_predict` computes against the store `m`. */
  function MlbChance(m: map<string, real>, home: string, away: string,
                     pf: int, temp: Option<real>, wind: Option<real>): (r: real)
  {
    WinProb(Rating(m, Key(MLB, home)) + MlbHomeDelta(pf, temp, wind) - Rating(m, Key(MLB, away)))
  }

  /** The home win probability `nfl_predict` computes against the store `m`. */
  function NflChance(m: map<string, real>, home: string, away: string, outdoor: bool,
                     temp: Option<real>, wind: Option<real>, precip: Option<real>,
                     restHome: int, restAway: int): (r: real)
  {
    WinProb(Rating(m, Key(NFL, home)) + NflHomeDelta(outdoor, temp, wind, precip, restHome, restAway)
            - Rating(m, Key(NFL, away)))
  }

  /** The first fighter's win probability `ufc_predict` computes against the store `m`: raw ratings only. */
  function UfcChance(m: map<string, real>, a: string, b: string): (r: real)
  {
    WinProb(Rating(m, Key(UFC, a)) - Rating(m, Key(UFC, b)))
  }

  /** The store after a prediction has read the keys `first` and then `second`. */
  function AfterReads(m: map<string, real>, first: string, second: string): (r: map<string, real>)
  {
    Seed(Seed(m, first), second)
  }

  /** Predicting reads ratings but changes none of them: it only inserts the two keys. */
  lemma ReadsKeepRatings(m: map<string, real>, first: string, second: string)
    ensures SameRatings(AfterReads(m, first, second), m)
    ensures AfterReads(m, first, second).Keys == m.Keys + {first, second}
  {
    SeedKeepsRatings(m, first);
    SeedKeepsRatings(Seed(m, first), second);
  }

  /** Two stores that give every key the same rating predict the same chances. */
  lemma ChancesDependOnRatingsOnly(m1: map<string, real>, m2: map<string, real>, home: string, away: string)
    requires SameRatings(m1, m2)
    ensures forall pf, temp, wind :: MlbChance(m1, home, away, pf, temp, wind) == MlbChance(m2, home, away, pf, temp, wind)
    ensures forall outdoor, temp, wind, precip, rh, ra ::
      NflChance(m1, home, away, outdoor, temp, wind, precip, rh, ra) == NflChance(m2, home, away, outdoor, temp, wind, precip, rh, ra)
    ensures UfcChance(m1, home, away) == UfcChance(m2, home, away)
  {
    assert Rating(m1, Key(MLB, home)) == Rating(m2, Key(MLB, home));
    assert Rating(m1, Key(MLB, away)) == Rating(m2, Key(MLB, away));
    assert Rating(m1, Key(NFL, home)) == Rating(m2, Key(NFL, home));
    assert Rating(m1, Key(NFL, away)) == Rating(m2, Key(NFL, away));
    assert Rating(m1, Key(UFC, home)) == Rating(m2, Key(UFC, home));
    assert Rating(m1, Key(UFC, away)) == Rating(m2, Key(UFC, away));
  }

  /** The MLB chance is the transform of any differential equal to the adjusted one. */
  lemma MlbChanceOf(m: map<string, real>, home: string, away: string,
                    pf: int, temp: Option<real>, wind: Option<real>, diff: real)
    requires diff == Rating(m, Key(MLB, home)) + MlbHomeDelta(pf, temp, wind) - Rating(m, Key(MLB, away))
    ensures MlbChance(m, home, away, pf, temp, wind) == WinProb(diff)
  {
  }

  /** The NFL chance is the transform of any differential equal to the adjusted one. */
  lemma NflChanceOf(m: map<string, real>, home: string, away: string, outdoor: bool,
                    temp: Option<real>, wind: Option<real>, precip: Option<real>,
                    restHome: int, restAway: int, diff: real)
    requires diff == Rating(m, Key(NFL, home)) + NflHomeDelta(outdoor, temp, wind, precip, restHome, restAway)
                     - Rating(m, Key(NFL, away))
    ensures NflChance(m, home, away, outdoor, temp, wind, precip, restHome, restAway) == WinProb(diff)
  {
  }

  /** `mlb_predict`: the home rating accumulates home field, park factor and the weather nudges. */
  method MlbPredict(store: RatingStore, home: string, away: string,
                    pf: int, temp: Option<real>, wind: Option<real>) returns (ph: real)
    modifies store
    ensures ph == MlbChance(old(store.ratings), home, away, pf, temp, wind)
    ensures store.ratings == AfterReads(old(store.ratings), Key(MLB, home), Key(MLB, away))
  {
    ghost var m := store.ratings;
    var rh := store.Get(Key(MLB, home));
    var ra := store.Get(Key(MLB, away));
    assert ra == Rating(m, Key(MLB, away));
    rh := rh + MlbHomeField;
    rh := rh + (pf - 100) as real * 0.2;
    if temp.Some? {
      rh := rh + (temp.value - 20.0) * 0.5;
    }
    if wind.Some? && wind.value > 30.0 {
      rh := rh + 3.0;
    }
    var diff := rh - ra;
    MlbChanceOf(m, home, away, pf, temp, wind, diff);
    ph := WinProb(diff);
  }

  /** `nfl_predict`: home field and rest always; the weather terms only for an outdoor venue. */
  method NflPredict(store: RatingStore, home: string, away: string, outdoor: bool,
                    temp: Option<real>, wind: Option<real>, precip: Option<real>,
                    restHome: int, restAway: int) returns (ph: real)
    modifies store
    ensures ph == NflChance(old(store.ratings), home, away, outdoor, temp, wind, precip, restHome, restAway)
    ensures store.ratings == AfterReads(old(store.ratings), Key(NFL, home), Key(NFL, away))
  {
    ghost var m := store.ratings;
    var rh := store.Get(Key(NFL, home));
    var ra := store.Get(Key(NFL, away));
    assert ra == Rating(m, Key(NFL, away));
    rh := rh + NflHomeField;
    rh := rh + (restHome - restAway) as real * 1.5;
    if outdoor {
      if Truthy(wind) && wind.value >= 32.0 {
        rh := rh + 5.0;
      }
      if temp.Some? && temp.value <= 5.0 {
        rh := rh + 3.0;
      }
      if Truthy(precip) && precip.value >= 60.0 {
        rh := rh + 2.0;
      }
    }
    var diff := rh - ra;
    NflChanceOf(m, home, away, outdoor, temp, wind, precip, restHome, restAway, diff);
    ph := WinProb(diff);
  }

  /** `ufc_predict`: no contextual adjustment. */
  method UfcPredict(store: RatingStore, a: string, b: string) returns (pa: real)
    modifies store
    ensures pa == UfcChance(old(store.ratings), a, b)
    ensures store.ratings == AfterReads(old(store.ratings), Key(UFC, a), Key(UFC, b))
  {
    ghost var m := store.ratings;
    var ra := store.Get(Key(UFC, a));
    var rb := store.Get(Key(UFC, b));
    assert rb == Rating(m, Key(UFC, b));
    var diff := ra - rb;
    pa := WinProb(diff);
  }

  /** Two equally rated fighters have an even chance, so the first one is picked. */
  lemma UfcEqualRatingsPickFirst(m: map<string, real>, a: string, b: string)
    requires Rating(m, Key(UFC, a)) == Rating(m, Key(UFC, b))
    ensures UfcChance(m, a, b) == 0.5 && PicksFirst(UfcChance(m, a, b))
  {
    WinProbHalfIffEven(0.0);
  }

  /** The home side is picked exactly when its rating plus the MLB delta is at least the away rating. */
  lemma MlbPickBySign(m: map<string, real>, home: string, away: string, pf: int, temp: Option<real>, wind: Option<real>)
    ensures PicksFirst(MlbChance(m, home, away, pf, temp, wind))
        <==> Rating(m, Key(MLB, home)) + MlbHomeDelta(pf, temp, wind) >= Rating(m, Key(MLB, away))
  {
    PickBySign(Rating(m, Key(MLB, home)) + MlbHomeDelta(pf, temp, wind) - Rating(m, Key(MLB, away)));
  }

  /** The home side is picked exactly when its rating plus the NFL delta is at least the away rating. */
  lemma NflPickBySign(m: map<string, real>, home: string, away: string, outdoor: bool,
                      temp: Option<real>, wind: Option<real>, precip: Option<real>, restHome: int, restAway: int)
    ensures PicksFirst(NflChance(m, home, away, outdoor, temp, wind, precip, restHome, restAway))
        <==> Rating(m, Key(NFL, home)) + NflHomeDelta(outdoor, temp, wind, precip, restHome, restAway)
             >= Rating(m, Key(NFL, away))
  {
    PickBySign(Rating(m, Key(NFL, home)) + NflHomeDelta(outdoor, temp, wind, precip, restHome, restAway)
               - Rating(m, Key(NFL, away)));
  }

  /** The first fighter is picked exactly when their rating is at least the second's. */
  lemma UfcPickBySign(m: map<string, real>, a: string, b: string)
    ensures PicksFirst(UfcChance(m, a, b)) <==> Rating(m, Key(UFC, a)) >= Rating(m, Key(UFC, b))
  {
    PickBySign(Rating(m, Key(UFC, a)) - Rating(m, Key(UFC, b)));
  }

  /**
   * Between two equally rated NFL teams, the home-field 55 decides: with the
   * selector's features the home side is favoured and picked, whatever the weather.
   */
  lemma NflEqualRatingsFavourHome(m: map<string, real>, item: Item, instant: int, fetch: WeatherSource)
    requires Rating(m, Key(NFL, Shown(item.homeTeam))) == Rating(m, Key(NFL, Shown(item.awayTeam)))
    ensures var g := NflFeatures(item, instant, fetch);
      var p := NflChance(m, Shown(g.home), Shown(g.away), g.outdoor, g.temp, g.wind, g.precip, g.restHome, g.restAway);
      p > 0.5 && PicksFirst(p)
  {
    var g := NflFeatures(item, instant, fetch);
    NflSelectedDelta(item, instant, fetch);
    var d := NflHomeDelta(g.outdoor, g.temp, g.wind, g.precip, g.restHome, g.restAway);
    WinProbHalfIffEven(0.0);
    WinProbStrictlyIncreasing(0.0, d);
    assert Rating(m, Key(NFL, Shown(g.home))) + d - Rating(m, Key(NFL, Shown(g.away))) == d;
  }
}
