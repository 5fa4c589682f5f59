/**
 * The feature selectors `mlb_features`, `nfl_features`, `ufc_features` (their
 * table lookups and defaults) and the per-sport home-side rating deltas that
 * `mlb_predict` and `nfl_predict` add to the home rating.
 */
module Features {
  import opened Options
  import opened Venues

  /**
   * One schedule entry. `commenceTime` is the raw timestamp text; the empty
   * string stands for both a missing and an empty `commence_time`, which the
   * source treats alike. A missing `teams` list is the empty sequence.
   */
  datatype Item = Item(homeTeam: Option<string>, awayTeam: Option<string>, teams: seq<string>, commenceTime: string)

  /** A weather reading near kick-off: temperature (C), wind (km/h), precipitation probability (%). */
  datatype Weather = Weather(temp: Option<real>, wind: Option<real>, precip: Option<real>)

  const NoWeather: Weather := Weather(None, None, None)

  /** The weather collaborator: coordinates and an instant to a reading (all absent on failure). */
  type WeatherSource = (Coords, int) -> Weather

  /** A team name as an f-string renders it: a missing name prints as `None`. */
  function Shown(name: Option<string>): (r: string)
  {
    name.GetOr("None")
  }

  /** Python truthiness of an optional number: present and non-zero. */
  predicate Truthy(x: Option<real>)
  {
    x.Some? && x.value != 0.0
  }

  // ---------------------------------------------------------------- MLB

  /** What `mlb_features` returns: names, start, park factor, temperature and wind. */
  datatype MlbGame = MlbGame(home: Option<string>, away: Option<string>, instant: int,
                             parkFactor: int, temp: Option<real>, wind: Option<real>)

  const DefaultParkFactor: int := 100
  const MlbHomeField: real := 30.0

  /** The home team's park, when the heuristic map knows it. */
  function ParkOf(home: Option<string>): (r: Option<string>)
  {
    if home.Some? && home.value in TeamPark then Some(TeamPark[home.value]) else None
  }

  /** `mlb_features`: the park factor defaults to 100, and weather is looked up only for a park with coordinates. */
  function MlbFeatures(item: Item, instant: int, fetch: WeatherSource): (r: MlbGame)
  {
    var park := ParkOf(item.homeTeam);
    var pf := if park.Some? && park.value in ParkFactors then ParkFactors[park.value] else DefaultParkFactor;
    var w := if park.Some? && park.value != "" && park.value in StadiumCoords
             then fetch(StadiumCoords[park.value], instant) else NoWeather;
    MlbGame(item.homeTeam, item.awayTeam, instant, pf, w.temp, w.wind)
  }

  /** The park-factor term `(pf - 100) * 0.2`. */
  function ParkTerm(pf: int): (r: real)
  {
    (pf - 100) as real * 0.2
  }

  /** The home-side delta of `mlb_predict`: home field, park factor, and the two weather nudges. */
  function MlbHomeDelta(pf: int, temp: Option<real>, wind: Option<real>): (r: real)
  {
    MlbHomeField + ParkTerm(pf)
    + (if temp.Some? then (temp.value - 20.0) * 0.5 else 0.0)
    + (if wind.Some? && wind.value > 30.0 then 3.0 else 0.0)
  }

  /** A home team without a known park: factor 100, no weather lookup, a delta of exactly the home-field 30. */
  lemma MlbUnknownPark(item: Item, instant: int, fetch: WeatherSource)
    requires ParkOf(item.homeTeam).None?
    ensures var g := MlbFeatures(item, instant, fetch);
      g.parkFactor == 100 && g.temp.None? && g.wind.None? &&
      MlbHomeDelta(g.parkFactor, g.temp, g.wind) == 30.0
  {
  }

  /**
   * Weather comes from the collaborator exactly when the home park has
   * coordinates; otherwise the weather terms are zero whatever it would say.
   */
  lemma MlbWeatherOnlyWithCoords(item: Item, instant: int, fetch: WeatherSource)
    ensures var g := MlbFeatures(item, instant, fetch);
      var park := ParkOf(item.homeTeam);
      if park.Some? && park.value in StadiumCoords then
        var w := fetch(StadiumCoords[park.value], instant);
        g.temp == w.temp && g.wind == w.wind
      else
        g.temp.None? && g.wind.None? &&
        MlbHomeDelta(g.parkFactor, g.temp, g.wind) == 30.0 + ParkTerm(g.parkFactor)
  {
    var park := ParkOf(item.homeTeam);
    if park.Some? {
      TeamParkCoverage(item.homeTeam.value);
      assert park.value != "";
    }
  }

  /** The park factor of every home team lies in [95, 118], so the park term lies in [-1, 3.6]. */
  lemma MlbParkTermRange(item: Item, instant: int, fetch: WeatherSource)
    ensures var pf := MlbFeatures(item, instant, fetch).parkFactor;
      95 <= pf <= 118 && -1.0 <= ParkTerm(pf) <= 3.6
  {
    var park := ParkOf(item.homeTeam);
    if park.Some? && park.value in ParkFactors {
      ParkFactorRange(park.value);
    }
  }

  /** The Rockies play at Coors Field, factor 118: the park adds 3.6, and weather is looked up. */
  lemma RockiesAtCoors(away: Option<string>, teams: seq<string>, time: string, instant: int, fetch: WeatherSource)
    ensures var g := MlbFeatures(Item(Some("Colorado Rockies"), away, teams, time), instant, fetch);
      var w := fetch(Coords(39.7559, -104.9942), instant);
      g.parkFactor == 118 && ParkTerm(g.parkFactor) == 3.6 &&
      g.temp == w.temp && g.wind == w.wind
  {
  }

  /** The Reds' park has a factor (104) but no coordinates: no weather, a delta of 30.8. */
  lemma RedsWithoutWeather(away: Option<string>, teams: seq<string>, time: string, instant: int, fetch: WeatherSource)
    ensures var g := MlbFeatures(Item(Some("Cincinnati Reds"), away, teams, time), instant, fetch);
      g.parkFactor == 104 && g.temp.None? && g.wind.None? &&
      MlbHomeDelta(g.parkFactor, g.temp, g.wind) == 30.8
  {
  }

  /** Warmer weather helps the home side: the delta rises strictly with the temperature. */
  lemma MlbWarmerHelpsHome(pf: int, t1: real, t2: real, wind: Option<real>)
    requires t1 < t2
    ensures MlbHomeDelta(pf, Some(t1), wind) < MlbHomeDelta(pf, Some(t2), wind)
  {
  }

  /** The wind nudge is +3 above 30 km/h and nothing otherwise, whatever the other inputs. */
  lemma MlbWindNudge(pf: int, temp: Option<real>, wind: real)
    ensures MlbHomeDelta(pf, temp, Some(wind)) - MlbHomeDelta(pf, temp, None)
         == if wind > 30.0 then 3.0 else 0.0
  {
  }

  // ---------------------------------------------------------------- NFL

  /** What `nfl_features` returns: names, start, stadium, outdoor flag, weather and rest days. */
  datatype NflGame = NflGame(home: Option<string>, away: Option<string>, instant: int,
                             stadium: Option<string>, outdoor: bool,
                             temp: Option<real>, wind: Option<real>, precip: Option<real>,
                             restHome: int, restAway: int)

  /** Rest days assumed for both sides: one week. */
  const DefaultRest: int := 7
  const NflHomeField: real := 55.0

  /** The home team's stadium, when the heuristic map knows it. */
  function StadiumOf(home: Option<string>): (r: Option<string>)
  {
    if home.Some? && home.value in TeamStadium then Some(TeamStadium[home.value]) else None
  }

  /** `nfl_features`: unknown stadiums count as indoor, and weather is looked up only for an outdoor stadium with coordinates. */
  function NflFeatures(item: Item, instant: int, fetch: WeatherSource): (r: NflGame)
  {
    var stadium := StadiumOf(item.homeTeam);
    var outdoor := if stadium.Some? && stadium.value in OutdoorStadia then OutdoorStadia[stadium.value] else false;
    var w := if stadium.Some? && stadium.value != "" && outdoor && stadium.value in StadiumCoords
             then fetch(StadiumCoords[stadium.value], instant) else NoWeather;
    NflGame(item.homeTeam, item.awayTeam, instant, stadium, outdoor, w.temp, w.wind, w.precip,
            DefaultRest, DefaultRest)
  }

  /** The weather bonus of an outdoor game, with the source's truthiness tests. */
  function NflWeatherBonus(temp: Option<real>, wind: Option<real>, precip: Option<real>): (r: real)
  {
    (if Truthy(wind) && wind.value >= 32.0 then 5.0 else 0.0)
    + (if temp.Some? && temp.value <= 5.0 then 3.0 else 0.0)
    + (if Truthy(precip) && precip.value >= 60.0 then 2.0 else 0.0)
  }

  /** The home-side delta of `nfl_predict`: home field, rest difference, and the weather bonus outdoors. */
  function NflHomeDelta(outdoor: bool, temp: Option<real>, wind: Option<real>, precip: Option<real>,
                        restHome: int, restAway: int): (r: real)
  {
    NflHomeField + (restHome - restAway) as real * 1.5
    + (if outdoor then NflWeatherBonus(temp, wind, precip) else 0.0)
  }

  /**
   * Each weather term needs its own reading present and past its threshold,
   * independently of the others (the truthiness tests change nothing, since
   * zero never passes a threshold).
   */
  lemma NflWeatherTerms(temp: Option<real>, wind: Option<real>, precip: Option<real>)
    ensures NflWeatherBonus(temp, wind, precip)
         == (if wind.Some? && wind.value >= 32.0 then 5.0 else 0.0)
          + (if temp.Some? && temp.value <= 5.0 then 3.0 else 0.0)
          + (if precip.Some? && precip.value >= 60.0 then 2.0 else 0.0)
    ensures 0.0 <= NflWeatherBonus(temp, wind, precip) <= 10.0
  {
  }

  /** An indoor venue ignores weather entirely, whatever the readings. */
  lemma NflIndoorIgnoresWeather(temp: Option<real>, wind: Option<real>, precip: Option<real>, restHome: int, restAway: int)
    ensures NflHomeDelta(false, temp, wind, precip, restHome, restAway)
         == NflHomeDelta(false, None, None, None, restHome, restAway)
         == 55.0 + (restHome - restAway) as real * 1.5
  {
  }

  /**
   * For every game the selector builds, the rest term is zero, weather is
   * looked up exactly when the stadium is outdoor, and the delta lies between
   * 55 (indoor, unknown, or calm) and 65 (every weather term at once).
   */
  lemma NflSelectedDelta(item: Item, instant: int, fetch: WeatherSource)
    ensures var g := NflFeatures(item, instant, fetch);
      var d := NflHomeDelta(g.outdoor, g.temp, g.wind, g.precip, g.restHome, g.restAway);
      g.restHome == g.restAway == 7 &&
      (g.outdoor ==> var w := fetch(StadiumCoords[g.stadium.value], instant);
                     g.temp == w.temp && g.wind == w.wind && g.precip == w.precip) &&
      (!g.outdoor ==> g.temp.None? && g.wind.None? && g.precip.None? && d == 55.0) &&
      55.0 <= d <= 65.0
  {
    var g := NflFeatures(item, instant, fetch);
    if g.stadium.Some? {
      TeamStadiumCoverage(item.homeTeam.value);
      assert g.stadium.value != "";
    }
    NflWeatherTerms(g.temp, g.wind, g.precip);
  }

  /** The Rams play at SoFi Stadium, flagged indoor: no weather lookup, a delta of 55. */
  lemma RamsIndoors(away: Option<string>, teams: seq<string>, time: string, instant: int, fetch: WeatherSource)
    ensures var g := NflFeatures(Item(Some("Los Angeles Rams"), away, teams, time), instant, fetch);
      g.stadium == Some("SoFi Stadium") && !g.outdoor &&
      NflHomeDelta(g.outdoor, g.temp, g.wind, g.precip, g.restHome, g.restAway) == 55.0
  {
  }

  /** A windy, freezing, wet day at Lambeau Field adds all three terms: 65. */
  lemma PackersInTheCold(away: Option<string>, teams: seq<string>, time: string, instant: int, fetch: WeatherSource)
    ensures var g := NflFeatures(Item(Some("Green Bay Packers"), away, teams, time), instant, fetch);
      g.outdoor &&
      (fetch(Coords(44.5013, -88.0622), instant) == Weather(Some(-3.0), Some(40.0), Some(80.0)) ==>
         NflHomeDelta(g.outdoor, g.temp, g.wind, g.precip, g.restHome, g.restAway) == 65.0)
  {
  }

  // ---------------------------------------------------------------- UFC

  /** `ufc_features`: the first two names, with "Fighter A" and "Fighter B" filling what is missing. */
  function UfcFeatures(item: Item): (r: (string, string))
  {
    var teams := item.teams;
    if |teams| >= 2 then (teams[0], teams[1])
    else (if |teams| > 0 then teams[0] else "Fighter A", "Fighter B")
  }

  /** Each fighter is the listed name at its position, or the fallback name when the list is too short. */
  lemma UfcFighterNames(item: Item)
    ensures UfcFeatures(item).0 == if |item.teams| > 0 then item.teams[0] else "Fighter A"
    ensures UfcFeatures(item).1 == if |item.teams| > 1 then item.teams[1] else "Fighter B"
  {
  }
}
