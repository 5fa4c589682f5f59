/** The static configuration tables: park factors, outdoor flags, coordinates and team-to-venue maps. */
module Venues {

  /** A venue's latitude and longitude, as given to the weather collaborator. */
  datatype Coords = Coords(lat: real, lon: real)

  /** Run-scoring factor per MLB park, normalised around 100. */
  const ParkFactors: map<string, int> := map[
    "Coors Field" := 118, "Fenway Park" := 106, "Yankee Stadium" := 104, "Globe Life Field" := 99,
    "Dodger Stadium" := 101, "Wrigley Field" := 102, "Oracle Park" := 96, "Tropicana Field" := 97,
    "T-Mobile Park" := 95, "Great American Ball Park" := 104, "Minute Maid Park" := 101,
    "Truist Park" := 102, "Busch Stadium" := 98, "Citi Field" := 97, "Nationals Park" := 100,
    "Guaranteed Rate Field" := 103, "Target Field" := 98, "Comerica Park" := 98, "Progressive Field" := 99
  ]

  /** Whether an NFL stadium's weather matters (true) or it is indoor or roofed (false). */
  const OutdoorStadia: map<string, bool> := map[
    "Lambeau Field" := true, "Soldier Field" := true, "Arrowhead Stadium" := true, "MetLife Stadium" := true,
    "Highmark Stadium" := true, "Lincoln Financial Field" := true, "Gillette Stadium" := true,
    "Cleveland Browns Stadium" := true, "M&T Bank Stadium" := true, "Acrisure Stadium" := true,
    "TIAA Bank Field" := true, "Lumen Field" := true, "Empower Field at Mile High" := true,
    "Levi's Stadium" := true, "Raymond James Stadium" := true, "Bank of America Stadium" := true,
    "SoFi Stadium" := false, "U.S. Bank Stadium" := false, "Mercedes-Benz Stadium" := false,
    "Caesars Superdome" := false, "Ford Field" := false, "Allegiant Stadium" := false, "NRG Stadium" := false,
    "AT&T Stadium" := false, "State Farm Stadium" := false, "Lucas Oil Stadium" := false, "Nissan Stadium" := true
  ]

  /** Coordinates of the venues whose weather can be looked up. */
  const StadiumCoords: map<string, Coords> := map[
    "Coors Field" := Coords(39.7559, -104.9942),
    "Fenway Park" := Coords(42.3467, -71.0972),
    "Yankee Stadium" := Coords(40.8296, -73.9262),
    "Globe Life Field" := Coords(32.7473, -97.0846),
    "Dodger Stadium" := Coords(34.0739, -118.2390),
    "Wrigley Field" := Coords(41.9484, -87.6553),
    "Oracle Park" := Coords(37.7786, -122.3893),
    "T-Mobile Park" := Coords(47.5914, -122.3325),
    "Lambeau Field" := Coords(44.5013, -88.0622),
    "MetLife Stadium" := Coords(40.8128, -74.0742),
    "Highmark Stadium" := Coords(42.7738, -78.7867),
    "Lincoln Financial Field" := Coords(39.9008, -75.1675),
    "Gillette Stadium" := Coords(42.0909, -71.2643),
    "Arrowhead Stadium" := Coords(39.0490, -94.4839),
    "Acrisure Stadium" := Coords(40.4468, -80.0158),
    "Levi's Stadium" := Coords(37.4030, -121.9690),
    "SoFi Stadium" := Coords(33.9535, -118.3387),
    "U.S. Bank Stadium" := Coords(44.9735, -93.2575)
  ]

  /** The home park of the MLB teams the heuristic knows. */
  const TeamPark: map<string, string> := map[
    "Colorado Rockies" := "Coors Field",
    "Boston Red Sox" := "Fenway Park",
    "New York Yankees" := "Yankee Stadium",
    "Los Angeles Dodgers" := "Dodger Stadium",
    "Chicago Cubs" := "Wrigley Field",
    "San Francisco Giants" := "Oracle Park",
    "Seattle Mariners" := "T-Mobile Park",
    "Texas Rangers" := "Globe Life Field",
    "Cincinnati Reds" := "Great American Ball Park"
  ]

  /** The home stadium of the NFL teams the heuristic knows. */
  const TeamStadium: map<string, string> := map[
    "Green Bay Packers" := "Lambeau Field",
    "New York Jets" := "MetLife Stadium",
    "New York Giants" := "MetLife Stadium",
    "Buffalo Bills" := "Highmark Stadium",
    "Philadelphia Eagles" := "Lincoln Financial Field",
    "New England Patriots" := "Gillette Stadium",
    "Kansas City Chiefs" := "Arrowhead Stadium",
    "Pittsburgh Steelers" := "Acrisure Stadium",
    "San Francisco 49ers" := "Levi's Stadium",
    "Los Angeles Rams" := "SoFi Stadium",
    "Los Angeles Chargers" := "SoFi Stadium",
    "Minnesota Vikings" := "U.S. Bank Stadium"
  ]

  /** Every park factor lies between 95 and 118. */
  lemma ParkFactorRange(park: string)
    requires park in ParkFactors
    ensures 95 <= ParkFactors[park] <= 118
  {
  }

  /** Every mapped MLB park has a park factor; all but the Reds' park have coordinates. */
  lemma TeamParkCoverage(team: string)
    requires team in TeamPark
    ensures TeamPark[team] in ParkFactors
    ensures TeamPark[team] in StadiumCoords <==> team != "Cincinnati Reds"
  {
  }

  /** Every mapped NFL stadium is flagged, and has coordinates. */
  lemma TeamStadiumCoverage(team: string)
    requires team in TeamStadium
    ensures TeamStadium[team] in OutdoorStadia && TeamStadium[team] in StadiumCoords
  {
  }
}
