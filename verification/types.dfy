/** Records shared by the registry, the search service and the dashboard
    (types.ts), and the six-band AQI classification they all use. */
module Types {

  datatype Option<+T> = None | Some(value: T)

  /** The outcome of a call that may throw: the value, or the error's message. */
  datatype Result<+T> = Ok(value: T) | Err(message: string)

  /** Pollutant sub-readings. `co` is fractional in the data, the others are whole numbers. */
  datatype Pollutants = Pollutants(pm25: int, pm10: int, no2: int, so2: int, co: real, o3: int)

  datatype LocationData = LocationData(
    id: string,
    name: string,
    aqi: int,
    pollutants: Pollutants,
    temperature: int,
    humidity: int,
    lastUpdated: string)

  /** The six AQI bands, mildest first. */
  datatype AQICategory =
    | Good
    | Moderate
    | UnhealthyForSensitiveGroups
    | Unhealthy
    | VeryUnhealthy
    | Hazardous

  /** The label the dashboard shows for a band. */
  function Label(c: AQICategory): string
  {
    match c
    case Good => "Good"
    case Moderate => "Moderate"
    case UnhealthyForSensitiveGroups => "Unhealthy for Sensitive Groups"
    case Unhealthy => "Unhealthy"
    case VeryUnhealthy => "Very Unhealthy"
    case Hazardous => "Hazardous"
  }

  /** Different bands show different labels. */
  lemma LabelsDistinct(a: AQICategory, b: AQICategory)
    requires a != b
    ensures Label(a) != Label(b)
  {
  }

  /** Position of a band in the severity order: 0 for Good up to 5 for Hazardous. */
  function Severity(c: AQICategory): nat
  {
    match c
    case Good => 0
    case Moderate => 1
    case UnhealthyForSensitiveGroups => 2
    case Unhealthy => 3
    case VeryUnhealthy => 4
    case Hazardous => 5
  }

  /** A point of the 24-hour trend. `time` is the sample's clock time in
      milliseconds; the dashboard shows it formatted as hours and minutes. */
  datatype HistoricalPoint = HistoricalPoint(time: int, aqi: int)

  /** The inclusive upper bounds of the first five bands. */
  const BandCuts: seq<int> := [50, 100, 150, 200, 300]

  /** How many of `cuts` lie strictly below `aqi`. Over BandCuts this is the
      band index of `aqi`: the reference both classifiers are proved against. */
  function CutsExceeded(cuts: seq<int>, aqi: int): (n: nat)
    ensures n <= |cuts|
  {
    if cuts == [] then 0
    else (if cuts[0] < aqi then 1 else 0) + CutsExceeded(cuts[1..], aqi)
  }

  /** A larger AQI exceeds at least as many cuts. */
  lemma {:induction false} CutsExceededMonotone(cuts: seq<int>, a: int, b: int)
    requires a <= b
    ensures CutsExceeded(cuts, a) <= CutsExceeded(cuts, b)
  {
    if cuts != [] {
      CutsExceededMonotone(cuts[1..], a, b);
    }
  }

  /** The band index of every AQI, written out for BandCuts. */
  lemma BandIndex(aqi: int)
    ensures CutsExceeded(BandCuts, aqi) ==
      if aqi <= 50 then 0
      else if aqi <= 100 then 1
      else if aqi <= 150 then 2
      else if aqi <= 200 then 3
      else if aqi <= 300 then 4
      else 5
  {
    var c1, c2, c3, c4 := BandCuts[1..], BandCuts[2..], BandCuts[3..], BandCuts[4..];
    assert c1[1..] == c2 && c2[1..] == c3 && c3[1..] == c4 && c4[1..] == [];
    assert CutsExceeded(c4, aqi) == if 300 < aqi then 1 else 0;
    assert CutsExceeded(c3, aqi) == (if 200 < aqi then 1 else 0) + CutsExceeded(c4, aqi);
    assert CutsExceeded(c2, aqi) == (if 150 < aqi then 1 else 0) + CutsExceeded(c3, aqi);
    assert CutsExceeded(c1, aqi) == (if 100 < aqi then 1 else 0) + CutsExceeded(c2, aqi);
  }
}
