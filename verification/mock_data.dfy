/** The fixed registry of monitored Hyderabad locations and the synthetic
    24-hour trend around a location's AQI (data/mockData.ts). */
module MockData {
  import opened Types
  import JsText

  /** `HYDERABAD_LOCATIONS`. Every entry is stamped with the clock reading
      taken when the module is loaded, `loadedAt`. */
  function HyderabadLocations(loadedAt: string): (locs: seq<LocationData>)
    ensures |locs| == 5
    ensures forall i, j :: 0 <= i < j < |locs| ==> locs[i].id != locs[j].id
    ensures forall i :: 0 <= i < |locs| ==> locs[i].lastUpdated == loadedAt && 85 <= locs[i].aqi
  {
    [ LocationData("gachibowli", "Gachibowli (IT Hub)", 142,
        Pollutants(52, 98, 24, 8, 1.2, 45), 32, 45, loadedAt),
      LocationData("banjara-hills", "Banjara Hills", 85,
        Pollutants(28, 65, 18, 5, 0.8, 38), 31, 48, loadedAt),
      LocationData("charminar", "Charminar (Old City)", 188,
        Pollutants(78, 145, 42, 15, 2.4, 52), 34, 42, loadedAt),
      LocationData("secunderabad", "Secunderabad Junction", 165,
        Pollutants(65, 120, 35, 12, 1.9, 48), 33, 44, loadedAt),
      LocationData("kukatpally", "Kukatpally Housing Board", 156,
        Pollutants(58, 110, 30, 10, 1.5, 42), 32, 46, loadedAt) ]
  }

  /** The ids of the registry, in order; they do not depend on the load time. */
  const RegistryIds: seq<string> :=
    ["gachibowli", "banjara-hills", "charminar", "secunderabad", "kukatpally"]

  lemma RegistryIdsFixed(loadedAt: string)
    ensures forall i :: 0 <= i < 5 ==> HyderabadLocations(loadedAt)[i].id == RegistryIds[i]
  {
  }

  /** The whole-number offset `Math.floor(baseAqi + (Math.random() * 40 - 20))`
      takes from the baseline. Mostly in [-20, 19]; the largest draws of
      `Math.random()` round up to +20 once the baseline is added. */
  type Jitter = j: int | -20 <= j <= 20

  const HourMs: int := 3600000

  /** `registry.find(l => l.id === id)?.aqi || 100`: the AQI of the first entry
      with that id, or 100 when there is none or its AQI is 0. */
  function BaseAqi(registry: seq<LocationData>, id: string): (base: int)
    ensures base != 0
    ensures (exists k :: 0 <= k < |registry| && registry[k].id == id && registry[k].aqi != 0
               && (forall j :: 0 <= j < k ==> registry[j].id != id) && base == registry[k].aqi)
         || (base == 100 && forall k :: 0 <= k < |registry| && registry[k].id == id ==>
               registry[k].aqi == 0 || exists j :: 0 <= j < k && registry[j].id == id)
  {
    match JsText.Find(registry, (l: LocationData) => l.id == id)
    case None => 100
    case Some(k) => if registry[k].aqi != 0 then registry[k].aqi else 100
  }

  /** Over the real registry, the baseline of a registered id is that entry's
      AQI, and of any other id it is 100. */
  lemma RegistryBaseline(loadedAt: string, id: string)
    ensures var locs := HyderabadLocations(loadedAt);
      (forall k :: 0 <= k < 5 && locs[k].id == id ==> BaseAqi(locs, id) == locs[k].aqi)
      && (id !in RegistryIds ==> BaseAqi(locs, id) == 100)
  {
    var locs := HyderabadLocations(loadedAt);
    RegistryIdsFixed(loadedAt);
    if id !in RegistryIds {
      assert forall k :: 0 <= k < 5 ==> locs[k].id != id;
    }
  }

  /** The trend `getHistoricalData` builds: 25 points, the k-th one
      (24 - k) hours before `now`, with AQI `base + jitter[k]`. */
  function Series(base: int, now: int, jitter: seq<Jitter>): (points: seq<HistoricalPoint>)
    requires |jitter| == 25
    ensures |points| == 25
    ensures points[24].time == now
    ensures forall k :: 0 <= k < 25 ==> base - 20 <= points[k].aqi <= base + 20
    ensures forall j, k :: 0 <= j < k < 25 ==> points[j].time + HourMs <= points[k].time
  {
    seq(25, k requires 0 <= k < 25 => HistoricalPoint(now - (24 - k) * HourMs, base + jitter[k]))
  }

  /** `getHistoricalData`: one point per hour, counting i down from 24 to 0,
      each `Math.random` draw supplied as `jitter` in the order drawn. */
  method GetHistoricalData(registry: seq<LocationData>, locationId: string, now: int, jitter: seq<Jitter>)
    returns (points: seq<HistoricalPoint>)
    requires |jitter| == 25
    ensures points == Series(BaseAqi(registry, locationId), now, jitter)
  {
    points := [];
    var baseAqi := BaseAqi(registry, locationId);
    var i := 24;
    while i >= 0
      invariant -1 <= i <= 24
      invariant |points| == 24 - i
      invariant forall k :: 0 <= k < |points| ==>
        points[k] == HistoricalPoint(now - (24 - k) * HourMs, baseAqi + jitter[k])
    {
      var time := now - i * HourMs;
      points := points + [HistoricalPoint(time, baseAqi + jitter[24 - i])];
      i := i - 1;
    }
  }

  /** For any id, the trend over the real registry never dips below 65: the
      code does not clamp at zero, and does not need to. */
  lemma RegistrySeriesPositive(loadedAt: string, id: string, now: int, jitter: seq<Jitter>)
    requires |jitter| == 25
    ensures forall p :: p in Series(BaseAqi(HyderabadLocations(loadedAt), id), now, jitter) ==> p.aqi >= 65
  {
    var locs := HyderabadLocations(loadedAt);
    RegistryBaseline(loadedAt, id);
    RegistryIdsFixed(loadedAt);
    assert BaseAqi(locs, id) >= 85 by {
      if id !in RegistryIds {
      } else {
        var k :| 0 <= k < 5 && RegistryIds[k] == id;
        assert locs[k].id == id;
      }
    }
  }
}
