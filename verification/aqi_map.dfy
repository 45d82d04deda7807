/** The abstract map of the registry (components/AQIMap.tsx): one marker per
    registry entry, coloured by its AQI band and highlighted when selected. */
module AQIMap {
  import opened Types
  import MockData

  /** The dot colours of the six bands, mildest first. */
  const BandColors: seq<string> := ["#22c55e", "#eab308", "#f97316", "#ef4444", "#a855f7", "#7f1d1d"]

  /** `getAqiColor`: the colour of the band the AQI falls in. */
  function GetAqiColor(aqi: int): (color: string)
    ensures color == BandColors[CutsExceeded(BandCuts, aqi)]
  {
    BandIndex(aqi);
    if aqi <= 50 then "#22c55e"
    else if aqi <= 100 then "#eab308"
    else if aqi <= 150 then "#f97316"
    else if aqi <= 200 then "#ef4444"
    else if aqi <= 300 then "#a855f7"
    else "#7f1d1d"
  }

  /** The six band colours are different, so a dot's colour tells its band. */
  lemma BandColorsDistinct()
    ensures |BandColors| == 6
    ensures forall i, j :: 0 <= i < j < 6 ==> BandColors[i] != BandColors[j]
  {
  }

  /** A `<MapMarker>`: the registry index it shows and the id it compares
      `selectedId` with. */
  datatype Marker = Marker(index: nat, id: string)

  /** The five markers, in the order they are written. */
  const Markers: seq<Marker> := [
    Marker(0, "gachibowli"),
    Marker(1, "banjara-hills"),
    Marker(2, "charminar"),
    Marker(3, "secunderabad"),
    Marker(4, "kukatpally")
  ]

  /** `isSelected={selectedId === '<id>'}`. */
  predicate IsSelected(m: Marker, selectedId: string)
  {
    selectedId == m.id
  }

  /** What `onClick` hands to `onSelect`: `HYDERABAD_LOCATIONS[index]`. */
  function ClickTarget(m: Marker, registry: seq<LocationData>): LocationData
    requires m.index < |registry|
  {
    registry[m.index]
  }

  /** The colour of a marker's dot. */
  function MarkerColor(m: Marker, registry: seq<LocationData>): (color: string)
    requires m.index < |registry|
    ensures color == BandColors[CutsExceeded(BandCuts, registry[m.index].aqi)]
  {
    GetAqiColor(registry[m.index].aqi)
  }

  /** Marker i shows registry entry i, compares against that entry's id, and
      clicking it selects that entry; so it is highlighted exactly when the
      selected location is entry i. */
  lemma MarkersMatchRegistry(loadedAt: string)
    ensures |Markers| == |MockData.HyderabadLocations(loadedAt)|
    ensures forall i :: 0 <= i < |Markers| ==>
      var registry := MockData.HyderabadLocations(loadedAt);
      && Markers[i].index == i
      && Markers[i].id == registry[i].id
      && ClickTarget(Markers[i], registry) == registry[i]
      && (forall selectedId :: IsSelected(Markers[i], selectedId) <==> selectedId == registry[i].id)
  {
    MockData.RegistryIdsFixed(loadedAt);
  }

  /** No two markers are highlighted at once. */
  lemma AtMostOneSelected(selectedId: string)
    ensures forall i, j :: 0 <= i < j < |Markers| ==>
      !(IsSelected(Markers[i], selectedId) && IsSelected(Markers[j], selectedId))
  {
  }
}
