/**
 * The location picker modal of the pickup form (js/map-modal.js): its marker list, the
 * fallback location table, the category filter, marker styling and the selection that is
 * handed on to the cost estimator.
 */
module MapModal {
  import opened Common
  import opened Directory
  import Estimator

  /** `getDefaultLocations`: the fallback table of eight sites. */
  function DefaultLocations(): (ls: seq<Location>)
    ensures |ls| == 8
    ensures forall i :: 0 <= i < |ls| ==> ls[i].id == i + 1
  {
    [ Location(1, "Bank Sampah Sejahtera - Jakarta Pusat", "Jl. Merdeka No. 10, Jakarta", -6.1754, 106.8272, "plastik"),
      Location(2, "Drop-off Elektronik SCBD", "Sudirman Central Business District, Jakarta Selatan", -6.2247, 106.8077, "elektronik"),
      Location(3, "Pusat Daur Ulang Kertas Thamrin", "Jl. Thamrin No. 5, Jakarta", -6.1889, 106.8231, "organik"),
      Location(4, "Bandung Eco-Center", "Jl. Dago No. 150, Bandung", -6.8915, 107.6107, "organik"),
      Location(5, "Tangsel Waste Hub", "BSD City, Tangerang Selatan", -6.3032, 106.6668, "plastik"),
      Location(6, "Semarang Recycle Point", "Jl. Pemuda No. 1, Semarang", -6.9702, 110.4178, "elektronik"),
      Location(7, "Yogyakarta Green Project", "Kawasan Malioboro, Yogyakarta", -7.7956, 110.3695, "plastik"),
      Location(8, "Surabaya Zero Waste", "Jl. Tunjungan No. 12, Surabaya", -7.2575, 112.7521, "organik") ]
  }

  /** The fallback table is exactly the first eight entries of the map page's table. */
  lemma DefaultsArePrefixOfAllLocations()
    ensures DefaultLocations() == AllLocations()[..8]
    ensures DistinctIds(DefaultLocations())
  {
    AllLocationsDistinctIds();
  }

  /**
   * The list the modal renders: `window.allLocations || []`, replaced by the fallback table
   * when empty. `global` is `window.allLocations` (None when the global is unset).
   */
  function ModalLocations(global: Option<seq<Location>>): (ls: seq<Location>)
    ensures |ls| > 0
    ensures global.Some? && |global.value| > 0 ==> ls == global.value
    ensures global.None? || |global.value| == 0 ==> ls == DefaultLocations()
  {
    var ls := if global.Some? then global.value else [];
    if |ls| == 0 then DefaultLocations() else ls
  }

  /** `capitalizeFirst`'s `toUpperCase` on one character (ASCII letters only). */
  function UpperChar(c: char): char
  {
    if 'a' <= c <= 'z' then (c as int - 32) as char else c
  }

  /** `capitalizeFirst`: upper-case the first character and keep the rest. */
  function CapitalizeFirst(s: string): (r: string)
    ensures |r| == |s|
    ensures |s| > 0 ==> r[0] == UpperChar(s[0]) && r[1..] == s[1..]
  {
    if |s| == 0 then "" else [UpperChar(s[0])] + s[1..]
  }

  /** Capitalising twice is the same as capitalising once. */
  lemma CapitalizeFirstIdempotent(s: string)
    ensures CapitalizeFirst(CapitalizeFirst(s)) == CapitalizeFirst(s)
  {
  }

  /** Colour and glyph of a marker icon. */
  datatype MarkerStyle = MarkerStyle(color: string, icon: string)

  const TrashIcon: string := "\U{1F5D1}\U{FE0F}"
  const PlasticIcon: string := "\U{1F9F4}"
  const ElectronicIcon: string := "\U{1F4BB}"
  const OrganicIcon: string := "\U{1F96C}"

  /** `createMarkerIcon`'s choice of colour and glyph by category. */
  function MarkerStyleFor(wasteType: string): (s: MarkerStyle)
    ensures !KnownCategory(wasteType) ==> s == MarkerStyle("#14a085", TrashIcon)
    ensures KnownCategory(wasteType) ==> s.color != "#14a085" && s.icon != TrashIcon
    ensures wasteType == "plastik" ==> s == MarkerStyle("#3498db", PlasticIcon)
    ensures wasteType == "elektronik" ==> s == MarkerStyle("#e74c3c", ElectronicIcon)
    ensures wasteType == "organik" ==> s == MarkerStyle("#2ecc71", OrganicIcon)
  {
    if wasteType == "plastik" then MarkerStyle("#3498db", PlasticIcon)
    else if wasteType == "elektronik" then MarkerStyle("#e74c3c", ElectronicIcon)
    else if wasteType == "organik" then MarkerStyle("#2ecc71", OrganicIcon)
    else MarkerStyle("#14a085", TrashIcon)
  }

  /** Each known category gets its own colour. */
  lemma MarkerColorsDistinct(a: string, b: string)
    requires KnownCategory(a) && KnownCategory(b) && a != b
    ensures MarkerStyleFor(a).color != MarkerStyleFor(b).color
  {
  }

  /**
   * `mapModalMarkers.find(m => m.data.id === id)`: the first marker whose location has the
   * given id, or None.
   */
  method FindMarkerById(ms: seq<Marker>, id: int) returns (found: Option<Marker>)
    ensures found.None? <==> forall i :: 0 <= i < |ms| ==> ms[i].data.id != id
    ensures found.Some? ==> exists i :: 0 <= i < |ms| && ms[i] == found.value && ms[i].data.id == id
                                        && forall j :: 0 <= j < i ==> ms[j].data.id != id
  {
    var i := 0;
    while i < |ms|
      invariant 0 <= i <= |ms|
      invariant forall j :: 0 <= j < i ==> ms[j].data.id != id
    {
      if ms[i].data.id == id {
        return Some(ms[i]);
      }
      i := i + 1;
    }
    return None;
  }

  /** The modal's state: its markers, whether its Leaflet map exists, and its selection. */
  class LocationModal {
    var markers: seq<Marker>
    var mapReady: bool
    var selected: Option<Location>

    constructor ()
      ensures markers == [] && !mapReady && selected == None
    {
      markers := [];
      mapReady := false;
      selected := None;
    }

    /**
     * `renderLocationsInModal`: without the list container or the map it does nothing;
     * otherwise it rebuilds the markers from `window.allLocations` or the fallback table.
     */
    method RenderLocations(global: Option<seq<Location>>, hasContainer: bool)
      modifies this
      ensures mapReady == old(mapReady) && selected == old(selected)
      ensures markers == if hasContainer && mapReady then MarkersFor(ModalLocations(global)) else old(markers)
    {
      if !hasContainer || !mapReady {
        return;
      }
      var ls := ModalLocations(global);
      markers := [];
      var i := 0;
      while i < |ls|
        invariant 0 <= i <= |ls|
        invariant markers == MarkersFor(ls[..i])
        invariant mapReady == old(mapReady) && selected == old(selected)
      {
        markers := markers + [Marker(ls[i].wasteType, ls[i], true)];
        i := i + 1;
      }
      assert ls[..i] == ls;
    }

    /**
     * `initMapInModal`: needs Leaflet and the map container; creates the map and renders
     * the locations.
     */
    method InitMap(leafletLoaded: bool, hasMapContainer: bool, global: Option<seq<Location>>, hasListContainer: bool)
      modifies this
      ensures selected == old(selected)
      ensures mapReady == (old(mapReady) || (leafletLoaded && hasMapContainer))
      ensures markers == if leafletLoaded && hasMapContainer && hasListContainer
                         then MarkersFor(ModalLocations(global)) else old(markers)
    {
      if !leafletLoaded || !hasMapContainer {
        return;
      }
      mapReady := true;
      RenderLocations(global, hasListContainer);
    }

    /** `filterLocationsInModal`: add or remove each marker's layer. */
    method FilterLocations(filter: string)
      modifies this
      ensures mapReady == old(mapReady) && selected == old(selected)
      ensures markers == Filtered(old(markers), filter)
    {
      var i := 0;
      while i < |markers|
        invariant 0 <= i <= |markers| == |old(markers)|
        invariant markers[..i] == Filtered(old(markers)[..i], filter)
        invariant markers[i..] == old(markers)[i..]
        invariant mapReady == old(mapReady) && selected == old(selected)
      {
        var m := markers[i];
        markers := markers[i := m.(onMap := Shown(filter, m.wasteType))];
        i := i + 1;
      }
      assert old(markers)[..i] == old(markers);
    }

    /**
     * `selectLocationInModal`: remember the location and look up its marker (whose popup is
     * opened), returned as `popup`.
     */
    method SelectLocation(location: Location) returns (popup: Option<Marker>)
      modifies this
      ensures selected == Some(location)
      ensures markers == old(markers) && mapReady == old(mapReady)
      ensures popup.None? <==> forall i :: 0 <= i < |markers| ==> markers[i].data.id != location.id
      ensures popup.Some? ==> exists i :: 0 <= i < |markers| && markers[i] == popup.value
                                && markers[i].data.id == location.id
                                && forall j :: 0 <= j < i ==> markers[j].data.id != location.id
    {
      selected := Some(location);
      popup := FindMarkerById(markers, location.id);
    }
  }

  /**
   * `updateFormWithSelectedLocation` (run by the selection's timer): when the form's
   * location box exists, hand the location to the cost estimator through `selectLocation`.
   */
  method UpdateFormWithSelectedLocation(location: Location, hasDisplayBox: bool,
                                        estimator: Estimator.CostEstimator,
                                        weight: Option<real>, distance: real)
    requires distance >= 0.0
    modifies estimator
    ensures estimator.userLocation == old(estimator.userLocation)
    ensures hasDisplayBox ==>
      (estimator.selectedLocation == Some(location)
       && estimator.estimatedCost == Estimator.Estimate(Some(location), estimator.userLocation, FieldNumber(weight), distance))
    ensures !hasDisplayBox ==>
      (estimator.selectedLocation == old(estimator.selectedLocation)
       && estimator.estimatedCost == old(estimator.estimatedCost))
  {
    if !hasDisplayBox {
      return;
    }
    estimator.SelectLocation(location, weight, distance);
  }
}
