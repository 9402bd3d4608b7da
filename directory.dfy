/**
 * The location directory of the map page (js/map.js): the static table of drop-off sites,
 * the marker list rebuilt from a list of locations, and the category filter.
 */
module Directory {

  /** A drop-off site. The source's `type` field is `wasteType` here. */
  datatype Location = Location(id: int, name: string, address: string, lat: real, lng: real, wasteType: string)

  /** The three categories the static tables use. */
  predicate KnownCategory(t: string)
  {
    t == "plastik" || t == "elektronik" || t == "organik"
  }

  /** The `allLocations` table: sixteen sites across Indonesia. */
  function AllLocations(): (ls: seq<Location>)
    ensures |ls| == 16
    ensures forall i :: 0 <= i < |ls| ==> ls[i].id == i + 1 && KnownCategory(ls[i].wasteType)
  {
    [ Location(1, "Bank Sampah Sejahtera - Jakarta Pusat", "Jl. Merdeka No. 10, Jakarta", -6.1754, 106.8272, "plastik"),
      Location(2, "Drop-off Elektronik SCBD", "Sudirman Central Business District, Jakarta Selatan", -6.2247, 106.8077, "elektronik"),
      Location(3, "Pusat Daur Ulang Kertas Thamrin", "Jl. Thamrin No. 5, Jakarta", -6.1889, 106.8231, "organik"),
      Location(4, "Bandung Eco-Center", "Jl. Dago No. 150, Bandung", -6.8915, 107.6107, "organik"),
      Location(5, "Tangsel Waste Hub", "BSD City, Tangerang Selatan", -6.3032, 106.6668, "plastik"),
      Location(6, "Semarang Recycle Point", "Jl. Pemuda No. 1, Semarang", -6.9702, 110.4178, "elektronik"),
      Location(7, "Yogyakarta Green Project", "Kawasan Malioboro, Yogyakarta", -7.7956, 110.3695, "plastik"),
      Location(8, "Surabaya Zero Waste", "Jl. Tunjungan No. 12, Surabaya", -7.2575, 112.7521, "organik"),
      Location(9, "Medan Eco-Recycle", "Jl. Gatot Subroto, Medan", 3.5952, 98.6722, "plastik"),
      Location(10, "Palembang Waste Solution", "Kawasan Ampera, Palembang", -2.9761, 104.7754, "elektronik"),
      Location(11, "Balikpapan Green Point", "Jl. Jenderal Sudirman, Balikpapan", -1.2654, 116.8312, "plastik"),
      Location(12, "Pontianak Recycle Center", "Jl. Gajah Mada, Pontianak", -0.0263, 109.3425, "organik"),
      Location(13, "Makassar Waste Hub", "Pantai Losari, Makassar", -5.1476, 119.4327, "plastik"),
      Location(14, "Manado Eco-Logic", "Kawasan Megamas, Manado", 1.4748, 124.8420, "elektronik"),
      Location(15, "Bali Eco-Point", "Jl. Bypass Ngurah Rai, Denpasar", -8.6705, 115.2126, "plastik"),
      Location(16, "Jayapura Recycle Station", "Kawasan Ruko Pasifik Permai, Jayapura", -2.5411, 140.7100, "plastik") ]
  }

  /** Ids in a location list are pairwise distinct. */
  predicate DistinctIds(ls: seq<Location>)
  {
    forall i, j :: 0 <= i < j < |ls| ==> ls[i].id != ls[j].id
  }

  /** The ids of `allLocations` are distinct (they run 1..16 in order). */
  lemma AllLocationsDistinctIds()
    ensures DistinctIds(AllLocations())
  {
    var ls := AllLocations();
    forall i, j | 0 <= i < j < |ls| ensures ls[i].id != ls[j].id {
      assert ls[i].id == i + 1 && ls[j].id == j + 1;
    }
  }

  /**
   * An entry of a marker list: `{ marker, type, data }`. `onMap` says whether the Leaflet
   * marker is currently a layer of the map (markers are added to the map when created).
   */
  datatype Marker = Marker(wasteType: string, data: Location, onMap: bool)

  /** The visibility rule of the category filter: `'all'` or an exact category match. */
  predicate Shown(filter: string, wasteType: string)
  {
    filter == "all" || filter == wasteType
  }

  /** The marker list that rendering `ls` produces: one on-map entry per location, in order. */
  function MarkersFor(ls: seq<Location>): (ms: seq<Marker>)
    ensures |ms| == |ls|
    ensures forall i :: 0 <= i < |ls| ==> ms[i].data == ls[i] && ms[i].wasteType == ls[i].wasteType && ms[i].onMap
  {
    seq(|ls|, i requires 0 <= i < |ls| => Marker(ls[i].wasteType, ls[i], true))
  }

  /** The marker list after the filter `filter` has added or removed every marker's layer. */
  function Filtered(ms: seq<Marker>, filter: string): (r: seq<Marker>)
    ensures |r| == |ms|
    ensures forall i :: 0 <= i < |ms| ==> r[i] == ms[i].(onMap := Shown(filter, ms[i].wasteType))
  {
    seq(|ms|, i requires 0 <= i < |ms| => ms[i].(onMap := Shown(filter, ms[i].wasteType)))
  }

  /** Filtering with `'all'` puts every marker on the map. */
  lemma FilterAllShowsEverything(ms: seq<Marker>)
    ensures forall i :: 0 <= i < |ms| ==> Filtered(ms, "all")[i].onMap
  {
  }

  /**
   * Filtering with any other value keeps exactly the markers of that category on the map,
   * and changes nothing but visibility.
   */
  lemma FilterCategoryShowsExactlyThatCategory(ms: seq<Marker>, f: string)
    requires f != "all"
    ensures forall i :: 0 <= i < |ms| ==>
      (Filtered(ms, f)[i].onMap <==> ms[i].wasteType == f)
      && Filtered(ms, f)[i].data == ms[i].data
  {
  }

  /** Only the last filter applied matters: a filter overrides every earlier one. */
  lemma FilterLastWins(ms: seq<Marker>, f: string, g: string)
    ensures Filtered(Filtered(ms, f), g) == Filtered(ms, g)
  {
    var a, b := Filtered(Filtered(ms, f), g), Filtered(ms, g);
    assert |a| == |b|;
    forall i | 0 <= i < |a| ensures a[i] == b[i] {
      assert Filtered(ms, f)[i].wasteType == ms[i].wasteType;
    }
  }

  /** The map page: its `markers` array. */
  class MapView {
    var markers: seq<Marker>

    constructor ()
      ensures markers == []
    {
      markers := [];
    }

    /**
     * `renderLocations`: when the list element is present, drop the old markers and push one
     * new marker per location, in order; otherwise return at once.
     */
    method RenderLocations(ls: seq<Location>, hasListElement: bool)
      modifies this
      ensures markers == if hasListElement then MarkersFor(ls) else old(markers)
    {
      if !hasListElement {
        return;
      }
      markers := [];
      var i := 0;
      while i < |ls|
        invariant 0 <= i <= |ls|
        invariant markers == MarkersFor(ls[..i])
      {
        markers := markers + [Marker(ls[i].wasteType, ls[i], true)];
        i := i + 1;
      }
      assert ls[..i] == ls;
    }

    /** The filter buttons' click handler: add or remove each marker's layer. */
    method ApplyFilter(filter: string)
      modifies this
      ensures markers == Filtered(old(markers), filter)
    {
      var i := 0;
      while i < |markers|
        invariant 0 <= i <= |markers| == |old(markers)|
        invariant markers[..i] == Filtered(old(markers)[..i], filter)
        invariant markers[i..] == old(markers)[i..]
      {
        var m := markers[i];
        markers := markers[i := m.(onMap := Shown(filter, m.wasteType))];
        i := i + 1;
      }
      assert old(markers)[..i] == old(markers);
    }
  }
}
