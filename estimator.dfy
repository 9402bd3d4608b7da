/**
 * The cost estimator of the pickup page (js/action.js): the three closure variables
 * `selectedLocation`, `userLocation` and `estimatedCost`, and the linear cost formula
 * Rp 5000 + Rp 2000 per km + Rp 1000 per kg.
 */
module Estimator {
  import opened Common
  import opened Directory
  import Storage
  import Auth

  /** A geolocated user position. */
  datatype Position = Position(lat: real, lng: real)

  const BaseFee: int := 5000
  const PerKmRate: int := 2000
  const PerKgRate: int := 1000

  /** `Math.round`: the nearest integer, halves rounded up. */
  function Round(x: real): (r: int)
    ensures (r as real) - 0.5 <= x < (r as real) + 0.5
  {
    (x + 0.5).Floor
  }

  /**
   * The value `calculateCost` stores in `estimatedCost`. `distance` is the great-circle
   * distance from the user's position to the selected site; it is used only when a user
   * position is known, otherwise the distance term is 0.
   */
  function Estimate(selected: Option<Location>, user: Option<Position>, weight: real, distance: real): (cost: Option<int>)
    ensures cost.Some? <==> selected.Some? && weight > 0.0
    ensures cost.Some? ==>
      var exact := BaseFee as real + PerKmRate as real * (if user.Some? then distance else 0.0) + PerKgRate as real * weight;
      (cost.value as real) - 0.5 <= exact < (cost.value as real) + 0.5
  {
    if selected.None? || weight <= 0.0 then None
    else
      var d := if user.Some? then distance else 0.0;
      Some(Round(BaseFee as real + d * PerKmRate as real + weight * PerKgRate as real))
  }

  /** Without a user position an integer weight gives exactly 5000 + 1000 per kg. */
  lemma EstimateWithoutPosition(loc: Location, w: int, distance: real)
    requires w >= 1
    ensures Estimate(Some(loc), None, w as real, distance) == Some(BaseFee + PerKgRate * w)
  {
  }

  /** More weight or a longer distance never lowers the estimate, which is at least the base fee. */
  lemma EstimateMonotone(loc: Location, user: Option<Position>, w1: real, w2: real, d1: real, d2: real)
    requires 0.0 < w1 <= w2 && 0.0 <= d1 <= d2
    ensures Estimate(Some(loc), user, w1, d1).Some? && Estimate(Some(loc), user, w2, d2).Some?
    ensures BaseFee <= Estimate(Some(loc), user, w1, d1).value <= Estimate(Some(loc), user, w2, d2).value
  {
    var d1' := if user.Some? then d1 else 0.0;
    var d2' := if user.Some? then d2 else 0.0;
    var x1 := BaseFee as real + d1' * PerKmRate as real + w1 * PerKgRate as real;
    var x2 := BaseFee as real + d2' * PerKmRate as real + w2 * PerKgRate as real;
    assert BaseFee as real <= x1 <= x2;
    RoundMonotone(BaseFee as real, x1);
    RoundMonotone(x1, x2);
  }

  lemma RoundMonotone(x: real, y: real)
    requires x <= y
    ensures Round(x) <= Round(y)
  {
  }

  /** `checkLoginStatus`: the page proceeds exactly when a session is stored. */
  function CheckLoginStatus(session: Slot<Storage.User>): (ok: bool)
    ensures ok == Auth.IsLoggedIn(session)
    ensures ok <==> !session.Empty?
  {
    Auth.IsLoggedIn(session)
  }

  /** The closure state of js/action.js. */
  class CostEstimator {
    var selectedLocation: Option<Location>
    var userLocation: Option<Position>
    var estimatedCost: Option<int>

    constructor ()
      ensures selectedLocation == None && userLocation == None && estimatedCost == None
    {
      selectedLocation, userLocation, estimatedCost := None, None, None;
    }

    /** `window.getSelectedLocation`. */
    function GetSelectedLocation(): Option<Location>
      reads this
    {
      selectedLocation
    }

    /** `window.getEstimatedCost`. */
    function GetEstimatedCost(): Option<int>
      reads this
    {
      estimatedCost
    }

    /**
     * `calculateCost`: recompute `estimatedCost` from the weight field (empty counts as 0),
     * the selection and the user position; nothing else changes.
     */
    method CalculateCost(weight: Option<real>, distance: real)
      requires distance >= 0.0
      modifies this
      ensures selectedLocation == old(selectedLocation) && userLocation == old(userLocation)
      ensures estimatedCost == Estimate(selectedLocation, userLocation, FieldNumber(weight), distance)
      ensures estimatedCost.None? <==> selectedLocation.None? || FieldNumber(weight) <= 0.0
    {
      var w := FieldNumber(weight);
      if selectedLocation.None? || w <= 0.0 {
        estimatedCost := None;
        return;
      }
      var d := 0.0;
      if userLocation.Some? {
        d := distance;
      }
      var total := BaseFee as real + d * PerKmRate as real + w * PerKgRate as real;
      estimatedCost := Some(Round(total));
    }

    /** `window.selectLocation`: store the location, then recompute the cost. */
    method SelectLocation(loc: Location, weight: Option<real>, distance: real)
      requires distance >= 0.0
      modifies this
      ensures GetSelectedLocation() == Some(loc) && userLocation == old(userLocation)
      ensures GetEstimatedCost() == Estimate(Some(loc), userLocation, FieldNumber(weight), distance)
    {
      selectedLocation := Some(loc);
      CalculateCost(weight, distance);
    }

    /** `window.updateUserLocation`: store the position, then recompute the cost. */
    method UpdateUserLocation(pos: Option<Position>, weight: Option<real>, distance: real)
      requires distance >= 0.0
      modifies this
      ensures userLocation == pos && selectedLocation == old(selectedLocation)
      ensures estimatedCost == Estimate(selectedLocation, pos, FieldNumber(weight), distance)
    {
      userLocation := pos;
      CalculateCost(weight, distance);
    }
  }
}
