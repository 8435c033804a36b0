/**
 * A favourite city of the older Android client (android/.../models/FavoriteCity.kt):
 * a document with coordinates, a display name and a "current location" flag, all of
 * which `setLocation` overwrites before notifying observers.  The notification posts the
 * current date; the model records each posted date in `changeNotices`.
 */
module FavoriteCities {
  import opened Common

  /** The "%.5f,%.5f" rendering of a pair of coordinates, kept abstract. */
  type CoordinateFormat = (real, real) -> string

  /** The parts of `android.location.Location` that `setLocation` reads. */
  datatype Location = Location(latitude: real, longitude: real)

  /** The parts of `android.location.Address` that `setLocation` reads; its getters may return null. */
  datatype Address = Address(latitude: real, longitude: real, countryCode: Option<string>,
                             locality: Option<string>, countryName: Option<string>)

  /** A nullable string inside a Kotlin string template. */
  function Template(s: Option<string>): string {
    match s
    case Some(v) => v
    case None => "null"
  }

  /** The display name `setLocation(address)` chooses. */
  function AddressDisplayName(address: Address): string {
    if address.countryCode == Some("US") then Template(address.locality) + ", USA"
    else Template(address.locality) + ", " + Template(address.countryName)
  }

  /** A US address is named "<locality>, USA" and any other address "<locality>, <country>". */
  lemma AddressDisplayNameRule(address: Address)
    ensures address.countryCode == Some("US") ==> AddressDisplayName(address) == Template(address.locality) + ", USA"
    ensures address.countryCode != Some("US") ==>
      AddressDisplayName(address) == Template(address.locality) + ", " + Template(address.countryName)
    ensures AddressDisplayName(address)[..|Template(address.locality)| + 2] == Template(address.locality) + ", "
  {
  }

  /** The country name plays no part in the name of a US address. */
  lemma USNameIgnoresCountryName(address: Address, countryName: Option<string>)
    requires address.countryCode == Some("US")
    ensures AddressDisplayName(address.(countryName := countryName)) == AddressDisplayName(address)
  {
  }

  /** The JSON-visible fields of a city, as the mapper writes and reads them. */
  datatype CityRecord = CityRecord(id: Option<string>, userid: string, latitude: real, longitude: real, displayName: string)

  class FavoriteCity {
    var id: Option<string>
    var userid: string
    var latitude: real
    var longitude: real
    var displayName: string
    var isCurrentLocation: bool
    /** The dates posted to `dataHasChanged`, oldest first. */
    var changeNotices: seq<int>

    /** The primary constructor `FavoriteCity(id: String? = null)`. */
    constructor (id: Option<string> := None)
      ensures this.id == id && userid == "" && latitude == 0.0 && longitude == 0.0
      ensures displayName == "" && !isCurrentLocation && changeNotices == []
    {
      this.id := id;
      userid := "";
      latitude := 0.0;
      longitude := 0.0;
      displayName := "";
      isCurrentLocation := false;
      changeNotices := [];
    }

    /** The secondary constructor `FavoriteCity(latitude, longitude, displayName)`. */
    constructor WithCoordinates(latitude: real := 0.0, longitude: real := 0.0, displayName: string := "")
      ensures id == None && userid == "" && !isCurrentLocation && changeNotices == []
      ensures this.latitude == latitude && this.longitude == longitude && this.displayName == displayName
    {
      id := None;
      userid := "";
      isCurrentLocation := false;
      changeNotices := [];
      this.latitude := latitude;
      this.longitude := longitude;
      this.displayName := displayName;
    }

    /** `setLocation(location, name, isActive = false)`. */
    method SetLocation(location: Location, name: string, now: int, isActive: bool := false)
      modifies this
      ensures latitude == location.latitude && longitude == location.longitude
      ensures displayName == name && isCurrentLocation == isActive
      ensures changeNotices == old(changeNotices) + [now]
      ensures id == old(id) && userid == old(userid)
    {
      latitude := location.latitude;
      longitude := location.longitude;
      displayName := name;
      isCurrentLocation := isActive;
      NotifyDataHasChanged(now);
    }

    /** `setLocation(address, isActive = false)`, with the name taken from the address. */
    method SetLocationFromAddress(address: Address, now: int, isActive: bool := false)
      modifies this
      ensures latitude == address.latitude && longitude == address.longitude
      ensures displayName == AddressDisplayName(address) && isCurrentLocation == isActive
      ensures changeNotices == old(changeNotices) + [now]
      ensures id == old(id) && userid == old(userid)
    {
      latitude := address.latitude;
      longitude := address.longitude;
      displayName := AddressDisplayName(address);
      isCurrentLocation := isActive;
      NotifyDataHasChanged(now);
    }

    /** `notifyDataHasChanged`: posts the current date. */
    method NotifyDataHasChanged(now: int)
      modifies this`changeNotices
      ensures changeNotices == old(changeNotices) + [now]
    {
      changeNotices := changeNotices + [now];
    }

    /** `toLocationString`: the key of a city depends on its coordinates only. */
    function ToLocationString(format: CoordinateFormat): string
      reads this
    {
      format(latitude, longitude)
    }

    /** What the JSON mapper sees of this city. */
    function Record(): CityRecord
      reads this
    {
      CityRecord(id, userid, latitude, longitude, displayName)
    }
  }

  /** The display name and the current-location flag never affect a city's key. */
  lemma LocationStringIgnoresName(a: FavoriteCity, b: FavoriteCity, format: CoordinateFormat)
    requires a.latitude == b.latitude && a.longitude == b.longitude
    ensures a.ToLocationString(format) == b.ToLocationString(format)
  {
  }
}
