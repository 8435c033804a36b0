/**
 * A location the user follows (models/UserLocation.kt).  Its identity is a random UUID
 * drawn when the object is built, so two locations at the same coordinates can be
 * different locations, and the display name and coordinates play no part in equality.
 * Coordinates are Kotlin Doubles; the model never computes with them and keeps them
 * as reals.
 */
module UserLocations {

  datatype UserLocation = UserLocation(id: string, latitude: real, longitude: real, displayName: string)

  /**
   * The constructor `UserLocation(latitude, longitude, displayName = "")`.  The id comes
   * from `UUID.randomUUID()`; the model receives it as `freshId`.
   */
  function NewUserLocation(freshId: string, latitude: real, longitude: real, displayName: string := ""): UserLocation {
    UserLocation(freshId, latitude, longitude, displayName)
  }

  /** `equals`: two locations are the same location exactly when their ids agree. */
  predicate SameLocation(a: UserLocation, b: UserLocation) {
    a.id == b.id
  }

  /** Signed 32-bit wrap-around of a JVM `Int`. */
  function WrapInt32(x: int): (r: int)
    ensures -0x8000_0000 <= r < 0x8000_0000
    ensures (r - x) % 0x1_0000_0000 == 0
  {
    (x + 0x8000_0000) % 0x1_0000_0000 - 0x8000_0000
  }

  /**
   * The UTF-16 code units of a string, as a JVM `String` holds them: a character above
   * U+FFFF becomes a surrogate pair.
   */
  function Utf16(s: string): (u: seq<int>)
    ensures |s| <= |u| <= 2 * |s|
  {
    if s == [] then [] else CodeUnits(s[0]) + Utf16(s[1..])
  }

  /** The code units of one character: itself below U+10000, otherwise its surrogate pair. */
  function CodeUnits(c: char): (u: seq<int>)
    ensures 1 <= |u| <= 2
    ensures forall i :: 0 <= i < |u| ==> 0 <= u[i] < 0x1_0000
  {
    var n := c as int;
    if n < 0x1_0000 then [n] else [0xD800 + (n - 0x1_0000) / 0x400, 0xDC00 + (n - 0x1_0000) % 0x400]
  }

  /** Every code unit is a 16-bit value. */
  lemma {:induction false} Utf16Units(s: string)
    ensures forall i :: 0 <= i < |Utf16(s)| ==> 0 <= Utf16(s)[i] < 0x1_0000
  {
    if s != [] {
      Utf16Units(s[1..]);
      var head := CodeUnits(s[0]);
      forall i | 0 <= i < |Utf16(s)|
        ensures 0 <= Utf16(s)[i] < 0x1_0000
      {
        if i >= |head| {
          assert Utf16(s)[i] == Utf16(s[1..])[i - |head|];
        }
      }
    }
  }

  /** h = 31 * h + unit over the code units, in 32-bit arithmetic. */
  function HashUnits(u: seq<int>): (h: int)
    ensures -0x8000_0000 <= h < 0x8000_0000
  {
    if u == [] then 0 else WrapInt32(31 * HashUnits(u[..|u| - 1]) + u[|u| - 1])
  }

  /** `String.hashCode` of the JVM, over the string's UTF-16 code units. */
  function StringHash(s: string): (h: int)
    ensures -0x8000_0000 <= h < 0x8000_0000
    ensures h == HashUnits(Utf16(s))
  {
    HashUnits(Utf16(s))
  }

  /** A string of characters from the Basic Multilingual Plane is its own code-unit sequence. */
  lemma {:induction false} Utf16OfBmp(s: string)
    requires forall i :: 0 <= i < |s| ==> (s[i] as int) < 0x1_0000
    ensures |Utf16(s)| == |s|
    ensures forall i :: 0 <= i < |s| ==> Utf16(s)[i] == s[i] as int
  {
    if s != [] {
      Utf16OfBmp(s[1..]);
    }
  }

  /** Encoding is compositional: the units of `s + t` are those of `s` followed by those of `t`. */
  lemma {:induction false} Utf16Append(s: string, t: string)
    ensures Utf16(s + t) == Utf16(s) + Utf16(t)
  {
    if s == [] {
      assert s + t == t;
    } else {
      assert (s + t)[1..] == s[1..] + t;
      Utf16Append(s[1..], t);
    }
  }

  /** Appending a character of the Basic Multilingual Plane takes one step of Java's recurrence. */
  lemma StringHashAppend(s: string, c: char)
    requires (c as int) < 0x1_0000
    ensures StringHash(s + [c]) == WrapInt32(31 * StringHash(s) + c as int)
  {
    Utf16Append(s, [c]);
    assert Utf16([c]) == [c as int] by {
      assert [c][1..] == [];
    }
    HashUnitsSnoc(Utf16(s), c as int, StringHash(s));
  }

  /** One step of the recurrence: the hash of `u + [x]` from the hash `h` of `u`. */
  lemma HashUnitsSnoc(u: seq<int>, x: int, h: int)
    requires h == HashUnits(u)
    ensures HashUnits(u + [x]) == WrapInt32(31 * h + x)
  {
    assert (u + [x])[..|u|] == u;
  }

  /** A character outside the Basic Multilingual Plane hashes as its surrogate pair: U+1F600 is 0xD83D, 0xDE00. */
  lemma SupplementaryCharacterHash()
    ensures Utf16("\U{1F600}") == [0xD83D, 0xDE00]
    ensures StringHash("\U{1F600}") == 1772899
  {
    var u := Utf16("\U{1F600}");
    assert u[..1] == [0xD83D] && [0xD83D][..0] == [];
    assert HashUnits([0xD83D]) == WrapInt32(0xD83D) == 0xD83D;
    assert HashUnits(u) == WrapInt32(31 * 0xD83D + 0xDE00) == 1772899;
  }

  /** `hashCode`: the hash of the id. */
  function HashCode(l: UserLocation): (h: int)
    ensures -0x8000_0000 <= h < 0x8000_0000
  {
    StringHash(l.id)
  }

  /** equals/hashCode agree: locations that are equal have equal hash codes. */
  lemma EqualLocationsHashEqually(a: UserLocation, b: UserLocation)
    requires SameLocation(a, b)
    ensures HashCode(a) == HashCode(b)
  {
  }

  /** Equality ignores coordinates and display name: one id, one location. */
  lemma SameIdIsSameLocation(a: UserLocation, b: UserLocation)
    ensures SameLocation(a, b) <==> a.id == b.id
    ensures SameLocation(a, b) == SameLocation(a.(latitude := b.latitude, longitude := b.longitude, displayName := b.displayName), b)
  {
  }

  /** Two locations at the same coordinates but with different ids are distinct. */
  lemma SameCoordinatesDifferentIdsDistinct(a: UserLocation, b: UserLocation)
    requires a.latitude == b.latitude && a.longitude == b.longitude && a.id != b.id
    ensures !SameLocation(a, b)
  {
  }

  /** The ids that the three default locations draw when the companion object is built. */
  datatype DefaultIds = DefaultIds(seattle: string, london: string, santorini: string)

  /**
   * `UserLocation.defaultLocations`, coordinates exactly as written in the source
   * (including Seattle's longitude of -12.3321).
   */
  function DefaultLocations(ids: DefaultIds): (r: seq<UserLocation>)
    ensures |r| == 3
    ensures r[0].id == ids.seattle && r[1].id == ids.london && r[2].id == ids.santorini
  {
    [ NewUserLocation(ids.seattle, 47.6062, -12.3321, "Seattle, USA"),
      NewUserLocation(ids.london, 51.5074, -0.1278, "London, England"),
      NewUserLocation(ids.santorini, 36.3932, 25.4615, "Santorini, Greece") ]
  }

  function DisplayNames(s: seq<UserLocation>): (r: seq<string>)
    ensures |r| == |s| && forall i :: 0 <= i < |s| ==> r[i] == s[i].displayName
  {
    if s == [] then [] else [s[0].displayName] + DisplayNames(s[1..])
  }

  /** The defaults are Seattle, London and Santorini, in that order. */
  lemma DefaultLocationsInOrder(ids: DefaultIds)
    ensures DisplayNames(DefaultLocations(ids)) == ["Seattle, USA", "London, England", "Santorini, Greece"]
  {
  }

  /** The display name is empty unless the caller gives one. */
  lemma DisplayNameDefaultsToEmpty(freshId: string, latitude: real, longitude: real)
    ensures NewUserLocation(freshId, latitude, longitude).displayName == ""
  {
  }
}
