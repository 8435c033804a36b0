/**
 * The favourites repository of the older Android client
 * (android/.../repositories/FavoritesRepository.kt).  Cities are identified by their
 * location string; the list is published through LiveData that has no value until the
 * first load completes, and every change writes the whole list, as JSON, into one cloud
 * document per user in the collection "tempCollection" of database "fakeDB".
 */
module FavoritesRepositories {
  import opened Common
  import opened FavoriteCities

  const DatabaseId := "fakeDB"
  const CollectionId := "tempCollection"

  /** The stored document: `FavoriteCityList(id = userid, userid = userid, cityListJson = json)`. */
  datatype FavoriteCityList = FavoriteCityList(id: string, userid: string, cityListJson: string)

  /**
   * The document collection "tempCollection" of "fakeDB", by document id.  The SDK calls
   * complete with callbacks the repository ignores, so a failing call simply leaves the
   * collection as it was.
   */
  class DocumentCollection {
    var documents: map<string, FavoriteCityList>

    constructor (initial: map<string, FavoriteCityList>)
      ensures documents == initial
    {
      documents := initial;
    }

    /** `AzureData.deleteDocument`. */
    method DeleteDocument(documentId: string, fails: bool)
      modifies this
      ensures documents == if fails then old(documents) else old(documents) - {documentId}
    {
      if !fails {
        documents := documents - {documentId};
      }
    }

    /** `AzureData.createOrUpdateDocument`. */
    method CreateOrUpdateDocument(document: FavoriteCityList, fails: bool)
      modifies this
      ensures documents == if fails then old(documents) else old(documents)[document.id := document]
    {
      if !fails {
        documents := documents[document.id := document];
      }
    }
  }

  /**
   * `s.filter { key(c) == key }` when `same`, and `s.filter { key(c) != key }` otherwise,
   * where `key(c)` is the city's location string.
   */
  function FilterByKey(s: seq<FavoriteCity>, key: string, same: bool, format: CoordinateFormat): (r: seq<FavoriteCity>)
    reads s
    ensures |r| <= |s|
  {
    if s == [] then []
    else if (s[0].ToLocationString(format) == key) == same then [s[0]] + FilterByKey(s[1..], key, same, format)
    else FilterByKey(s[1..], key, same, format)
  }

  /** The filter keeps exactly the cities whose key test comes out as `same`. */
  lemma {:induction false} FilterByKeyMembers(s: seq<FavoriteCity>, key: string, same: bool, format: CoordinateFormat)
    ensures forall c :: c in FilterByKey(s, key, same, format) ==> c in s && (c.ToLocationString(format) == key) == same
    ensures forall c :: c in s && (c.ToLocationString(format) == key) == same ==> c in FilterByKey(s, key, same, format)
  {
    if s != [] {
      FilterByKeyMembers(s[1..], key, same, format);
      assert forall c :: c in s ==> c == s[0] || c in s[1..];
    }
  }

  /** Filtering distributes over concatenation: the cities that remain keep their order. */
  lemma {:induction false} FilterByKeyAppend(s: seq<FavoriteCity>, t: seq<FavoriteCity>, key: string, same: bool, format: CoordinateFormat)
    ensures FilterByKey(s + t, key, same, format) == FilterByKey(s, key, same, format) + FilterByKey(t, key, same, format)
  {
    if s == [] {
      assert s + t == t;
    } else {
      assert (s + t)[1..] == s[1..] + t;
      FilterByKeyAppend(s[1..], t, key, same, format);
    }
  }

  /** The cities with the key and those without it split the list. */
  lemma {:induction false} FilterByKeyPartition(s: seq<FavoriteCity>, key: string, format: CoordinateFormat)
    ensures |FilterByKey(s, key, true, format)| + |FilterByKey(s, key, false, format)| == |s|
  {
    if s != [] {
      FilterByKeyPartition(s[1..], key, format);
    }
  }

  /** Some city of `s` has location string `key`. */
  predicate HasKey(s: seq<FavoriteCity>, key: string, format: CoordinateFormat)
    reads s
  {
    exists i :: 0 <= i < |s| && s[i].ToLocationString(format) == key
  }

  /** A list has a city with the key exactly when filtering for the key keeps something. */
  lemma HasKeyIffSelected(s: seq<FavoriteCity>, key: string, format: CoordinateFormat)
    ensures HasKey(s, key, format) <==> |FilterByKey(s, key, true, format)| > 0
  {
    FilterByKeyMembers(s, key, true, format);
    if HasKey(s, key, format) {
      var i :| 0 <= i < |s| && s[i].ToLocationString(format) == key;
      assert s[i] in FilterByKey(s, key, true, format);
    }
    if |FilterByKey(s, key, true, format)| > 0 {
      var c := FilterByKey(s, key, true, format)[0];
      assert c in s;
      var i :| 0 <= i < |s| && s[i] == c;
    }
  }

  /** After filtering a key out, no city with that key is left. */
  lemma FilteredOutKeyIsGone(s: seq<FavoriteCity>, key: string, format: CoordinateFormat)
    ensures !HasKey(FilterByKey(s, key, false, format), key, format)
  {
    FilterByKeyMembers(s, key, false, format);
    var r := FilterByKey(s, key, false, format);
    forall i | 0 <= i < |r|
      ensures r[i].ToLocationString(format) != key
    {
      assert r[i] in r;
    }
  }

  /** What the mapper writes for a list of cities. */
  function Records(s: seq<FavoriteCity>): (r: seq<CityRecord>)
    reads s
    ensures |r| == |s| && forall i :: 0 <= i < |s| ==> r[i] == s[i].Record()
  {
    if s == [] then [] else [s[0].Record()] + Records(s[1..])
  }

  /** The collection after `saveCities(cities)` for `userId`, given the encoded list. */
  function SavedDocuments(documents: map<string, FavoriteCityList>, userId: string, empty: bool, json: string, fails: bool): map<string, FavoriteCityList> {
    if fails then documents
    else if empty then documents - {userId}
    else documents[userId := FavoriteCityList(userId, userId, json)]
  }

  /** Saving an empty list removes the user's document; any other list leaves exactly one document for the user. */
  lemma SavedDocumentsShape(documents: map<string, FavoriteCityList>, userId: string, empty: bool, json: string)
    ensures empty ==> userId !in SavedDocuments(documents, userId, empty, json, false)
    ensures !empty ==> var d := SavedDocuments(documents, userId, empty, json, false);
      userId in d && d[userId].id == userId && d[userId].userid == userId && d[userId].cityListJson == json
    ensures forall other :: other != userId && other in documents ==>
      other in SavedDocuments(documents, userId, empty, json, false) && SavedDocuments(documents, userId, empty, json, false)[other] == documents[other]
  {
  }

  /** The objects the mapper builds from decoded records: fresh cities carrying exactly those fields. */
  method CitiesFromRecords(records: seq<CityRecord>) returns (cities: seq<FavoriteCity>)
    ensures |cities| == |records|
    ensures forall i :: 0 <= i < |records| ==> fresh(cities[i]) && cities[i].Record() == records[i]
    ensures forall i :: 0 <= i < |records| ==> !cities[i].isCurrentLocation && cities[i].changeNotices == []
  {
    cities := [];
    var i := 0;
    while i < |records|
      invariant 0 <= i <= |records| && |cities| == i
      invariant forall j :: 0 <= j < i ==> fresh(cities[j]) && cities[j].Record() == records[j]
      invariant forall j :: 0 <= j < i ==> !cities[j].isCurrentLocation && cities[j].changeNotices == []
    {
      var c := new FavoriteCity(records[i].id);
      c.userid := records[i].userid;
      c.latitude := records[i].latitude;
      c.longitude := records[i].longitude;
      c.displayName := records[i].displayName;
      cities := cities + [c];
      i := i + 1;
    }
  }

  /**
   * The repository.  Its load and its save first read the signed-in user with `!!` and
   * configure the SDK, which, while unconfigured, fetches a resource token from the broker
   * with a blocking request.  `sessionFails` says that one of these throws: no signed-in
   * user or a failed token fetch, and on the save path also no `user_id` or a failed JSON
   * encoding.  The exception then leaves the operation before the collection is touched or
   * anything is published.
   */
  class FavoritesRepository {
    /** The signed-in user's `user_id`. */
    const userId: string
    const format: CoordinateFormat
    const encode: seq<CityRecord> -> string
    const decode: string -> Option<seq<CityRecord>>
    const collection: DocumentCollection

    /** The value of `mFavorites`: None until something is posted. */
    var favorites: Option<seq<FavoriteCity>>

    /** The current list, or the empty list when none has been posted. */
    function Current(): seq<FavoriteCity>
      reads this
    {
      favorites.GetOr([])
    }

    constructor (userId: string, format: CoordinateFormat, encode: seq<CityRecord> -> string,
                 decode: string -> Option<seq<CityRecord>>, collection: DocumentCollection)
      ensures this.userId == userId && this.format == format && this.encode == encode
      ensures this.decode == decode && this.collection == collection
      ensures favorites == None
    {
      this.userId := userId;
      this.format := format;
      this.encode := encode;
      this.decode := decode;
      this.collection := collection;
      favorites := None;
    }

    /** `cityIsFavorite`: some current favourite has the city's location string. */
    predicate CityIsFavorite(city: FavoriteCity)
      reads this, city, Current()
      ensures CityIsFavorite(city) <==> HasKey(Current(), city.ToLocationString(format), format)
      ensures favorites.None? ==> !CityIsFavorite(city)
    {
      var key := city.ToLocationString(format);
      HasKeyIffSelected(Current(), key, format);
      var f := if favorites.Some? then Some(FilterByKey(favorites.value, key, true, format)) else None;
      if f.Some? then |f.value| > 0 else false
    }

    /**
     * `loadCities`: decodes the first document when the query returned any; publishes
     * the empty list otherwise.  A document that does not decode makes the mapper throw
     * inside the callback, and nothing is published.  When `sessionFails`, reading the
     * signed-in user or configuring the SDK throws before the query is sent.
     */
    method LoadCities(response: Option<seq<FavoriteCityList>>, sessionFails: bool)
      modifies this
      ensures sessionFails ==> favorites == old(favorites)
      ensures !sessionFails && response.Some? && |response.value| != 0 ==>
        var decoded := decode(response.value[0].cityListJson);
        if decoded.Some? then
          favorites.Some? && |favorites.value| == |decoded.value| &&
          forall i :: 0 <= i < |decoded.value| ==> fresh(favorites.value[i]) && favorites.value[i].Record() == decoded.value[i]
        else favorites == old(favorites)
      ensures !sessionFails && !(response.Some? && |response.value| != 0) ==> favorites == Some([])
    {
      if sessionFails {
        return;
      }
      if response.Some? && |response.value| != 0 {
        var jsonStr := response.value[0].cityListJson;
        var decoded := decode(jsonStr);
        if decoded.Some? {
          var cities := CitiesFromRecords(decoded.value);
          favorites := Some(cities);
        }
      } else {
        favorites := Some([]);
      }
    }

    /**
     * `saveCities`: an empty list deletes the user's document, any other list upserts it.
     * When `sessionFails` it throws before the store is touched, and `completed` is false.
     */
    method SaveCities(cities: seq<FavoriteCity>, sessionFails: bool, fails: bool) returns (completed: bool)
      modifies collection
      ensures completed == !sessionFails
      ensures collection.documents == if sessionFails then old(collection.documents)
        else SavedDocuments(old(collection.documents), userId, |cities| == 0, encode(Records(cities)), fails)
    {
      if sessionFails {
        return false;
      }
      var jsonStr := encode(Records(cities));
      var cityListObj := FavoriteCityList(userId, userId, jsonStr);
      if |cities| == 0 {
        collection.DeleteDocument(userId, fails);
      } else {
        collection.CreateOrUpdateDocument(cityListObj, fails);
      }
      return true;
    }

    /**
     * `addCity`: appends a city that is not yet a favourite, saves, and publishes.  When the
     * save throws (`sessionFails`), the exception leaves `addCity` before the post.
     */
    method AddCity(city: FavoriteCity, sessionFails: bool, fails: bool)
      modifies this, collection
      ensures old(CityIsFavorite(city)) || sessionFails ==>
        favorites == old(favorites) && collection.documents == old(collection.documents)
      ensures !old(CityIsFavorite(city)) && !sessionFails ==>
        && favorites == Some(old(Current()) + [city])
        && collection.documents == SavedDocuments(old(collection.documents), userId, false, encode(Records(favorites.value)), fails)
      ensures CityIsFavorite(city) <==> old(CityIsFavorite(city)) || !sessionFails
    {
      if CityIsFavorite(city) {
        return;
      }
      var cityList: seq<FavoriteCity> := [];
      if favorites.Some? {
        cityList := cityList + favorites.value;
      }
      cityList := cityList + [city];
      assert cityList == Current() + [city];
      var completed := SaveCities(cityList, sessionFails, fails);
      if !completed {
        return;
      }
      favorites := Some(cityList);
      assert Current()[|Current()| - 1] == city;
    }

    /**
     * `removeCity`: drops every city with the same location string, saves, and publishes.
     * When the save throws (`sessionFails`), the exception leaves `removeCity` before the post.
     */
    method RemoveCity(city: FavoriteCity, sessionFails: bool, fails: bool)
      modifies this, collection
      ensures if old(CityIsFavorite(city)) && !sessionFails then
          && favorites == Some(FilterByKey(old(Current()), city.ToLocationString(format), false, format))
          && collection.documents == SavedDocuments(old(collection.documents), userId, |favorites.value| == 0,
                                                    encode(Records(favorites.value)), fails)
        else
          favorites == old(favorites) && collection.documents == old(collection.documents)
      ensures CityIsFavorite(city) <==> old(CityIsFavorite(city)) && sessionFails
    {
      if CityIsFavorite(city) {
        // the list exists, since the city is a favourite
        DropKey(city.ToLocationString(format), sessionFails, fails);
      }
    }

    /** The body of `removeCity` once the city is known to be a favourite: an ArrayList receives the filtered cities. */
    method DropKey(key: string, sessionFails: bool, fails: bool)
      requires favorites.Some?
      modifies this, collection
      ensures sessionFails ==> favorites == old(favorites) && collection.documents == old(collection.documents)
      ensures !sessionFails ==> favorites == Some(FilterByKey(old(favorites.value), key, false, format))
      ensures !sessionFails ==> collection.documents == SavedDocuments(old(collection.documents), userId, |favorites.value| == 0,
                                                                       encode(Records(favorites.value)), fails)
      ensures !sessionFails ==> !HasKey(favorites.value, key, format)
    {
      var cityList := FilterByKey(favorites.value, key, false, format);
      FilteredOutKeyIsGone(favorites.value, key, format);
      assert !HasKey(cityList, key, format);
      var completed := SaveCities(cityList, sessionFails, fails);
      if !completed {
        return;
      }
      assert !HasKey(cityList, key, format);
      favorites := Some(cityList);
    }
  }
}
