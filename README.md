# Weather: a verified model of the app's data layer and token broker

This Dafny project models the logic behind a sample weather application. The application has Kotlin and Android clients, a Swift front end, and a C# token broker. The project covers:

- **Followed locations** (Kotlin client). A user follows a list of locations. Each location's identity is a random id. The list is kept by a repository that replaces it wholesale on every change and saves its JSON under the key `"favorites"`.
- **Settings** (Kotlin client). Unit preferences start at imperial defaults and are saved under `"settings"`.
- **Forecasts** (Kotlin client). Forecasts come from the Dark Sky API through two in-memory caches keyed by request URI. Each HTTP exchange is classified into a forecast or an exception.
- **Icons** (Kotlin client). Dark Sky icon names map to drawable resources.
- **Favourite cities** (older Android client). Cities are keyed by their location string and saved as one cloud document per user.
- **Colours** (Swift front end). `ColorFromRGB` extracts the colour channels, and the palette is a set of fixed colours.
- **Token broker** (C#). It makes sure the document database knows a user with one permission on the shared container, and it answers with that permission's resource token.

Each source file of the core is a Dafny module.

| file | module | form |
|---|---|---|
| `common.dfy` | `Common` | `Option`, `Result`, and the exception kinds the clients pass around |
| `storage.dfy` | `KeyValueStorage` | the `StorageService` key/value store: a class over a map |
| `user_location.dfy` | `UserLocations` | datatype and functions: id-based equality and JVM string hashing |
| `locations_repository.dfy` | `LocationsRepositories` | list functions with lemmas; a class whose methods publish and save |
| `user_settings.dfy` | `UserSettingsModel` | unit enumerations and the default record |
| `settings_repository.dfy` | `SettingsRepositories` | load branch function; class with load, save, update |
| `weather_service.dfy` | `WeatherServices` | response classifier, cache test, class holding both caches |
| `weather_conditions.dfy` | `WeatherConditions` | the icon table and its naming rule |
| `palette.dfy` | `Palette` | channel extraction on 64-bit words |
| `favorite_city.dfy` | `FavoriteCities` | class with in-place `setLocation` and change notices |
| `favorites_repository.dfy` | `FavoritesRepositories` | filtering functions with lemmas; class over a document collection |
| `token_controller.dfy` | `TokenBroker` | `Broker` specification function; classes for the store and the controller |

Several things the code does are inputs to the model:

- **Time, faults and random values.** The clock, whether a storage, network or database call fails, the random UUIDs and partition keys, and the tokens the database issues, for a new permission and again at every read of one, are all parameters.
- **JSON.** Encoding is an abstract function, and decoding is an abstract function that returns `Option`/`Result`.
- **URIs and location strings.** The `%.5f` renderings are abstract functions of the coordinates.
- **Asynchronous work.** LiveData `postValue` is plain assignment. A completion callback, when it runs, runs at once; a thrown exception that ends a handler before its callback is modelled as no callback.

Constants are exactly as written in the code. This includes Seattle's default longitude of -12.3321, which is almost certainly meant to be -122.3321. The model does not correct it.

## Model

| member | source | states |
|---|---|---|
| KeyValueStorage.AfterSave | android-kotlin/app/src/main/java/com/github/adrianhall/weather/services/StorageService.kt:16-23 | a successful save stores the JSON under its key; other keys are kept; a failed save changes nothing; the keys afterwards are the old keys, plus the saved one exactly when the save succeeded |
| KeyValueStorage.StorageService.Load | android-kotlin/app/src/main/java/com/github/adrianhall/weather/services/StorageService.kt:8-14 | a healthy store reports the entry or no data with no error; a failing one reports only its error |
| KeyValueStorage.StorageService.Save | android-kotlin/app/src/main/java/com/github/adrianhall/weather/services/StorageService.kt:16-23 | the entries become `AfterSave` of the old entries, and the handler receives the call's error |
| UserLocations.WrapInt32 | android-kotlin/app/src/main/java/com/github/adrianhall/weather/models/UserLocation.kt:34 | the JVM's signed 32-bit wrap-around: the result is in range and congruent to its input modulo 2^32 |
| UserLocations.NewUserLocation | android-kotlin/app/src/main/java/com/github/adrianhall/weather/models/UserLocation.kt:11-19 | the primary constructor: the coordinates and display name given (the name defaulting to empty) and a freshly drawn id |
| UserLocations.SameLocation | android-kotlin/app/src/main/java/com/github/adrianhall/weather/models/UserLocation.kt:29 | `equals`: two locations are the same when their ids agree (see `SameIdIsSameLocation`) |
| UserLocations.CodeUnits | android-kotlin/app/src/main/java/com/github/adrianhall/weather/models/UserLocation.kt:34 | the UTF-16 code units of one character: one or two, each below 0x10000 |
| UserLocations.Utf16 | android-kotlin/app/src/main/java/com/github/adrianhall/weather/models/UserLocation.kt:34 | the code units a JVM string holds: one or two per character, a character above U+FFFF becoming a surrogate pair |
| UserLocations.Utf16Units | android-kotlin/app/src/main/java/com/github/adrianhall/weather/models/UserLocation.kt:34 | every code unit of a string lies in 0 to 0xFFFF |
| UserLocations.HashUnits | android-kotlin/app/src/main/java/com/github/adrianhall/weather/models/UserLocation.kt:34 | the polynomial hash 31*h + u over code units, wrapped to 32 bits, always a 32-bit `Int` |
| UserLocations.Utf16OfBmp | android-kotlin/app/src/main/java/com/github/adrianhall/weather/models/UserLocation.kt:34 | a string with no character above U+FFFF has one code unit per character, equal to the character |
| UserLocations.Utf16Append | android-kotlin/app/src/main/java/com/github/adrianhall/weather/models/UserLocation.kt:34 | the code units of a concatenation are the concatenation of the code units |
| UserLocations.StringHashAppend | android-kotlin/app/src/main/java/com/github/adrianhall/weather/models/UserLocation.kt:34 | appending a character below U+10000 multiplies the hash by 31, adds the character and wraps |
| UserLocations.SupplementaryCharacterHash | android-kotlin/app/src/main/java/com/github/adrianhall/weather/models/UserLocation.kt:34 | U+1F600 is hashed as its surrogate pair 0xD83D 0xDE00, giving 1772899 |
| UserLocations.HashCode | android-kotlin/app/src/main/java/com/github/adrianhall/weather/models/UserLocation.kt:34 | `hashCode` is a 32-bit `Int` (it is the hash of the id) |
| UserLocations.StringHash | android-kotlin/app/src/main/java/com/github/adrianhall/weather/models/UserLocation.kt:34 | `String.hashCode` is always a 32-bit `Int`, and it is the hash of the string's UTF-16 code units |
| UserLocations.EqualLocationsHashEqually | android-kotlin/app/src/main/java/com/github/adrianhall/weather/models/UserLocation.kt:29-34 | `equals` and `hashCode` agree: equal locations have equal hash codes |
| UserLocations.SameIdIsSameLocation | android-kotlin/app/src/main/java/com/github/adrianhall/weather/models/UserLocation.kt:29 | two locations are equal exactly when their ids agree; coordinates and display name play no part |
| UserLocations.SameCoordinatesDifferentIdsDistinct | android-kotlin/app/src/main/java/com/github/adrianhall/weather/models/UserLocation.kt:5-11 | locations at the same coordinates with different ids are different locations |
| UserLocations.DefaultLocations | android-kotlin/app/src/main/java/com/github/adrianhall/weather/models/UserLocation.kt:13-17 | there are three defaults, carrying the three ids drawn for them, in order |
| UserLocations.DisplayNames | android-kotlin/app/src/main/java/com/github/adrianhall/weather/models/UserLocation.kt:11 | the display names of a list, element by element |
| UserLocations.DefaultLocationsInOrder | android-kotlin/app/src/main/java/com/github/adrianhall/weather/models/UserLocation.kt:13-17 | the defaults are Seattle, London and Santorini, in that order |
| UserLocations.DisplayNameDefaultsToEmpty | android-kotlin/app/src/main/java/com/github/adrianhall/weather/models/UserLocation.kt:11 | a location built without a display name has the empty one |
| LocationsRepositories.ReplaceById | android-kotlin/app/src/main/java/com/github/adrianhall/weather/repositories/LocationsRepository.kt:97 | the mapped list has the same length, and exactly the elements with the location's id are replaced by it |
| LocationsRepositories.RemoveById | android-kotlin/app/src/main/java/com/github/adrianhall/weather/repositories/LocationsRepository.kt:118 | the filter keeps exactly the elements whose id differs, and never grows the list |
| LocationsRepositories.RemoveByIdAppend | android-kotlin/app/src/main/java/com/github/adrianhall/weather/repositories/LocationsRepository.kt:118 | filtering distributes over concatenation, so the elements that remain keep their order |
| LocationsRepositories.RemoveByIdSingleton | android-kotlin/app/src/main/java/com/github/adrianhall/weather/repositories/LocationsRepository.kt:118 | a one-element list keeps its element exactly when the element's id differs |
| LocationsRepositories.RemoveByIdAbsent | android-kotlin/app/src/main/java/com/github/adrianhall/weather/repositories/LocationsRepository.kt:116-118 | a list with no element of that id is left unchanged by the filter |
| LocationsRepositories.Contains | android-kotlin/app/src/main/java/com/github/adrianhall/weather/repositories/LocationsRepository.kt:95 | `List.contains` through the id-based `equals`: some element has the location's id |
| LocationsRepositories.Upserted | android-kotlin/app/src/main/java/com/github/adrianhall/weather/repositories/LocationsRepository.kt:94-102 | the upserted list has one element more exactly when the location was absent, and holds only old elements and the location |
| LocationsRepositories.Removed | android-kotlin/app/src/main/java/com/github/adrianhall/weather/repositories/LocationsRepository.kt:115-118 | the list after a removal never grows and holds only old elements |
| LocationsRepositories.UpsertPresent | android-kotlin/app/src/main/java/com/github/adrianhall/weather/repositories/LocationsRepository.kt:95-97 | upserting a present location keeps length and order and replaces exactly the elements with its id |
| LocationsRepositories.UpsertAbsent | android-kotlin/app/src/main/java/com/github/adrianhall/weather/repositories/LocationsRepository.kt:99-101 | upserting an absent location yields the old list followed by the location |
| LocationsRepositories.UpsertContains | android-kotlin/app/src/main/java/com/github/adrianhall/weather/repositories/LocationsRepository.kt:91-107 | after any upsert the location is in the published list, both by id and as the new value |
| LocationsRepositories.UpsertIdempotent | android-kotlin/app/src/main/java/com/github/adrianhall/weather/repositories/LocationsRepository.kt:91-107 | a second upsert of the same location changes nothing |
| LocationsRepositories.RemovePresent | android-kotlin/app/src/main/java/com/github/adrianhall/weather/repositories/LocationsRepository.kt:116-118 | removing a present location removes every element with its id, keeps all others, and shortens the list |
| LocationsRepositories.RemoveAbsent | android-kotlin/app/src/main/java/com/github/adrianhall/weather/repositories/LocationsRepository.kt:123-125 | removing an absent location leaves the list as it was |
| LocationsRepositories.LoadedLocations | android-kotlin/app/src/main/java/com/github/adrianhall/weather/repositories/LocationsRepository.kt:44-65 | load publishes either the defaults or a list the stored JSON decodes to |
| LocationsRepositories.LoadedLocationsCases | android-kotlin/app/src/main/java/com/github/adrianhall/weather/repositories/LocationsRepository.kt:44-65 | load publishes the decoded list exactly when stored JSON decodes, and `defaultLocations` otherwise (decode failure, load error, no data) |
| LocationsRepositories.LocationsRepository.constructor | android-kotlin/app/src/main/java/com/github/adrianhall/weather/repositories/LocationsRepository.kt:22 | the published list starts empty |
| LocationsRepositories.LocationsRepository.LoadFavoriteLocations | android-kotlin/app/src/main/java/com/github/adrianhall/weather/repositories/LocationsRepository.kt:42-67 | the published list is the load branch applied to what the store reports for "favorites" |
| LocationsRepositories.LocationsRepository.SaveFavoriteLocations | android-kotlin/app/src/main/java/com/github/adrianhall/weather/repositories/LocationsRepository.kt:73-86 | the encoded list is saved under "favorites"; encoding and save failures only leave the store as it was |
| LocationsRepositories.LocationsRepository.UpsertFavoriteLocation | android-kotlin/app/src/main/java/com/github/adrianhall/weather/repositories/LocationsRepository.kt:91-108 | publishes the upserted list, which contains the location, and saves the encoding of exactly that list under "favorites" |
| LocationsRepositories.LocationsRepository.RemoveFavoriteLocation | android-kotlin/app/src/main/java/com/github/adrianhall/weather/repositories/LocationsRepository.kt:113-126 | publishes the filtered list, which no longer contains the location, and saves exactly that list; an absent location publishes and saves nothing |
| UserSettingsModel.DefaultsAreImperial | android-kotlin/app/src/main/java/com/github/adrianhall/weather/models/UserSettings.kt:8-13 | the defaults are Fahrenheit, miles, miles per hour, inches per hour, millibars and inches |
| UserSettingsModel.ThreeUnitEnumerations | android-kotlin/app/src/main/java/com/github/adrianhall/weather/models/UserSettings.kt:18-22 | temperature and precipitation intensity each have exactly three units |
| UserSettingsModel.TwoUnitEnumerations | android-kotlin/app/src/main/java/com/github/adrianhall/weather/models/UserSettings.kt:24-48 | distance, speed, pressure and accumulation each have exactly two units |
| SettingsRepositories.LoadedSettings | android-kotlin/app/src/main/java/com/github/adrianhall/weather/repositories/SettingsRepository.kt:45-64 | load publishes either the defaults or settings the stored JSON decodes to |
| SettingsRepositories.LoadedSettingsCases | android-kotlin/app/src/main/java/com/github/adrianhall/weather/repositories/SettingsRepository.kt:45-64 | load publishes the decoded settings exactly when stored JSON decodes, and `UserSettings()` otherwise |
| SettingsRepositories.SettingsRepository.constructor | android-kotlin/app/src/main/java/com/github/adrianhall/weather/repositories/SettingsRepository.kt:21 | the settings start at the defaults |
| SettingsRepositories.SettingsRepository.LoadUserSettings | android-kotlin/app/src/main/java/com/github/adrianhall/weather/repositories/SettingsRepository.kt:41-66 | the published settings are the load branch applied to what the store reports for "settings" |
| SettingsRepositories.SettingsRepository.SaveUserSettings | android-kotlin/app/src/main/java/com/github/adrianhall/weather/repositories/SettingsRepository.kt:72-85 | the encoded settings are saved under "settings"; encoding and save failures only leave the store as it was |
| SettingsRepositories.SettingsRepository.UpdateUserSettings | android-kotlin/app/src/main/java/com/github/adrianhall/weather/repositories/SettingsRepository.kt:90-96 | publishes exactly the given settings and saves the encoding of the same value; a failed encode or save leaves the store and the published value alone |
| WeatherServices.Classify | android-kotlin/app/src/main/java/com/github/adrianhall/weather/services/WeatherService.kt:104-138 | an exchange produces at most one callback, and a callback carries exactly one of a forecast and an exception |
| WeatherServices.ClassifySkipsCallbackIff | android-kotlin/app/src/main/java/com/github/adrianhall/weather/services/WeatherService.kt:119-138 | no callback runs exactly when the response is successful and reading its body throws, which happens outside the `try` |
| WeatherServices.ClassifyYieldsWeatherIff | android-kotlin/app/src/main/java/com/github/adrianhall/weather/services/WeatherService.kt:119-131 | the callback gets weather exactly when the response is successful and has a body that decodes, and then it gets the decoded value |
| WeatherServices.ClassifyErrors | android-kotlin/app/src/main/java/com/github/adrianhall/weather/services/WeatherService.kt:104-135 | transport and decoding errors are passed on; an unsuccessful status and a missing body become the R_UNSUCCESSFUL and R_NODATA runtime exceptions |
| WeatherServices.CacheHit | android-kotlin/app/src/main/java/com/github/adrianhall/weather/services/WeatherService.kt:57 | the cache test as written, `receivedTime + lifetime < currentTime` |
| WeatherServices.CacheHitIntended | android-kotlin/app/src/main/java/com/github/adrianhall/weather/services/WeatherService.kt:47-50 | the intended test: the entry is younger than its lifetime in seconds |
| WeatherServices.CacheHitAsWrittenIsInverted | android-kotlin/app/src/main/java/com/github/adrianhall/weather/services/WeatherService.kt:56-61 | as written, an entry is not served at any time in its first 300 ms and is served at every time after that, an hour later included |
| WeatherServices.CacheHitIntendedExpires | android-kotlin/app/src/main/java/com/github/adrianhall/weather/services/WeatherService.kt:47-50 | the intended test serves an entry for five minutes after it is stored and never after |
| WeatherServices.WeatherService.FetchWeather | android-kotlin/app/src/main/java/com/github/adrianhall/weather/services/WeatherService.kt:95-140 | one request to the URI, whose callback (or none) is what `Classify` says |
| WeatherServices.WeatherService.GetCurrentForecast | android-kotlin/app/src/main/java/com/github/adrianhall/weather/services/WeatherService.kt:51-69 | on a cache hit the cached forecast is delivered with no fetch; otherwise one fetch, and the result is cached, stamped with the time read before the fetch, only on success; only the current-weather cache changes; the callback runs once, except when the body read throws and it does not run at all |
| WeatherServices.WeatherService.GetFullForecast | android-kotlin/app/src/main/java/com/github/adrianhall/weather/services/WeatherService.kt:75-93 | the same policy over the full-forecast cache and URI, which is the only cache that changes |
| WeatherConditions.WeatherDrawable | android-kotlin/app/src/main/java/com/github/adrianhall/weather/utils/WeatherConditions.kt:7-18 | `getWeatherDrawable`: the ten icon names and their resources, no drawable otherwise (see `RecognisedIcons`, `DrawableFollowsNamingRule`) |
| WeatherConditions.ResourceName | android-kotlin/app/src/main/java/com/github/adrianhall/weather/utils/WeatherConditions.kt:8-17 | the naming rule the table follows: "weather_" plus the snake-case name, "weather_windy" for "wind" |
| WeatherConditions.Underscored | android-kotlin/app/src/main/java/com/github/adrianhall/weather/utils/WeatherConditions.kt:8-17 | replaces every '-' by '_' and keeps every other character |
| WeatherConditions.RecognisedIcons | android-kotlin/app/src/main/java/com/github/adrianhall/weather/utils/WeatherConditions.kt:7-18 | an icon has a drawable exactly when it is one of the ten documented names |
| WeatherConditions.KnownIconCount | android-kotlin/app/src/main/java/com/github/adrianhall/weather/utils/WeatherConditions.kt:8-17 | there are ten documented icon names |
| WeatherConditions.UnderscoredIs | android-kotlin/app/src/main/java/com/github/adrianhall/weather/utils/WeatherConditions.kt:8-17 | a string that agrees character by character with the snake-case form is that form |
| WeatherConditions.EntryFollowsNamingRule | android-kotlin/app/src/main/java/com/github/adrianhall/weather/utils/WeatherConditions.kt:8-17 | an entry whose resource is "weather_" plus its snake-case name follows the naming rule |
| WeatherConditions.DrawableFollowsNamingRule | android-kotlin/app/src/main/java/com/github/adrianhall/weather/utils/WeatherConditions.kt:8-17 | every recognised icon maps to "weather_" plus its snake-case name, except "wind", which maps to "weather_windy" |
| WeatherConditions.ClearAndRainFollowNamingRule | android-kotlin/app/src/main/java/com/github/adrianhall/weather/utils/WeatherConditions.kt:8-10 | the naming rule holds for clear-day, clear-night and rain |
| WeatherConditions.SnowToCloudyFollowNamingRule | android-kotlin/app/src/main/java/com/github/adrianhall/weather/utils/WeatherConditions.kt:11-15 | the naming rule holds for snow, sleet, fog and cloudy |
| WeatherConditions.PartlyCloudyFollowsNamingRule | android-kotlin/app/src/main/java/com/github/adrianhall/weather/utils/WeatherConditions.kt:16-17 | the naming rule holds for both partly-cloudy icons |
| WeatherConditions.ConditionDrawable | android-kotlin/app/src/main/java/com/github/adrianhall/weather/ui/main/LocationsAdapter.kt:145-157 | the adapter's private copy of the table (see `AdapterTableAgrees`) |
| WeatherConditions.AdapterTableAgrees | android-kotlin/app/src/main/java/com/github/adrianhall/weather/ui/main/LocationsAdapter.kt:145-157 | the adapter's private copy of the table agrees with the shared one on every input |
| Palette.ColorFromRgb | swift/Weather/Weather/Utils/Palette.swift:3-9 | each extracted channel is below 256 |
| Palette.ChannelsRecombine | swift/Weather/Weather/Utils/Palette.swift:5-7 | the channels put back together, by arithmetic or by shifts, give the low 24 bits of the input |
| Palette.HighBitsIgnored | swift/Weather/Weather/Utils/Palette.swift:5-7 | bits above the lowest 24 play no part |
| Palette.PaletteChannels | swift/Weather/Weather/Utils/Palette.swift:11-17 | the five palette colours as channel triples |
| FavoriteCities.Template | android/app/src/main/java/com/github/adrianhall/weather/models/FavoriteCity.kt:60-64 | a nullable string in a Kotlin template: its value, or "null" |
| FavoriteCities.AddressDisplayName | android/app/src/main/java/com/github/adrianhall/weather/models/FavoriteCity.kt:60-64 | the name `setLocation(address)` picks (see `AddressDisplayNameRule`) |
| FavoriteCities.AddressDisplayNameRule | android/app/src/main/java/com/github/adrianhall/weather/models/FavoriteCity.kt:60-64 | a US address is named "locality, USA" and any other "locality, country", with null parts rendered as "null" |
| FavoriteCities.USNameIgnoresCountryName | android/app/src/main/java/com/github/adrianhall/weather/models/FavoriteCity.kt:60-61 | the country name plays no part in a US address's name |
| FavoriteCities.FavoriteCity.constructor | android/app/src/main/java/com/github/adrianhall/weather/models/FavoriteCity.kt:16-35 | every field starts at its initialiser and the id is the one given |
| FavoriteCities.FavoriteCity.WithCoordinates | android/app/src/main/java/com/github/adrianhall/weather/models/FavoriteCity.kt:37-41 | the secondary constructor sets exactly the coordinates and name and leaves the rest at their initialisers |
| FavoriteCities.FavoriteCity.SetLocation | android/app/src/main/java/com/github/adrianhall/weather/models/FavoriteCity.kt:46-52 | overwrites the coordinates, name and flag, keeps id and user id, and posts exactly one change notice |
| FavoriteCities.FavoriteCity.SetLocationFromAddress | android/app/src/main/java/com/github/adrianhall/weather/models/FavoriteCity.kt:57-67 | the same, with the name chosen by the address rule |
| FavoriteCities.FavoriteCity.NotifyDataHasChanged | android/app/src/main/java/com/github/adrianhall/weather/models/FavoriteCity.kt:72-74 | posts one change notice and changes nothing else |
| FavoriteCities.FavoriteCity.ToLocationString | android/app/src/main/java/com/github/adrianhall/weather/models/FavoriteCity.kt:79-81 | `toLocationString`, a rendering of the coordinates alone (see `LocationStringIgnoresName`) |
| FavoriteCities.FavoriteCity.Record | android/app/src/main/java/com/github/adrianhall/weather/models/FavoriteCity.kt:16-35 | the fields the JSON mapper writes: id, user id, coordinates and display name |
| FavoriteCities.LocationStringIgnoresName | android/app/src/main/java/com/github/adrianhall/weather/models/FavoriteCity.kt:79-81 | a city's key depends on its coordinates only |
| FavoritesRepositories.DocumentCollection.DeleteDocument | android/app/src/main/java/com/github/adrianhall/weather/repositories/FavoritesRepository.kt:110 | a successful delete removes the user's document; a failed one changes nothing |
| FavoritesRepositories.DocumentCollection.CreateOrUpdateDocument | android/app/src/main/java/com/github/adrianhall/weather/repositories/FavoritesRepository.kt:114 | a successful upsert stores the document under its id; a failed one changes nothing |
| FavoritesRepositories.FilterByKey | android/app/src/main/java/com/github/adrianhall/weather/repositories/FavoritesRepository.kt:159-173 | filtering never grows the list |
| FavoritesRepositories.FilterByKeyMembers | android/app/src/main/java/com/github/adrianhall/weather/repositories/FavoritesRepository.kt:159-173 | the filter keeps exactly the cities whose key test comes out as asked |
| FavoritesRepositories.FilterByKeyAppend | android/app/src/main/java/com/github/adrianhall/weather/repositories/FavoritesRepository.kt:159 | filtering distributes over concatenation, so the remaining cities keep their order |
| FavoritesRepositories.FilterByKeyPartition | android/app/src/main/java/com/github/adrianhall/weather/repositories/FavoritesRepository.kt:159-173 | the cities with a key and those without it together make up the whole list |
| FavoritesRepositories.HasKey | android/app/src/main/java/com/github/adrianhall/weather/repositories/FavoritesRepository.kt:172-175 | some city of the list has the location string |
| FavoritesRepositories.HasKeyIffSelected | android/app/src/main/java/com/github/adrianhall/weather/repositories/FavoritesRepository.kt:173-174 | a list has a city with the key exactly when filtering for the key leaves something |
| FavoritesRepositories.FilteredOutKeyIsGone | android/app/src/main/java/com/github/adrianhall/weather/repositories/FavoritesRepository.kt:159 | after the key is filtered out, no city with that key is left |
| FavoritesRepositories.Records | android/app/src/main/java/com/github/adrianhall/weather/repositories/FavoritesRepository.kt:101 | what the mapper writes for a list: each city's JSON-visible fields, in order |
| FavoritesRepositories.SavedDocuments | android/app/src/main/java/com/github/adrianhall/weather/repositories/FavoritesRepository.kt:104-115 | the collection after a save: a failed call changes nothing, an empty list deletes the user's document, any other list upserts it (see `SavedDocumentsShape`) |
| FavoritesRepositories.SavedDocumentsShape | android/app/src/main/java/com/github/adrianhall/weather/repositories/FavoritesRepository.kt:104-115 | saving an empty list removes the user's document; any other list leaves one document with id and user id set to the user and the list's JSON; other users' documents are untouched |
| FavoritesRepositories.CitiesFromRecords | android/app/src/main/java/com/github/adrianhall/weather/repositories/FavoritesRepository.kt:56 | decoding builds one fresh city per record, carrying exactly that record's fields |
| FavoritesRepositories.FavoritesRepository.constructor | android/app/src/main/java/com/github/adrianhall/weather/repositories/FavoritesRepository.kt:44-57 | nothing is published until the first load |
| FavoritesRepositories.FavoritesRepository.CityIsFavorite | android/app/src/main/java/com/github/adrianhall/weather/repositories/FavoritesRepository.kt:172-175 | a city is a favourite exactly when some current favourite has its location string; never before a list is published |
| FavoritesRepositories.FavoritesRepository.LoadCities | android/app/src/main/java/com/github/adrianhall/weather/repositories/FavoritesRepository.kt:44-67 | a failed session (no signed-in user, or a failed token fetch) publishes nothing; otherwise the first document, when the query returns any, is decoded and published; with no documents the empty list is published; a document that does not decode publishes nothing |
| FavoritesRepositories.FavoritesRepository.SaveCities | android/app/src/main/java/com/github/adrianhall/weather/repositories/FavoritesRepository.kt:98-121 | a failed session throws before the collection is touched; otherwise an empty list deletes the user's document and any other list upserts it with the list's JSON |
| FavoritesRepositories.FavoritesRepository.AddCity | android/app/src/main/java/com/github/adrianhall/weather/repositories/FavoritesRepository.kt:126-144 | a city already a favourite, or a failed session, changes nothing; otherwise the city is appended, the new list is saved and published; afterwards the city is a favourite exactly when it was one or the session held |
| FavoritesRepositories.FavoritesRepository.RemoveCity | android/app/src/main/java/com/github/adrianhall/weather/repositories/FavoritesRepository.kt:149-167 | a city not a favourite, or a failed session, changes nothing; otherwise every city with its location string is dropped, and the rest is saved and published in order; afterwards the city is a favourite exactly when it was one and the session failed |
| FavoritesRepositories.FavoritesRepository.DropKey | android/app/src/main/java/com/github/adrianhall/weather/repositories/FavoritesRepository.kt:158-166 | unless the session fails, the filtered list is saved and published and has no city with the key left; a failed session changes nothing |
| TokenBroker.NewPermission | tokenbroker/TokenBroker/Controllers/TokenController.cs:80-82 | the new permission has id "tempCollectionPK", mode All, database "fakeDB", container "tempCollection", and the freshly drawn partition key |
| TokenBroker.AsRead | tokenbroker/TokenBroker/Controllers/TokenController.cs:92 | what a read returns: the stored permission, granting the same access, with the token issued at the read |
| TokenBroker.SameGrant | tokenbroker/TokenBroker/Controllers/TokenController.cs:82 | two permissions agree on id, mode, database, container and partition key, whatever their tokens |
| TokenBroker.Configured | tokenbroker/TokenBroker/Controllers/TokenController.cs:56-60 | both ENDPOINT and KEY are set |
| TokenBroker.Broker | tokenbroker/TokenBroker/Controllers/TokenController.cs:54-97 | `GetPermission` as a function of the store: its result, the new store and the requests sent (its properties are the lemmas below) |
| TokenBroker.Response | tokenbroker/TokenBroker/Controllers/TokenController.cs:40-52 | what `Get` answers for a result of `GetPermission` (see `ResponseCases`) |
| TokenBroker.PermissionIdIsFixed | tokenbroker/TokenBroker/Controllers/TokenController.cs:24-26 | the permission id is always "tempCollectionPK" |
| TokenBroker.MissingConfigurationSendsNothing | tokenbroker/TokenBroker/Controllers/TokenController.cs:56-69 | without both ENDPOINT and KEY the call throws "Endpoint or key is null" before any request, and the store is untouched |
| TokenBroker.ConfiguredCallStartsWithCreateUser | tokenbroker/TokenBroker/Controllers/TokenController.cs:75-78 | with the configuration present, the first request creates the user |
| TokenBroker.NewUserGetsFreshPermission | tokenbroker/TokenBroker/Controllers/TokenController.cs:78-93 | a new user, when nothing fails, is stored with exactly the new permission; the answer grants the same access and carries the token the read issues |
| TokenBroker.ExistingUserGetsStoredPermission | tokenbroker/TokenBroker/Controllers/TokenController.cs:85-93 | an existing user with the permission gets the stored permission back with the token the read issues, and the store gains nothing, whatever the create block meets |
| TokenBroker.UserWithoutPermissionFails | tokenbroker/TokenBroker/Controllers/TokenController.cs:85-93 | an existing user without the permission is never given one; the read fails with a database exception |
| TokenBroker.KeyNotFoundIffNoUser | tokenbroker/TokenBroker/Controllers/TokenController.cs:85-96 | `KeyNotFoundException` arises exactly when the user did not exist and could not be created |
| TokenBroker.StoreOnlyGrows | tokenbroker/TokenBroker/Controllers/TokenController.cs:75-88 | no user is ever removed, existing users keep their permissions, and only the requested user can be added |
| TokenBroker.SecondCallReturnsSamePermission | tokenbroker/TokenBroker/Controllers/TokenController.cs:75-93 | after a call that returned a permission, a repeated call for the same user adds nothing and returns the same permission with the newly issued token; the answers are equal exactly when the service issues the same token again |
| TokenBroker.HalfCreatedUserStaysBroken | tokenbroker/TokenBroker/Controllers/TokenController.cs:75-96 | a call whose user is created but whose permission is not leaves a user that every later call, with nothing failing, answers with a not-found database exception |
| TokenBroker.RepairedBroker | tokenbroker/TokenBroker/Controllers/TokenController.cs:75-96 | the evidently intended broker: a user found without the permission is given the new permission |
| TokenBroker.RepairedBrokerServesKnownUsers | tokenbroker/TokenBroker/Controllers/TokenController.cs:75-96 | with the configuration present and no fault, a known user always gets a permission, which is then stored: the one it had, or the new one, as a read returns it |
| TokenBroker.RepairedBrokerAgreesOtherwise | tokenbroker/TokenBroker/Controllers/TokenController.cs:75-96 | the repaired broker differs from the code as written only for a user stored without the permission |
| TokenBroker.ResponseCases | tokenbroker/TokenBroker/Controllers/TokenController.cs:43-51 | `Get` answers the token on success and "BadRequest" on `KeyNotFoundException`; every other exception propagates |
| TokenBroker.DocumentStore.CreateUser | tokenbroker/TokenBroker/Controllers/TokenController.cs:78 | succeeds exactly for a new user with no fault, adding that user with no permissions |
| TokenBroker.DocumentStore.CreatePermission | tokenbroker/TokenBroker/Controllers/TokenController.cs:83 | succeeds exactly for an existing user without that permission id and no fault, adding the permission |
| TokenBroker.DocumentStore.GetUser | tokenbroker/TokenBroker/Controllers/TokenController.cs:87 | finds the user exactly when it is stored |
| TokenBroker.DocumentStore.ReadPermission | tokenbroker/TokenBroker/Controllers/TokenController.cs:92 | returns the stored permission with the token issued at the read; fails as not found when it is absent, or with the fault; the store is unchanged |
| TokenBroker.TokenController.GetPermission | tokenbroker/TokenBroker/Controllers/TokenController.cs:54-97 | the result, the new store and the requests sent are those of `Broker` on the old store |
| TokenBroker.TokenController.Get | tokenbroker/TokenBroker/Controllers/TokenController.cs:40-52 | the answer is `Response` of what `GetPermission` yields; the store and the requests sent are those of `Broker` |

## Left out

- User interface, activities, fragments, view models and the splash screen: they hold no logic of the core. `MainViewModel` only forwards to the repositories.
- Networking (OkHttp, `URL.getText`, the Azure Data SDK, the Cosmos client) and the Key Vault URI constant: each call is replaced by its outcome, given as a parameter.
- `getUri`, `toString` and `toLocationString` render coordinates with `%.5f`. Floating-point formatting is not modelled, so they are abstract functions of the coordinates.
- The final division by 255.0 in `ColorFromRGB` is floating point. A colour here is its three integer channels.
- Jackson encoding and decoding are abstract functions. The Kotlin client's decoder is assumed to return the whole list or fail.
- `SIConverter` performs unit conversions in floating point and is not part of this model.
- `UserPreferencesStorageService` is a SharedPreferences wrapper. Storage is the map of `KeyValueStorage.StorageService`.
- `FavoriteCityList` carries a timestamp taken from the wall clock. The model's document has only the id, user id and JSON fields.
- `ConfigureCosmos`, `getResourceToken` and the `!!` reads of the signed-in user: their failures are one fault, `sessionFails`, given to `LoadCities`, `SaveCities`, `AddCity`, `RemoveCity` and `DropKey`. On the save path (`SaveCities`, and through it `AddCity`, `RemoveCity` and `DropKey`) the fault also covers the `!!` on the user's `user_id` and a failure of `writeValueAsString`, both of which come before the collection is touched; the encoder itself is modelled as total. The model covers the outcome (the exception leaves before the collection or the favourites change), not the blocking token fetch itself, nor which of the causes it was. The token itself is unused.
- `getResourceToken` reads `user_id` without `!!`: a load, or a first configuration, for a user without one asks the broker for the user named "null". The model does not represent the broker request the client sends.
- LocationsRepositories.LocationsRepository.constructor, SettingsRepositories.SettingsRepository.constructor, FavoritesRepositories.FavoritesRepository.constructor: each source repository starts its load from `init`, exactly once. Each constructor here gives the state right after construction, before that load completes, and the load is a separate method the caller invokes, so the model does not enforce that it runs exactly once or first.
- FavoritesRepositories.FavoritesRepository.LoadCities: the query result is a parameter, not derived from the collection. The source queries the whole collection and takes its first item, and the order of the query's results is not known.
- WeatherServices.WeatherService.FetchWeather: a callback that throws inside the `try` would be called a second time with its own exception. Callbacks are assumed not to throw.
- FavoritesRepositories.FavoritesRepository.LoadCities: the query's own failure arrives as a response without resources, which is why it publishes the empty list. A decoding failure throws inside the callback; the model publishes nothing then and does not model the crash.
- TokenBroker.DocumentStore.GetUser: the Cosmos SDK's `GetUser` builds a proxy without a request and never returns null. The model treats it as a lookup, so the source's `user != null` test is meaningful here. With the real SDK, a missing user surfaces from the read as a not-found database exception instead of `KeyNotFoundException`.
- Asynchrony: LiveData posts and completion callbacks, when they run, are modelled as immediate, sequential assignments. The source's reading of `value!!` right after an asynchronous post is not modelled.
- Logging (Timber, `ILogger`) is not modelled.

## Findings

| source | as written | input that shows it | evidently intended | confidence | as-written member | corrected member |
|---|---|---|---|---|---|---|
| android-kotlin/app/src/main/java/com/github/adrianhall/weather/services/WeatherService.kt:56-61, 80-85 | the cache serves an entry when `receivedTime + 300 < currentTime`, with both times in milliseconds | an entry stored at time t is refetched at t + 1 ms and served at t + 3,600,000 ms, an hour later | serve an entry while it is younger than the five-minute lifetime (doc comment at lines 47-50, constant comment at line 31): `currentTime < receivedTime + 300 * 1000` | not executed; high | WeatherServices.CacheHitAsWrittenIsInverted | WeatherServices.CacheHitIntendedExpires |
| tokenbroker/TokenBroker/Controllers/TokenController.cs:75-96 | when `CreateUser` succeeds and `CreatePermission` then fails, the catch only looks the user up; a later call finds the user, skips the create block's permission and reads a permission that is not there | an empty store; a first call whose permission creation fails; a second call with nothing failing, which fails with a not-found database exception, as does every call after it | a user known to the database but lacking the permission is given it | not executed; medium | TokenBroker.HalfCreatedUserStaysBroken | TokenBroker.RepairedBrokerServesKnownUsers |

The `WeatherService` class keeps the test as written, so its methods describe the code that ships. The corrected test is `WeatherServices.CacheHitIntended`. Likewise `TokenBroker.TokenController` keeps the broker as written; the repaired behaviour is `TokenBroker.RepairedBroker`.
