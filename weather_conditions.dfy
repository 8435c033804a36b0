/**
 * The icon names of the Dark Sky API mapped to the app's drawable resources
 * (utils/WeatherConditions.kt), and the private copy of the same table in the
 * locations list adapter (ui/main/LocationsAdapter.kt).  A drawable is named by its
 * resource name; Android's generated integer ids are left abstract.
 */
module WeatherConditions {
  import opened Common

  datatype Drawable = Drawable(name: string)

  /** `getWeatherDrawable`. */
  function WeatherDrawable(icon: string): Option<Drawable> {
    match icon
    case "clear-day" => Some(Drawable("weather_clear_day"))
    case "clear-night" => Some(Drawable("weather_clear_night"))
    case "rain" => Some(Drawable("weather_rain"))
    case "snow" => Some(Drawable("weather_snow"))
    case "sleet" => Some(Drawable("weather_sleet"))
    case "wind" => Some(Drawable("weather_windy"))
    case "fog" => Some(Drawable("weather_fog"))
    case "cloudy" => Some(Drawable("weather_cloudy"))
    case "partly-cloudy-day" => Some(Drawable("weather_partly_cloudy_day"))
    case "partly-cloudy-night" => Some(Drawable("weather_partly_cloudy_night"))
    case _ => None
  }

  /** `LocationsAdapter.getConditionDrawable`, written out separately in the adapter. */
  function ConditionDrawable(condition: string): Option<Drawable> {
    match condition
    case "clear-day" => Some(Drawable("weather_clear_day"))
    case "clear-night" => Some(Drawable("weather_clear_night"))
    case "rain" => Some(Drawable("weather_rain"))
    case "snow" => Some(Drawable("weather_snow"))
    case "sleet" => Some(Drawable("weather_sleet"))
    case "wind" => Some(Drawable("weather_windy"))
    case "fog" => Some(Drawable("weather_fog"))
    case "cloudy" => Some(Drawable("weather_cloudy"))
    case "partly-cloudy-day" => Some(Drawable("weather_partly_cloudy_day"))
    case "partly-cloudy-night" => Some(Drawable("weather_partly_cloudy_night"))
    case _ => None
  }

  /** The icon names the API documents and the app recognises. */
  const KnownIcons: set<string> := {
    "clear-day", "clear-night", "rain", "snow", "sleet",
    "wind", "fog", "cloudy", "partly-cloudy-day", "partly-cloudy-night" }

  /** `name` with every '-' replaced by '_'. */
  function Underscored(name: string): (r: string)
    ensures |r| == |name|
    ensures forall i :: 0 <= i < |name| ==> r[i] == (if name[i] == '-' then '_' else name[i])
  {
    if name == [] then [] else [if name[0] == '-' then '_' else name[0]] + Underscored(name[1..])
  }

  /** The naming rule of the resources: "weather_" plus the icon name in snake case, except "wind". */
  function ResourceName(icon: string): string {
    if icon == "wind" then "weather_windy" else "weather_" + Underscored(icon)
  }

  /** Exactly the ten known icon names have a drawable. */
  lemma RecognisedIcons(icon: string)
    ensures WeatherDrawable(icon).Some? <==> icon in KnownIcons
  {
  }

  lemma KnownIconCount()
    ensures |KnownIcons| == 10
  {
    var l := ["clear-day", "clear-night", "rain", "snow", "sleet",
              "wind", "fog", "cloudy", "partly-cloudy-day", "partly-cloudy-night"];
    assert KnownIcons == {l[0]} + {l[1]} + {l[2]} + {l[3]} + {l[4]} + {l[5]} + {l[6]} + {l[7]} + {l[8]} + {l[9]};
    assert forall i, j :: 0 <= i < j < 10 ==> l[i] != l[j] by {
      assert l[0][0] != l[2][0] && l[0][0] != l[3][0];
    }
  }

  /** A string that agrees with `Underscored(name)` character by character is that string. */
  lemma UnderscoredIs(name: string, expected: string)
    requires |expected| == |name|
    requires forall i :: 0 <= i < |name| ==> expected[i] == (if name[i] == '-' then '_' else name[i])
    ensures Underscored(name) == expected
  {
  }

  /** One entry of the table follows the naming rule, given the snake-case form of its name. */
  lemma EntryFollowsNamingRule(icon: string, snake: string, resource: string)
    requires icon != "wind"
    requires WeatherDrawable(icon) == Some(Drawable(resource))
    requires resource == "weather_" + snake
    requires |snake| == |icon|
    requires forall i :: 0 <= i < |icon| ==> snake[i] == (if icon[i] == '-' then '_' else icon[i])
    ensures WeatherDrawable(icon) == Some(Drawable(ResourceName(icon)))
  {
    UnderscoredIs(icon, snake);
  }

  /** Every recognised icon maps to the resource its name prescribes. */
  lemma DrawableFollowsNamingRule(icon: string)
    requires icon in KnownIcons
    ensures WeatherDrawable(icon) == Some(Drawable(ResourceName(icon)))
  {
    if icon in {"clear-day", "clear-night", "rain"} {
      ClearAndRainFollowNamingRule(icon);
    } else if icon in {"snow", "sleet", "fog", "cloudy"} {
      SnowToCloudyFollowNamingRule(icon);
    } else if icon != "wind" {
      PartlyCloudyFollowsNamingRule(icon);
    }
  }

  lemma ClearAndRainFollowNamingRule(icon: string)
    requires icon in {"clear-day", "clear-night", "rain"}
    ensures WeatherDrawable(icon) == Some(Drawable(ResourceName(icon)))
  {
    if icon == "clear-day" { EntryFollowsNamingRule(icon, "clear_day", "weather_clear_day"); }
    else if icon == "clear-night" { EntryFollowsNamingRule(icon, "clear_night", "weather_clear_night"); }
    else { EntryFollowsNamingRule(icon, "rain", "weather_rain"); }
  }

  lemma SnowToCloudyFollowNamingRule(icon: string)
    requires icon in {"snow", "sleet", "fog", "cloudy"}
    ensures WeatherDrawable(icon) == Some(Drawable(ResourceName(icon)))
  {
    if icon == "snow" { EntryFollowsNamingRule(icon, "snow", "weather_snow"); }
    else if icon == "sleet" { EntryFollowsNamingRule(icon, "sleet", "weather_sleet"); }
    else if icon == "fog" { EntryFollowsNamingRule(icon, "fog", "weather_fog"); }
    else { EntryFollowsNamingRule(icon, "cloudy", "weather_cloudy"); }
  }

  lemma PartlyCloudyFollowsNamingRule(icon: string)
    requires icon in {"partly-cloudy-day", "partly-cloudy-night"}
    ensures WeatherDrawable(icon) == Some(Drawable(ResourceName(icon)))
  {
    if icon == "partly-cloudy-day" { EntryFollowsNamingRule(icon, "partly_cloudy_day", "weather_partly_cloudy_day"); }
    else { EntryFollowsNamingRule(icon, "partly_cloudy_night", "weather_partly_cloudy_night"); }
  }

  /** The adapter's private table agrees with the shared one on every input. */
  lemma AdapterTableAgrees(icon: string)
    ensures ConditionDrawable(icon) == WeatherDrawable(icon)
  {
  }
}
