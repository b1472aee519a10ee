/** The settings page: the settings record with its defaults, the merge of
    the saved copy over them, the single-key update every section uses, and
    which section the page shows. */
module SettingsPreferences {
  import opened JsText

  /** A JSON value, as `JSON.parse` produces it. */
  datatype Json =
    | JNull
    | JBool(b: bool)
    | JNumber(n: real)
    | JString(s: string)
    | JArray(items: seq<Json>)
    | JObject(fields: map<string, Json>)

  /** The settings object: a value per key. */
  type Settings = map<string, Json>

  /** JavaScript truthiness of a property read, `undefined` when absent. */
  predicate IsTruthy(v: Option<Json>)
  {
    match v
    case None => false
    case Some(JNull) => false
    case Some(JBool(b)) => b
    case Some(JNumber(n)) => n != 0.0
    case Some(JString(s)) => s != ""
    case Some(_) => true
  }

  function Lookup(s: Settings, key: string): (v: Option<Json>)
    ensures v.Some? <==> key in s
    ensures v.Some? ==> v.value == s[key]
  {
    if key in s then Some(s[key]) else None
  }

  // ---------------------------------------------------------------------------
  // Defaults

  /** The property names of the initial settings object, in the order they
      are written: the account group, the preference group and the privacy
      group. */
  const DefaultKeys: seq<string> := [
    "emailNotifications", "pushNotifications", "collectionUpdates", "appAnnouncements",
    "theme", "currency", "measurementUnit", "defaultSort", "language",
    "profileVisibility", "collectionVisibility", "showLocation", "allowMessages", "twoFactorEnabled"]

  /** The initial settings object. */
  const Defaults: Settings := map[
    "emailNotifications" := JBool(true), "pushNotifications" := JBool(true),
    "collectionUpdates" := JBool(true), "appAnnouncements" := JBool(false),
    "theme" := JString("system"), "currency" := JString("INR"),
    "measurementUnit" := JString("metric"), "defaultSort" := JString("newest"),
    "language" := JString("en"), "profileVisibility" := JString("public"),
    "collectionVisibility" := JString("private"), "showLocation" := JBool(true),
    "allowMessages" := JBool(true), "twoFactorEnabled" := JBool(false)]

  /** The initial value of each listed property, one property at a time,
      absent for any other name. */
  function DefaultValue(key: string): (v: Option<Json>)
  {
    match key
    case "emailNotifications" => Some(JBool(true))
    case "pushNotifications" => Some(JBool(true))
    case "collectionUpdates" => Some(JBool(true))
    case "appAnnouncements" => Some(JBool(false))
    case "theme" => Some(JString("system"))
    case "currency" => Some(JString("INR"))
    case "measurementUnit" => Some(JString("metric"))
    case "defaultSort" => Some(JString("newest"))
    case "language" => Some(JString("en"))
    case "profileVisibility" => Some(JString("public"))
    case "collectionVisibility" => Some(JString("private"))
    case "showLocation" => Some(JBool(true))
    case "allowMessages" => Some(JBool(true))
    case "twoFactorEnabled" => Some(JBool(false))
    case _ => None
  }

  /** The initial settings object holds exactly the listed keys, each with
      its value from the per-property table. */
  lemma DefaultsAreListed(key: string)
    ensures key in Defaults <==> key in DefaultKeys
    ensures key in Defaults <==> DefaultValue(key).Some?
    ensures Lookup(Defaults, key) == DefaultValue(key)
  {
  }

  /** Two-factor authentication starts off, so the first press of its
      toggle asks to set it up. */
  lemma TwoFactorOffByDefault()
    ensures Lookup(Defaults, "twoFactorEnabled") == Some(JBool(false))
    ensures !IsTruthy(Lookup(Defaults, "twoFactorEnabled"))
  {
    TwoFactorListed();
    DefaultsAreListed("twoFactorEnabled");
  }

  lemma TwoFactorListed()
    ensures "twoFactorEnabled" in DefaultKeys && DefaultValue("twoFactorEnabled") == Some(JBool(false))
  {
    assert DefaultKeys[13] == "twoFactorEnabled";
  }

  // ---------------------------------------------------------------------------
  // The single-key update

  /** `{ ...settings, [key]: value }`. */
  function UpdateSetting(s: Settings, key: string, value: Json): (r: Settings)
    ensures key in r && r[key] == value
    ensures r.Keys == s.Keys + {key}
    ensures forall k :: k in s && k != key ==> r[k] == s[k]
  {
    s[key := value]
  }

  /** Writing the same value twice is writing it once. */
  lemma UpdateIsIdempotent(s: Settings, key: string, value: Json)
    ensures UpdateSetting(UpdateSetting(s, key, value), key, value) == UpdateSetting(s, key, value)
  {
  }

  /** Of two writes to one key, the later wins. */
  lemma LastWriteWins(s: Settings, key: string, v: Json, w: Json)
    ensures UpdateSetting(UpdateSetting(s, key, v), key, w) == UpdateSetting(s, key, w)
  {
  }

  /** Writes to different keys commute. */
  lemma UpdatesCommute(s: Settings, k1: string, v1: Json, k2: string, v2: Json)
    requires k1 != k2
    ensures UpdateSetting(UpdateSetting(s, k1, v1), k2, v2) == UpdateSetting(UpdateSetting(s, k2, v2), k1, v1)
  {
  }

  // ---------------------------------------------------------------------------
  // Loading the saved copy

  /** The own enumerable properties `{ ...v }` copies: an object's fields,
      an array's or a string's positions, and nothing for the other
      values. */
  function Spread(v: Json): (r: map<string, Json>)
    ensures v.JObject? ==> r == v.fields
    ensures v.JArray? ==> |r.Keys| == |v.items|
    ensures v.JArray? ==> forall i :: 0 <= i < |v.items| ==> NatToString(i) in r && r[NatToString(i)] == v.items[i]
    ensures v.JString? ==> |r.Keys| == |v.s|
    ensures v.JString? ==> forall i :: 0 <= i < |v.s| ==> NatToString(i) in r && r[NatToString(i)] == JString([v.s[i]])
    ensures v.JNull? || v.JBool? || v.JNumber? ==> r == map[]
  {
    match v
    case JObject(fields) => fields
    case JArray(items) => Positions(items)
    case JString(s) => Positions(Characters(s))
    case _ => map[]
  }

  /** The one-character strings of a string, in order. */
  function Characters(s: string): (cs: seq<Json>)
    ensures |cs| == |s|
    ensures forall i :: 0 <= i < |s| ==> cs[i] == JString([s[i]])
  {
    if s == [] then [] else [JString([s[0]])] + Characters(s[1..])
  }

  /** The elements of a sequence under their positions' decimal names. */
  function Positions<T>(xs: seq<T>): (m: map<string, T>)
    ensures |m.Keys| == |xs|
    ensures forall i :: 0 <= i < |xs| ==> NatToString(i) in m && m[NatToString(i)] == xs[i]
  {
    var m := map i | 0 <= i < |xs| :: NatToString(i) := xs[i];
    PositionKeysCount(|xs|);
    assert m.Keys == PositionKeys(|xs|);
    m
  }

  /** The property names of the first n positions. */
  function PositionKeys(n: nat): (keys: set<string>)
  {
    set i | 0 <= i < n :: NatToString(i)
  }

  /** Different positions have different names, so n positions give n
      keys. */
  lemma {:induction false} PositionKeysCount(n: nat)
    ensures |PositionKeys(n)| == n
  {
    if n > 0 {
      PositionKeysCount(n - 1);
      assert PositionKeys(n) == PositionKeys(n - 1) + {NatToString(n - 1)};
      assert NatToString(n - 1) !in PositionKeys(n - 1) by {
        forall i | 0 <= i < n - 1 ensures NatToString(i) != NatToString(n - 1) {
          assert DigitsValue(NatToString(i)) == i;
        }
      }
    }
  }

  /** The mount effect: a truthy saved copy that parses is spread over the
      current settings; a missing or empty copy, or one that does not parse
      (`parsed` is None when `JSON.parse` throws), leaves them as they
      are. */
  function Load(prev: Settings, saved: Option<string>, parsed: Option<Json>): (r: Settings)
    ensures !Truthy(saved) || parsed.None? ==> r == prev
  {
    if Truthy(saved) && parsed.Some? then prev + Spread(parsed.value) else prev
  }

  /** Loading a saved object: its keys override, every other key keeps its
      value, and no key is lost. */
  lemma LoadOverridesSavedKeys(prev: Settings, saved: string, fields: map<string, Json>)
    requires saved != ""
    ensures var r := Load(prev, Some(saved), Some(JObject(fields)));
      && r.Keys == prev.Keys + fields.Keys
      && (forall k :: k in fields ==> r[k] == fields[k])
      && (forall k :: k in prev && k !in fields ==> r[k] == prev[k])
  {
  }

  // ---------------------------------------------------------------------------
  // What the page shows

  datatype Section = Account | Preferences | Privacy | Support

  /** `renderActiveSection`'s switch; an unknown id renders nothing. */
  function SectionFor(id: string): (s: Option<Section>)
    ensures s.None? <==> id !in {"account", "preferences", "privacy", "support"}
  {
    if id == "account" then Some(Account)
    else if id == "preferences" then Some(Preferences)
    else if id == "privacy" then Some(Privacy)
    else if id == "support" then Some(Support)
    else None
  }

  datatype Screen = Spinner | Nothing | SettingsScreen(section: Option<Section>)

  /** The page renders the spinner while the session loads, nothing when
      there is no user, and otherwise the active section. */
  function ScreenFor(loading: bool, hasUser: bool, activeSection: string): (s: Screen)
    ensures s == Spinner <==> loading
    ensures s == Nothing <==> !loading && !hasUser
    ensures s.SettingsScreen? ==> s.section == SectionFor(activeSection)
  {
    if loading then Spinner
    else if !hasUser then Nothing
    else SettingsScreen(SectionFor(activeSection))
  }

  /** The section the page opens on. */
  const InitialSection: string := "account"

  class Page {
    var settings: Settings
    var activeSection: string
    /** The copy last written to storage, as the settings it serialises. */
    var stored: Option<Settings>

    constructor ()
      ensures settings == Defaults
      ensures activeSection == InitialSection && stored == None
    {
      settings := Defaults;
      activeSection := InitialSection;
      stored := None;
    }

    /** The mount effect, which leaves storage alone. */
    method LoadSaved(saved: Option<string>, parsed: Option<Json>)
      modifies this`settings
      ensures settings == Load(old(settings), saved, parsed)
    {
      if Truthy(saved) {
        match parsed {
          case Some(v) =>
            settings := settings + Spread(v);
          case None =>
        }
      }
    }

    /** `updateSetting`: the new settings replace the old ones and are
        written to storage. */
    method Update(key: string, value: Json)
      modifies this`settings, this`stored
      ensures settings == UpdateSetting(old(settings), key, value)
      ensures stored == Some(settings)
    {
      settings := settings[key := value];
      stored := Some(settings);
    }

    method SelectSection(id: string)
      modifies this`activeSection
      ensures activeSection == id
    {
      activeSection := id;
    }
  }
}
