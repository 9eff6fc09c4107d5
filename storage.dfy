/** The extension's persistent store (`chrome.storage.local` as used by
    `src/utils/storage.js`): a map from keys to JSON values, the default
    configuration, the getters that merge stored values over the defaults,
    and the writers. */
module Storage {
  import opened Wrappers

  /** A JSON value as the store holds it. */
  datatype Json =
    | JNull
    | JBool(b: bool)
    | JNum(n: real)
    | JStr(s: string)
    | JArr(items: seq<Json>)
    | JObj(fields: map<string, Json>)

  /** JavaScript truthiness of a stored value. */
  predicate Truthy(v: Json) {
    match v
    case JNull => false
    case JBool(b) => b
    case JNum(n) => n != 0.0
    case JStr(s) => s != ""
    case JArr(_) => true
    case JObj(_) => true
  }

  /** The store's keys used here. */
  const ConfigKey := "config"
  const ReadTopicsKey := "readTopicIds"
  const UserSettingsKey := "userSettings"

  /** `DEFAULT_CONFIG`. */
  function DefaultConfig(): (m: map<string, Json>)
    ensures "sortFilter" !in m
  {
    map[
      "pollingInterval" := JNum(30.0),
      "lowDataMode" := JBool(false),
      "blockCategories" := JArr([]),
      "keywordBlacklist" := JStr(""),
      "qualityFilter" := JBool(false),
      "hoverPreview" := JBool(true),
      "clickBehavior" := JStr("newTab"),
      "readStatusAction" := JStr("fade"),
      "showBadge" := JBool(true),
      "notifyKeywords" := JStr(""),
      "fontSize" := JStr("medium"),
      "compactMode" := JBool(false),
      "themeMode" := JStr("system"),
      "syncReadStatus" := JBool(true),
      "aiEnabled" := JBool(true),
      "aiApiUrl" := JStr(""),
      "aiApiKey" := JStr(""),
      "aiModel" := JStr("MiniMax-M2.1"),
      "aiTemperature" := JNum(0.7),
      "aiSummaryDepth" := JStr("smart")
    ]
  }

  /** `{ ...base, ...over }`: a shallow key union where `over` wins. */
  function Spread(base: map<string, Json>, over: map<string, Json>): (r: map<string, Json>)
    ensures r.Keys == base.Keys + over.Keys
    ensures forall k :: k in over ==> r[k] == over[k]
    ensures forall k :: k in base && k !in over ==> r[k] == base[k]
  {
    base + over
  }

  /** The own keys an object spread copies from a stored value: an object's
      fields; other values are taken to contribute no keys. */
  function SpreadKeys(v: Json): map<string, Json> {
    if v.JObj? then v.fields else map[]
  }

  /** `getConfig()`: the stored configuration spread over the defaults, or a
      copy of the defaults when none (or a falsy value) is stored. */
  function GetConfig(store: map<string, Json>): (r: map<string, Json>)
    ensures ConfigKey !in store ==> r == DefaultConfig()
    ensures DefaultConfig().Keys <= r.Keys
  {
    if ConfigKey in store && Truthy(store[ConfigKey])
    then Spread(DefaultConfig(), SpreadKeys(store[ConfigKey]))
    else DefaultConfig()
  }

  /** A stored configuration object overrides exactly its own keys; every
      other default survives; nothing else is added. */
  lemma GetConfigMerge(store: map<string, Json>, stored: map<string, Json>)
    requires ConfigKey in store && store[ConfigKey] == JObj(stored)
    ensures GetConfig(store).Keys == DefaultConfig().Keys + stored.Keys
    ensures forall k :: k in stored ==> GetConfig(store)[k] == stored[k]
    ensures forall k :: k in DefaultConfig() && k !in stored ==> GetConfig(store)[k] == DefaultConfig()[k]
  {
  }

  /** No configuration ever carries a `sortFilter` key unless the stored object has one. */
  lemma GetConfigHasNoSortFilter(store: map<string, Json>)
    requires ConfigKey in store ==> "sortFilter" !in SpreadKeys(store[ConfigKey])
    ensures "sortFilter" !in GetConfig(store)
  {
  }

  /** `new Set(values)`: the values with later duplicates dropped, first
      occurrences kept in order (a Set iterates in insertion order). */
  function Dedup(s: seq<Json>): (r: seq<Json>)
    ensures forall x :: x in r <==> x in s
    ensures NoDup(r)
    ensures |r| <= |s|
  {
    if s == [] then []
    else
      var d := Dedup(s[..|s| - 1]);
      assert s == s[..|s| - 1] + [s[|s| - 1]];
      if s[|s| - 1] in d then d else d + [s[|s| - 1]]
  }

  /** No value occurs twice. */
  predicate NoDup<T(==)>(s: seq<T>) {
    forall i, j :: 0 <= i < j < |s| ==> s[i] != s[j]
  }

  /** A sequence without duplicates is its own set. */
  lemma {:induction false} DedupNoDup(s: seq<Json>)
    requires NoDup(s)
    ensures Dedup(s) == s
  {
    if s != [] {
      var init := s[..|s| - 1];
      assert NoDup(init);
      DedupNoDup(init);
      assert forall i :: 0 <= i < |init| ==> init[i] == s[i];
      assert s[|s| - 1] !in init;
      assert init + [s[|s| - 1]] == s;
    }
  }

  /** How the read set is written: `Array.from(readTopicIds)`. */
  function EncodeIds(ids: seq<int>): (v: Json)
    ensures v.JArr? && |v.items| == |ids|
    ensures forall i :: 0 <= i < |ids| ==> v.items[i] == JNum(ids[i] as real)
  {
    JArr(seq(|ids|, i requires 0 <= i < |ids| => JNum(ids[i] as real)))
  }

  /** What iterating a string yields: its characters as one-character strings. */
  function Chars(s: string): (r: seq<Json>)
    ensures |r| == |s| && forall i :: 0 <= i < |s| ==> r[i] == JStr([s[i]])
  {
    seq(|s|, i requires 0 <= i < |s| => JStr([s[i]]))
  }

  /** `getReadTopics()`: an empty set when nothing (or a falsy value) is
      stored; an array gives its values without duplicates.  `None` stands for
      a stored value `new Set` rejects. */
  function GetReadTopics(store: map<string, Json>): (r: Option<seq<Json>>)
    ensures ReadTopicsKey !in store ==> r == Some([])
    ensures ReadTopicsKey in store && store[ReadTopicsKey].JArr? ==>
              r.Some? && NoDup(r.value)
              && forall x :: x in r.value <==> x in store[ReadTopicsKey].items
  {
    if ReadTopicsKey !in store || !Truthy(store[ReadTopicsKey]) then Some([])
    else match store[ReadTopicsKey]
      case JArr(items) => Some(Dedup(items))
      case JStr(s) => Some(Dedup(Chars(s)))
      case _ => None
  }

  /** `getUserSettings()`: the stored settings, or `null` when absent or falsy. */
  function GetUserSettings(store: map<string, Json>): (r: Json)
    ensures UserSettingsKey !in store ==> r == JNull
    ensures UserSettingsKey in store && Truthy(store[UserSettingsKey]) ==> r == store[UserSettingsKey]
    ensures !Truthy(r) ==> r == JNull
  {
    if UserSettingsKey in store && Truthy(store[UserSettingsKey]) then store[UserSettingsKey] else JNull
  }

  /** What `getAllData()` returns. */
  datatype AllData = AllData(config: map<string, Json>, readTopicIds: Option<seq<Json>>, userSettings: Json)

  /** `getAllData()`: the three getters' results read from the same store. */
  function GetAllData(store: map<string, Json>): (r: AllData)
    ensures ConfigKey !in store ==> r.config == DefaultConfig()
    ensures ReadTopicsKey !in store ==> r.readTopicIds == Some([])
    ensures UserSettingsKey !in store ==> r.userSettings == JNull
  {
    var config := if ConfigKey in store && Truthy(store[ConfigKey])
                  then Spread(DefaultConfig(), SpreadKeys(store[ConfigKey])) else DefaultConfig();
    var ids := if ReadTopicsKey in store && Truthy(store[ReadTopicsKey])
               then (match store[ReadTopicsKey]
                     case JArr(items) => Some(Dedup(items))
                     case JStr(s) => Some(Dedup(Chars(s)))
                     case _ => None)
               else Some([]);
    var settings := if UserSettingsKey in store && Truthy(store[UserSettingsKey]) then store[UserSettingsKey] else JNull;
    AllData(config, ids, settings)
  }

  /** `getAllData()` agrees with the individual getters on every store. */
  lemma GetAllDataAgrees(store: map<string, Json>)
    ensures GetAllData(store) == AllData(GetConfig(store), GetReadTopics(store), GetUserSettings(store))
  {
  }

  /** The store itself, written in place by the savers. */
  class LocalStore {
    var data: map<string, Json>

    constructor(initial: map<string, Json>)
      ensures data == initial
    {
      data := initial;
    }

    /** `saveConfig(config)`: replaces the stored configuration. */
    method SaveConfig(config: map<string, Json>)
      modifies this
      ensures data == old(data)[ConfigKey := JObj(config)]
      ensures GetConfig(data) == Spread(DefaultConfig(), config)
    {
      data := data[ConfigKey := JObj(config)];
    }

    /** `saveReadTopics(ids)`: replaces the stored read set; reading it back
        gives the same ids in the same order. */
    method SaveReadTopics(ids: seq<int>)
      requires NoDup(ids)
      modifies this
      ensures data == old(data)[ReadTopicsKey := EncodeIds(ids)]
      ensures GetReadTopics(data) == Some(EncodeIds(ids).items)
    {
      data := data[ReadTopicsKey := EncodeIds(ids)];
      EncodedNoDup(ids);
      DedupNoDup(EncodeIds(ids).items);
    }

    /** `saveUserSettings(settings)`. */
    method SaveUserSettings(settings: Json)
      modifies this
      ensures data == old(data)[UserSettingsKey := settings]
    {
      data := data[UserSettingsKey := settings];
    }
  }

  /** Distinct ids encode to distinct values. */
  lemma EncodedNoDup(ids: seq<int>)
    requires NoDup(ids)
    ensures NoDup(EncodeIds(ids).items)
  {
    var v := EncodeIds(ids).items;
    forall i, j | 0 <= i < j < |v| ensures v[i] != v[j] {
      assert v[i] == JNum(ids[i] as real) && v[j] == JNum(ids[j] as real);
    }
  }

  /** Saving the read set and reading it back is the identity (the round trip
      the panels rely on between sessions). */
  lemma ReadTopicsRoundTrip(store: map<string, Json>, ids: seq<int>)
    requires NoDup(ids)
    ensures GetReadTopics(store[ReadTopicsKey := EncodeIds(ids)]) == Some(EncodeIds(ids).items)
  {
    EncodedNoDup(ids);
    DedupNoDup(EncodeIds(ids).items);
  }
}
