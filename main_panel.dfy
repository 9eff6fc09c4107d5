/** The modular side panel of v4.5 (`src/sidepanel/main.js`): its
    module-level state and the handlers that reassign it step by step.  The
    decisions about what is shown are `FeedRules`' (through `ModularRender`,
    which fails under `'hide'`); requests go through the `api.js` copy of the
    gateway.  Form values and the clock are parameters. */
module MainPanel {
  import opened Wrappers
  import opened Topics
  import opened FeedRules
  import opened JsCollections
  import opened Gateway
  import Storage
  import Text

  /** The message of the `ReferenceError` that `renderTopics` raises under
      `'hide'`. */
  const ReferenceErrorMessage := "readTopicIds is not defined"

  /** The list `loadTopics()` asks for: `fetchTopics('latest', null, ...)`. */
  const LatestEndpoint := "/latest.json"

  /** `fetchTopics` with `'latest'` picks the latest list whatever the
      sub-category, so the category selection never reaches the request. */
  lemma LatestWhateverSelection(sub: Option<int>)
    ensures TopicsEndpoint("latest", sub) == LatestEndpoint
  {
  }

  /** What `fetchTopics('latest', null, CATEGORIES)` resolves to when the
      requests are answered by `net`. */
  function LatestPage(net: nat -> HttpReply): FetchResult {
    FetchWithRetry(Api, LatestEndpoint, DefaultRetries, net, 0).result
  }

  /** What the topic area shows after a load. */
  datatype Display = TopicListShown(rendered: Rendered) | EmptyNotice | LoadFailed(message: string)

  /** `parseInt(pollingInterval.value) || 60`: `NaN` and `0` fall back to a
      minute; any other number, negative ones included, is kept. */
  function IntervalOrDefault(parsed: Option<int>): (n: int)
    ensures n != 0
    ensures parsed.Some? && parsed.value != 0 ==> n == parsed.value
    ensures parsed.None? || parsed == Some(0) ==> n == 60
  {
    if parsed.Some? && parsed.value != 0 then parsed.value else 60
  }

  /** Every slug of `s` names a category of the table. */
  predicate AllKnown(s: seq<string>) {
    forall k :: 0 <= k < |s| ==> s[k] in AllSlugs()
  }

  /** `initCategoryFilter()`'s choice: the stored selection when it is
      non-empty, names only known categories and has more than one entry;
      otherwise every category. */
  function InitialSelection(stored: Option<seq<string>>): (r: seq<string>)
    ensures |r| > 1 && AllKnown(r)
    ensures stored.Some? && |stored.value| > 1 && AllKnown(stored.value) ==> r == stored.value
    ensures !(stored.Some? && |stored.value| > 1 && AllKnown(stored.value)) ==> r == AllSlugs()
  {
    assert |AllSlugs()| == 11;
    if stored.Some? && |stored.value| > 0 && AllKnown(stored.value) && |stored.value| > 1 then stored.value
    else AllSlugs()
  }

  /** A click on a category tag of the feed: a selected slug is dropped only
      while more than one is selected; an unselected one is appended. */
  function TagToggle(selected: seq<string>, slug: string): (r: seq<string>)
    ensures slug !in selected ==> r == selected + [slug]
    ensures slug in selected && |selected| <= 1 ==> r == selected
    ensures slug in selected && |selected| > 1 ==> forall x :: x in r <==> x in selected && x != slug
  {
    if slug in selected then
      if |selected| > 1 then Without(selected, slug) else selected
    else selected + [slug]
  }

  /** Starting from a selection without repeats, a toggle never leaves the
      selection empty and never repeats a slug. */
  lemma TagToggleNeverEmpties(selected: seq<string>, slug: string)
    requires Storage.NoDup(selected)
    ensures TagToggle(selected, slug) != []
    ensures Storage.NoDup(TagToggle(selected, slug))
  {
    WithoutNoDup(selected, slug);
    if slug !in selected {
      assert selected + [slug] != [];
    }
  }

  /** A stored selection that repeats one slug passes the start-up check,
      and one click on that slug then empties the selection. */
  lemma RepeatedStoredSlugCanEmpty()
    ensures InitialSelection(Some(["develop", "develop"])) == ["develop", "develop"]
    ensures TagToggle(["develop", "develop"], "develop") == []
  {
    assert AllSlugs()[0] == "develop";
    var s := ["develop", "develop"];
    assert AllKnown(s);
    assert "develop" in s;
  }

  /** The module-level state of `main.js`.  `config.blockCategories` is the
      array object `blockCategories` and `defaultConfig.blockCategories` is
      `defaultBlock`; `selectedSlugs` is `window.selectedCategorySlugs` and
      `savedSelection` the `selectedSlugs` of the `categoryFilterState` item
      of `localStorage`.  `refreshTimer` holds the interval's period in
      milliseconds while one is set. */
  class Panel {
    var allTopics: seq<Topic>
    var usersMap: Option<map<int, UserInfo>>
    var readTopicIds: seq<int>
    var config: FeedConfig
    var blockCategories: StringArray
    const defaultBlock: StringArray
    var selectedSlugs: Option<seq<string>>
    var savedSelection: Option<seq<string>>
    var refreshTimer: Option<int>
    var autoRefreshEnabled: bool
    /** `chrome.storage.local`. */
    const store: Storage.LocalStore

    /** The read set is a set: no id twice. */
    ghost predicate Valid()
      reads this
    {
      Storage.NoDup(readTopicIds)
    }

    /** What `renderTopics(allTopics, config, readTopicIds, ...)` shows and
        counts, or `None` when it raises. */
    function Rendering(): Option<Rendered>
      reads this, blockCategories
    {
      ModularRender(allTopics, blockCategories.items, config, readTopicIds)
    }

    /** The state when the module's top level has run: `config` is a shallow
        copy of `defaultConfig`, sharing its `blockCategories` array. */
    constructor(store: Storage.LocalStore, saved: Option<seq<string>>)
      ensures Valid()
      ensures allTopics == [] && usersMap.None? && readTopicIds == []
      ensures config == DefaultFeedConfig && blockCategories == defaultBlock && defaultBlock.items == [] && fresh(defaultBlock)
      ensures selectedSlugs.None? && savedSelection == saved && refreshTimer.None? && autoRefreshEnabled
      ensures this.store == store
    {
      allTopics := [];
      usersMap := None;
      readTopicIds := [];
      config := DefaultFeedConfig;
      var empty := new StringArray([]);
      defaultBlock := empty;
      blockCategories := empty;
      selectedSlugs := None;
      savedSelection := saved;
      refreshTimer := None;
      autoRefreshEnabled := true;
      this.store := store;
    }

    /** `loadTopics()`: always the latest list (`LatestWhateverSelection`).
        Only a successful, non-empty page replaces `allTopics`
        (and then notifies and renders, where a failing render is reported
        as a load failure); an empty page shows a notice and a failure its
        message, and both leave the list as it was. */
    method LoadTopics(net: nat -> HttpReply, now: int) returns (notified: seq<string>, display: Display)
      modifies this
      ensures LatestPage(net).success && LatestPage(net).topics != [] ==>
                allTopics == LatestPage(net).topics &&
                usersMap == (if LatestPage(net).users.Some? then Some(UsersMap(LatestPage(net).users.value)) else old(usersMap)) &&
                notified == Notifications(allTopics, config, readTopicIds, now) &&
                display == (if Rendering().Some? then TopicListShown(Rendering().value) else LoadFailed(ReferenceErrorMessage))
      ensures LatestPage(net).success && LatestPage(net).topics == [] ==>
                allTopics == old(allTopics) && usersMap == old(usersMap) && notified == [] && display == EmptyNotice
      ensures !LatestPage(net).success ==>
                allTopics == old(allTopics) && usersMap == old(usersMap) && notified == [] &&
                display == LoadFailed(if LatestPage(net).error.Some? && LatestPage(net).error.value != ""
                                      then LatestPage(net).error.value else "获取数据失败")
      ensures readTopicIds == old(readTopicIds) && config == old(config) && blockCategories == old(blockCategories)
      ensures selectedSlugs == old(selectedSlugs) && savedSelection == old(savedSelection) && refreshTimer == old(refreshTimer)
      ensures autoRefreshEnabled == old(autoRefreshEnabled)
    {
      notified, display := ApplyPage(LatestPage(net), now);
    }

    /** The part of `loadTopics` after the page has arrived: store and show
        the topics, show the empty notice, or report the error. */
    method ApplyPage(res: FetchResult, now: int) returns (notified: seq<string>, display: Display)
      modifies this
      ensures res.success && res.topics != [] ==>
                allTopics == res.topics &&
                usersMap == (if res.users.Some? then Some(UsersMap(res.users.value)) else old(usersMap)) &&
                notified == Notifications(allTopics, config, readTopicIds, now) &&
                display == (if Rendering().Some? then TopicListShown(Rendering().value) else LoadFailed(ReferenceErrorMessage))
      ensures res.success && res.topics == [] ==>
                allTopics == old(allTopics) && usersMap == old(usersMap) && notified == [] && display == EmptyNotice
      ensures !res.success ==>
                allTopics == old(allTopics) && usersMap == old(usersMap) && notified == [] &&
                display == LoadFailed(if res.error.Some? && res.error.value != "" then res.error.value else "获取数据失败")
      ensures readTopicIds == old(readTopicIds) && config == old(config) && blockCategories == old(blockCategories)
      ensures selectedSlugs == old(selectedSlugs) && savedSelection == old(savedSelection) && refreshTimer == old(refreshTimer)
      ensures autoRefreshEnabled == old(autoRefreshEnabled)
    {
      notified := [];
      if res.success && |res.topics| > 0 {
        StoreUsers(res.users);
        allTopics := res.topics;
        notified := Notifications(allTopics, config, readTopicIds, now);
        var rendered := Rendering();
        display := if rendered.Some? then TopicListShown(rendered.value) else LoadFailed(ReferenceErrorMessage);
      } else if res.success && |res.topics| == 0 {
        display := EmptyNotice;
      } else {
        display := LoadFailed(if res.error.Some? && res.error.value != "" then res.error.value else "获取数据失败");
      }
    }

    /** `if (data.users) usersMap = new Map(...)`: only a page that carries
        users replaces the map. */
    method StoreUsers(users: Option<seq<UserInfo>>)
      modifies this
      ensures usersMap == if users.Some? then Some(UsersMap(users.value)) else old(usersMap)
      ensures allTopics == old(allTopics) && readTopicIds == old(readTopicIds) && config == old(config)
      ensures blockCategories == old(blockCategories) && selectedSlugs == old(selectedSlugs)
      ensures savedSelection == old(savedSelection) && refreshTimer == old(refreshTimer)
      ensures autoRefreshEnabled == old(autoRefreshEnabled)
    {
      if users.Some? {
        usersMap := Some(UsersMap(users.value));
      }
    }

    /** `initCategoryFilter()`: takes the stored selection when it is usable
        and otherwise selects every category, writing that choice back only
        when it had to replace the stored one. */
    method InitCategoryFilter()
      modifies this
      ensures selectedSlugs == Some(InitialSelection(old(savedSelection)))
      ensures |selectedSlugs.value| > 1
      ensures savedSelection ==
                if old(savedSelection).Some? && |old(savedSelection).value| > 1 && AllKnown(old(savedSelection).value)
                then old(savedSelection)
                else if old(savedSelection).None? || old(savedSelection) == Some([]) then old(savedSelection)
                else Some(AllSlugs())
      ensures allTopics == old(allTopics) && readTopicIds == old(readTopicIds) && config == old(config)
      ensures blockCategories == old(blockCategories) && refreshTimer == old(refreshTimer) && usersMap == old(usersMap)
      ensures autoRefreshEnabled == old(autoRefreshEnabled)
    {
      var defaultSlugs := AllSlugs();
      assert |defaultSlugs| == 11;
      var selected := if savedSelection.Some? && |savedSelection.value| > 0 then savedSelection.value else defaultSlugs;
      if !AllKnown(selected) || |selected| <= 1 {
        selected := defaultSlugs;
        savedSelection := Some(defaultSlugs);
      }
      selectedSlugs := Some(selected);
    }

    /** `handleCategoryTagToggle(slug)`: toggles the slug in the current
        selection (every category before the filter was set up), stores the
        result, and ends with `handleManualRefresh()`, that is `loadTopics()`,
        whose effects are those of `LoadTopics`. */
    method HandleCategoryTagToggle(slug: string, net: nat -> HttpReply, now: int)
      returns (notified: seq<string>, display: Display)
      modifies this
      ensures selectedSlugs == Some(TagToggle(old(selectedSlugs).GetOr(AllSlugs()), slug))
      ensures savedSelection == selectedSlugs
      ensures LatestPage(net).success && LatestPage(net).topics != [] ==>
                allTopics == LatestPage(net).topics &&
                usersMap == (if LatestPage(net).users.Some? then Some(UsersMap(LatestPage(net).users.value)) else old(usersMap)) &&
                notified == Notifications(allTopics, config, readTopicIds, now) &&
                display == (if Rendering().Some? then TopicListShown(Rendering().value) else LoadFailed(ReferenceErrorMessage))
      ensures LatestPage(net).success && LatestPage(net).topics == [] ==>
                allTopics == old(allTopics) && usersMap == old(usersMap) && notified == [] && display == EmptyNotice
      ensures !LatestPage(net).success ==>
                allTopics == old(allTopics) && usersMap == old(usersMap) && notified == [] &&
                display == LoadFailed(if LatestPage(net).error.Some? && LatestPage(net).error.value != ""
                                      then LatestPage(net).error.value else "获取数据失败")
      ensures readTopicIds == old(readTopicIds) && config == old(config) && blockCategories == old(blockCategories)
      ensures refreshTimer == old(refreshTimer) && autoRefreshEnabled == old(autoRefreshEnabled)
    {
      ToggleSelection(slug);
      notified, display := LoadTopics(net, now);
    }

    /** The first half of `handleCategoryTagToggle`: toggle the slug in the
        selection and store the new selection. */
    method ToggleSelection(slug: string)
      modifies this
      ensures selectedSlugs == Some(TagToggle(old(selectedSlugs).GetOr(AllSlugs()), slug))
      ensures savedSelection == selectedSlugs
      ensures allTopics == old(allTopics) && usersMap == old(usersMap) && readTopicIds == old(readTopicIds)
      ensures config == old(config) && blockCategories == old(blockCategories)
      ensures refreshTimer == old(refreshTimer) && autoRefreshEnabled == old(autoRefreshEnabled)
    {
      var current := if selectedSlugs.Some? then selectedSlugs.value else AllSlugs();
      var selected := TagToggle(current, slug);
      selectedSlugs := Some(selected);
      savedSelection := Some(selected);
    }

    /** `handleCategoryToggle(slug)`: unblocking builds a new array, blocking
        pushes onto the current one in place, so after a reset the push also
        lands in `defaultConfig.blockCategories`. */
    method HandleCategoryToggle(slug: string) returns (shown: Option<Rendered>)
      modifies this, blockCategories
      ensures slug in old(blockCategories.items) ==>
                fresh(blockCategories) && blockCategories.items == Without(old(blockCategories.items), slug)
      ensures slug !in old(blockCategories.items) ==>
                blockCategories == old(blockCategories) && blockCategories.items == old(blockCategories.items) + [slug]
      ensures defaultBlock.items ==
                if defaultBlock == old(blockCategories) && slug !in old(blockCategories.items)
                then old(defaultBlock.items) + [slug] else old(defaultBlock.items)
      ensures config == old(config) && allTopics == old(allTopics) && readTopicIds == old(readTopicIds)
      ensures selectedSlugs == old(selectedSlugs) && refreshTimer == old(refreshTimer) && usersMap == old(usersMap)
      ensures savedSelection == old(savedSelection)
      ensures shown == Rendering()
      ensures autoRefreshEnabled == old(autoRefreshEnabled)
    {
      if slug in blockCategories.items {
        var kept := new StringArray(Without(blockCategories.items, slug));
        blockCategories := kept;
      } else {
        blockCategories.Push(slug);
      }
      shown := ModularRender(allTopics, blockCategories.items, config, readTopicIds);
    }

    /** `markAsRead(id, postNumber)`: adds exactly `id`, reports to the site
        only when sync is on and the post number is truthy, stores the whole
        set and renders (which fails under `'hide'`, after the set is
        stored). */
    method MarkAsRead(id: int, postNumber: Option<int>) returns (report: Option<(int, int)>, shown: Option<Rendered>)
      requires Valid()
      modifies this, store
      ensures Valid()
      ensures readTopicIds == SetAdd(old(readTopicIds), id)
      ensures store.data == old(store.data)[Storage.ReadTopicsKey := Storage.EncodeIds(readTopicIds)]
      ensures report.Some? <==> config.syncReadStatus && postNumber.Some? && postNumber.value != 0
      ensures report.Some? ==> report.value == (id, postNumber.value)
      ensures forall t: Topic :: t.id == id ==> IsRead(t, readTopicIds, config.syncReadStatus)
      ensures allTopics == old(allTopics) && config == old(config) && blockCategories == old(blockCategories)
      ensures selectedSlugs == old(selectedSlugs) && refreshTimer == old(refreshTimer) && usersMap == old(usersMap)
      ensures savedSelection == old(savedSelection)
      ensures shown == Rendering()
      ensures autoRefreshEnabled == old(autoRefreshEnabled)
    {
      readTopicIds := SetAdd(readTopicIds, id);
      report := None;
      if config.syncReadStatus && postNumber.Some? && postNumber.value != 0 {
        report := Some((id, postNumber.value));
      }
      store.SaveReadTopics(readTopicIds);
      shown := ModularRender(allTopics, blockCategories.items, config, readTopicIds);
    }

    /** `updateConfigFromUI()`: the four form fields replace their settings,
        with `0` and `NaN` read as a 60 s interval.  The timer is not
        restarted, so a new interval waits for the next start. */
    method UpdateConfigFromUI(interval: Option<int>, keywordBlacklist: string, fontSize: string, compactMode: bool)
      returns (shown: Option<Rendered>)
      modifies this
      ensures config == old(config).(pollingInterval := Some(IntervalOrDefault(interval)),
                                     keywordBlacklist := keywordBlacklist, fontSize := fontSize,
                                     compactMode := compactMode)
      ensures config.pollingInterval.Some? && config.pollingInterval.value != 0
      ensures refreshTimer == old(refreshTimer)
      ensures allTopics == old(allTopics) && readTopicIds == old(readTopicIds) && blockCategories == old(blockCategories)
      ensures selectedSlugs == old(selectedSlugs) && savedSelection == old(savedSelection) && usersMap == old(usersMap)
      ensures shown == Rendering()
      ensures autoRefreshEnabled == old(autoRefreshEnabled)
    {
      config := config.(pollingInterval := Some(IntervalOrDefault(interval)),
                        keywordBlacklist := keywordBlacklist, fontSize := fontSize, compactMode := compactMode);
      shown := ModularRender(allTopics, blockCategories.items, config, readTopicIds);
    }

    /** `handleAIConfigChange(newConfig)`, with `newConfig` as the AI settings
        form builds it: the switch (off when the box is missing), the URL and
        the key trimmed, the model or `'gpt-3.5-turbo'` when none is chosen,
        and the chosen depth or `'smart'` when none is.  These settings
        replace their values and nothing else in the panel changes; the
        temperature is not modelled. */
    method HandleAIConfigChange(enabledBox: bool, urlField: string, keyField: string, modelField: string,
                                depthField: string)
      modifies this
      ensures config == old(config).(aiEnabled := enabledBox, aiApiUrl := Text.Trim(urlField),
                                     aiApiKey := Text.Trim(keyField),
                                     aiModel := if modelField == "" then "gpt-3.5-turbo" else modelField,
                                     aiSummaryDepth := Some(if depthField == "" then "smart" else depthField))
      ensures config.aiSummaryDepth.Some? && config.aiSummaryDepth.value != ""
      ensures config.aiModel != ""
      ensures allTopics == old(allTopics) && readTopicIds == old(readTopicIds) && blockCategories == old(blockCategories)
      ensures selectedSlugs == old(selectedSlugs) && savedSelection == old(savedSelection) && usersMap == old(usersMap)
      ensures refreshTimer == old(refreshTimer) && autoRefreshEnabled == old(autoRefreshEnabled)
    {
      var depth := if depthField == "" then "smart" else depthField;
      var model := if modelField == "" then "gpt-3.5-turbo" else modelField;
      config := config.(aiEnabled := enabledBox, aiApiUrl := Text.Trim(urlField), aiApiKey := Text.Trim(keyField),
                        aiModel := model, aiSummaryDepth := Some(depth));
    }

    /** `stopAutoRefresh()`: clears the interval if one is set. */
    method StopAutoRefresh()
      modifies this
      ensures refreshTimer.None?
      ensures allTopics == old(allTopics) && readTopicIds == old(readTopicIds) && config == old(config)
      ensures blockCategories == old(blockCategories) && selectedSlugs == old(selectedSlugs)
      ensures savedSelection == old(savedSelection) && usersMap == old(usersMap)
      ensures autoRefreshEnabled == old(autoRefreshEnabled)
    {
      if refreshTimer.Some? {
        refreshTimer := None;
      }
    }

    /** `startAutoRefresh()`: always stops the old timer first, and sets a new
        one (every `pollingInterval` seconds) only for a positive interval. */
    method StartAutoRefresh()
      modifies this
      ensures refreshTimer.Some? <==> config.pollingInterval.Some? && config.pollingInterval.value > 0
      ensures refreshTimer.Some? ==> refreshTimer.value == config.pollingInterval.value * 1000
      ensures allTopics == old(allTopics) && readTopicIds == old(readTopicIds) && config == old(config)
      ensures blockCategories == old(blockCategories) && selectedSlugs == old(selectedSlugs)
      ensures savedSelection == old(savedSelection) && usersMap == old(usersMap)
      ensures autoRefreshEnabled == old(autoRefreshEnabled)
    {
      StopAutoRefresh();
      if config.pollingInterval.Some? && config.pollingInterval.value > 0 {
        refreshTimer := Some(config.pollingInterval.value * 1000);
      }
    }

    /** The reset button once `confirm(...)` has returned true (cancelling
        changes nothing).  `config` becomes a shallow copy of `defaultConfig`,
        but `updateConfigFromUI()` runs before the form is refilled, so the
        interval, blacklist, font size and compact mode still shown in the
        form are written straight back; the category selection goes back to
        every category without being stored. */
    method Reset(formInterval: Option<int>, formBlacklist: string, formFontSize: string, formCompact: bool)
      returns (shown: Option<Rendered>)
      modifies this
      ensures config == DefaultFeedConfig.(pollingInterval := Some(IntervalOrDefault(formInterval)),
                                           keywordBlacklist := formBlacklist, fontSize := formFontSize,
                                           compactMode := formCompact)
      ensures blockCategories == defaultBlock
      ensures selectedSlugs == Some(AllSlugs()) && savedSelection.None?
      ensures autoRefreshEnabled ==>
                (refreshTimer.Some? <==> config.pollingInterval.value > 0)
      ensures autoRefreshEnabled && refreshTimer.Some? ==> refreshTimer.value == config.pollingInterval.value * 1000
      ensures !autoRefreshEnabled ==> refreshTimer == old(refreshTimer)
      ensures allTopics == old(allTopics) && readTopicIds == old(readTopicIds) && usersMap == old(usersMap)
      ensures autoRefreshEnabled == old(autoRefreshEnabled)
      ensures shown == Rendering()
    {
      config := DefaultFeedConfig;
      blockCategories := defaultBlock;
      var _ := UpdateConfigFromUI(formInterval, formBlacklist, formFontSize, formCompact);
      savedSelection := None;
      InitCategoryFilter();
      shown := ModularRender(allTopics, blockCategories.items, config, readTopicIds);
      if autoRefreshEnabled {
        StartAutoRefresh();
      }
    }
  }

  /** With the form still showing a blacklist, pressing reset keeps it: the
      reset configuration filters exactly as before. */
  method ResetKeepsFormBlacklist(store: Storage.LocalStore, blacklist: string) returns (kept: string)
    ensures kept == blacklist
  {
    var panel := new Panel(store, None);
    var _ := panel.UpdateConfigFromUI(Some(30), blacklist, "medium", false);
    var _ := panel.Reset(Some(30), panel.config.keywordBlacklist, "medium", false);
    kept := panel.config.keywordBlacklist;
  }
}
