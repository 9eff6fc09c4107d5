/** The single-file side panel of v4.1 (`sidepanel.js`): its module-level
    state (the topic list, the read set, the configuration and its shared
    `blockCategories` array, the progress timer) and the handlers that change
    it.  The feed decisions themselves are those of `FeedRules`; the network
    is the reply function of `Gateway`, and the user's form values, the
    sort drop-down and the clock are parameters. */
module LegacyPanel {
  import opened Wrappers
  import opened Topics
  import opened FeedRules
  import opened JsCollections
  import opened Gateway
  import Storage

  /** `DEFAULT_CONFIG` of `sidepanel.js` as the feed rules see it: the same
      feed settings as the shared defaults, and no AI settings at all. */
  const LegacyDefaults := FeedConfig(Some(30), "", false, "fade", true, "", true, None, "medium", false, "", "", None, false, "")

  /** The settings form as `saveConfig()` reads it.  `pollingInterval` is
      `parseInt` of the field (`None` for `NaN`); `syncReadStatus` is `None`
      when the checkbox is missing from the page. */
  datatype Form = Form(
    pollingInterval: Option<int>,
    keywordBlacklist: string,
    qualityFilter: bool,
    readStatusAction: string,
    showBadge: bool,
    notifyKeywords: string,
    fontSize: string,
    compactMode: bool,
    syncReadStatus: Option<bool>)

  /** `config = { ...config, <every form field> }`: the form replaces the feed
      settings it shows and keeps the rest (the AI settings and the absent
      sort key); a missing sync checkbox means sync on. */
  function ApplyForm(cfg: FeedConfig, form: Form): (c: FeedConfig)
    ensures c.sortFilter == cfg.sortFilter && c.aiApiUrl == cfg.aiApiUrl &&
            c.aiApiKey == cfg.aiApiKey && c.aiSummaryDepth == cfg.aiSummaryDepth &&
            c.aiEnabled == cfg.aiEnabled && c.aiModel == cfg.aiModel
    ensures c.pollingInterval == form.pollingInterval && c.keywordBlacklist == form.keywordBlacklist
    ensures c.qualityFilter == form.qualityFilter && c.readStatusAction == form.readStatusAction
    ensures c.showBadge == form.showBadge && c.notifyKeywords == form.notifyKeywords
    ensures c.fontSize == form.fontSize && c.compactMode == form.compactMode
    ensures c.syncReadStatus <==> form.syncReadStatus != Some(false)
  {
    cfg.(pollingInterval := form.pollingInterval,
         keywordBlacklist := form.keywordBlacklist,
         qualityFilter := form.qualityFilter,
         readStatusAction := form.readStatusAction,
         showBadge := form.showBadge,
         notifyKeywords := form.notifyKeywords,
         fontSize := form.fontSize,
         compactMode := form.compactMode,
         syncReadStatus := form.syncReadStatus.GetOr(true))
  }

  /** The message thrown when the selected sub-category is not in the table
      (`subCat` is `undefined`). */
  const UnknownSubMessage := "Cannot read properties of undefined (reading 'slug')"

  // ------------------------------------------------------------ the timer

  /** One second of the progress timer.  The progress bar stands at
      `100 * ticks / pollingInterval` percent, so it reaches 100 exactly when
      the tick count reaches a positive interval; a negative or `NaN`
      interval never gets there.  Reaching it starts a refresh, which puts the
      progress back to zero. */
  function Advance(interval: Option<int>, ticks: nat): (r: (nat, bool))
    ensures r.1 <==> interval.Some? && 0 < interval.value <= ticks + 1
    ensures r.0 == if r.1 then 0 else ticks + 1
  {
    if interval.Some? && interval.value > 0 && ticks + 1 >= interval.value then (0, true)
    else (ticks + 1, false)
  }

  /** `k` seconds of a running timer from `ticks`: the progress at the end and
      the number of refreshes started. */
  function Run(interval: Option<int>, ticks: nat, k: nat): (nat, nat)
    decreases k
  {
    if k == 0 then (ticks, 0)
    else
      var step := Advance(interval, ticks);
      var rest := Run(interval, step.0, k - 1);
      (rest.0, rest.1 + if step.1 then 1 else 0)
  }

  /** With a positive interval `n`, a refresh starts every `n` seconds: after
      `k` seconds from progress `p < n`, `refreshes * n + progress == p + k`
      with the progress still below `n`. */
  lemma {:induction false} RefreshEveryInterval(n: int, p: nat, k: nat)
    requires 0 < n && p < n
    ensures Run(Some(n), p, k).1 * n + Run(Some(n), p, k).0 == p + k
    ensures Run(Some(n), p, k).0 < n
    decreases k
  {
    if k > 0 {
      var step := Advance(Some(n), p);
      RefreshEveryInterval(n, step.0, k - 1);
      var rest := Run(Some(n), step.0, k - 1);
      if step.1 {
        assert (rest.1 + 1) * n == rest.1 * n + n;
      }
    }
  }

  /** A timer whose interval is not a positive number only counts up and
      never refreshes. */
  lemma {:induction false} NoPositiveIntervalNeverRefreshes(interval: Option<int>, p: nat, k: nat)
    requires interval.None? || interval.value <= 0
    ensures Run(interval, p, k) == (p + k, 0)
    decreases k
  {
    if k > 0 {
      NoPositiveIntervalNeverRefreshes(interval, p + 1, k - 1);
    }
  }

  // ------------------------------------------------------------ the panel

  /** The module-level state of `sidepanel.js`.  `config.blockCategories` is
      the array object `blockCategories`; `DEFAULT_CONFIG.blockCategories` is
      `defaultBlock`.  Both start as the same object, since `config` begins
      as a shallow copy of `DEFAULT_CONFIG`. */
  class Panel {
    var allTopics: seq<Topic>
    var usersMap: Option<map<int, UserInfo>>
    var readTopicIds: seq<int>
    var config: FeedConfig
    var blockCategories: StringArray
    const defaultBlock: StringArray
    var autoRefreshEnabled: bool
    /** Whether `progressTimer` is an interval that still fires. */
    var timerRunning: bool
    /** `currentProgress`, in seconds since the last start or refresh. */
    var progress: nat
    /** `chrome.storage.local`. */
    const store: Storage.LocalStore

    /** The read set is a set: no id twice. */
    ghost predicate Valid()
      reads this
    {
      Storage.NoDup(readTopicIds)
    }

    /** What `renderTopics()` shows and counts for the drop-down's sort key. */
    function Rendering(dropDown: string): Rendered
      reads this, blockCategories
    {
      LegacyRender(allTopics, blockCategories.items, config, readTopicIds, dropDown)
    }

    /** The state when the script has run its top level. */
    constructor(store: Storage.LocalStore)
      ensures Valid()
      ensures allTopics == [] && usersMap.None? && readTopicIds == []
      ensures config == LegacyDefaults && blockCategories == defaultBlock && defaultBlock.items == [] && fresh(defaultBlock)
      ensures autoRefreshEnabled && !timerRunning && progress == 0 && this.store == store
    {
      allTopics := [];
      usersMap := None;
      readTopicIds := [];
      config := LegacyDefaults;
      var empty := new StringArray([]);
      defaultBlock := empty;
      blockCategories := empty;
      autoRefreshEnabled := true;
      timerRunning := false;
      progress := 0;
      this.store := store;
    }

    /** `markAsRead(id, postNumber)`: adds exactly `id` to the read set and
        stores the whole set; the site is told only when sync is on and the
        post number is truthy.  Afterwards every topic with that id reads as
        read, and no other topic's read state has changed. */
    method MarkAsRead(id: int, postNumber: Option<int>, dropDown: string)
      returns (report: Option<(int, int)>, shown: Rendered)
      requires Valid()
      modifies this, store
      ensures Valid()
      ensures readTopicIds == SetAdd(old(readTopicIds), id)
      ensures store.data == old(store.data)[Storage.ReadTopicsKey := Storage.EncodeIds(readTopicIds)]
      ensures report.Some? <==> config.syncReadStatus && postNumber.Some? && postNumber.value != 0
      ensures report.Some? ==> report.value == (id, postNumber.value)
      ensures forall t: Topic :: t.id == id ==> IsRead(t, readTopicIds, config.syncReadStatus)
      ensures forall t: Topic :: t.id != id ==>
                (IsRead(t, readTopicIds, config.syncReadStatus) <==> IsRead(t, old(readTopicIds), config.syncReadStatus))
      ensures allTopics == old(allTopics) && config == old(config) && blockCategories == old(blockCategories)
      ensures timerRunning == old(timerRunning) && progress == old(progress) && usersMap == old(usersMap)
      ensures autoRefreshEnabled == old(autoRefreshEnabled)
      ensures shown == Rendering(dropDown)
    {
      readTopicIds := SetAdd(readTopicIds, id);
      report := None;
      if config.syncReadStatus && postNumber.Some? && postNumber.value != 0 {
        report := Some((id, postNumber.value));
      }
      store.SaveReadTopics(readTopicIds);
      shown := LegacyRender(allTopics, blockCategories.items, config, readTopicIds, dropDown);
    }

    /** `window.toggleRead(id)` ("mark as unread"): removes exactly `id` and
        stores the whole set; no other id changes. */
    method ToggleRead(id: int, dropDown: string) returns (shown: Rendered)
      requires Valid()
      modifies this, store
      ensures Valid()
      ensures readTopicIds == Without(old(readTopicIds), id)
      ensures |readTopicIds| == if id in old(readTopicIds) then |old(readTopicIds)| - 1 else |old(readTopicIds)|
      ensures store.data == old(store.data)[Storage.ReadTopicsKey := Storage.EncodeIds(readTopicIds)]
      ensures allTopics == old(allTopics) && config == old(config) && blockCategories == old(blockCategories)
      ensures timerRunning == old(timerRunning) && progress == old(progress) && usersMap == old(usersMap)
      ensures autoRefreshEnabled == old(autoRefreshEnabled)
      ensures shown == Rendering(dropDown)
    {
      WithoutNoDup(readTopicIds, id);
      readTopicIds := Without(readTopicIds, id);
      shown := LegacyRender(allTopics, blockCategories.items, config, readTopicIds, dropDown);
      store.SaveReadTopics(readTopicIds);
    }

    /** `stopAutoRefresh()`: the interval is cleared; the progress stays. */
    method StopAutoRefresh()
      modifies this
      ensures !timerRunning && progress == old(progress)
      ensures allTopics == old(allTopics) && readTopicIds == old(readTopicIds) && config == old(config)
      ensures blockCategories == old(blockCategories) && autoRefreshEnabled == old(autoRefreshEnabled)
      ensures usersMap == old(usersMap)
    {
      timerRunning := false;
    }

    /** `startAutoRefresh()`: always clears the old timer first, then starts
        a new one from zero unless the interval is exactly `0`. */
    method StartAutoRefresh()
      modifies this
      ensures timerRunning <==> config.pollingInterval != Some(0)
      ensures progress == if timerRunning then 0 else old(progress)
      ensures allTopics == old(allTopics) && readTopicIds == old(readTopicIds) && config == old(config)
      ensures blockCategories == old(blockCategories) && autoRefreshEnabled == old(autoRefreshEnabled)
      ensures usersMap == old(usersMap)
    {
      StopAutoRefresh();
      if config.pollingInterval == Some(0) {
        return;
      }
      progress := 0;
      timerRunning := true;
    }

    /** One firing of the progress timer; `refresh` says whether it called
        `handleManualRefresh()`, which puts the progress back to zero before
        loading.  A stopped timer does not fire. */
    method Tick() returns (refresh: bool)
      modifies this
      ensures !old(timerRunning) ==> !refresh && progress == old(progress)
      ensures old(timerRunning) ==> (progress, refresh) == Advance(config.pollingInterval, old(progress))
      ensures timerRunning == old(timerRunning)
      ensures allTopics == old(allTopics) && readTopicIds == old(readTopicIds) && config == old(config)
      ensures blockCategories == old(blockCategories) && usersMap == old(usersMap)
      ensures autoRefreshEnabled == old(autoRefreshEnabled)
    {
      refresh := false;
      if timerRunning {
        progress := progress + 1;
        if config.pollingInterval.Some? && config.pollingInterval.value > 0 && progress >= config.pollingInterval.value {
          refresh := true;
          progress := 0;
        }
      }
    }

    /** `toggleAutoRefresh()`: flips the switch and starts or stops the timer
        to match. */
    method ToggleAutoRefresh()
      modifies this
      ensures autoRefreshEnabled == !old(autoRefreshEnabled)
      ensures !autoRefreshEnabled ==> !timerRunning && progress == old(progress)
      ensures autoRefreshEnabled ==> (timerRunning <==> config.pollingInterval != Some(0))
      ensures autoRefreshEnabled && timerRunning ==> progress == 0
      ensures allTopics == old(allTopics) && readTopicIds == old(readTopicIds) && config == old(config)
      ensures blockCategories == old(blockCategories) && usersMap == old(usersMap)
    {
      autoRefreshEnabled := !autoRefreshEnabled;
      if autoRefreshEnabled {
        StartAutoRefresh();
      } else {
        StopAutoRefresh();
      }
    }

    /** `saveConfig()`: the form's values replace the feed settings, and the
        timer is restarted when auto refresh is on. */
    method SaveConfig(form: Form, dropDown: string) returns (shown: Rendered)
      modifies this
      ensures config == ApplyForm(old(config), form)
      ensures autoRefreshEnabled ==> (timerRunning <==> config.pollingInterval != Some(0))
      ensures autoRefreshEnabled && timerRunning ==> progress == 0
      ensures !autoRefreshEnabled ==> timerRunning == old(timerRunning) && progress == old(progress)
      ensures allTopics == old(allTopics) && readTopicIds == old(readTopicIds)
      ensures blockCategories == old(blockCategories) && autoRefreshEnabled == old(autoRefreshEnabled)
      ensures usersMap == old(usersMap)
      ensures shown == Rendering(dropDown)
    {
      config := ApplyForm(config, form);
      shown := LegacyRender(allTopics, blockCategories.items, config, readTopicIds, dropDown);
      if autoRefreshEnabled {
        StartAutoRefresh();
      }
    }

    /** A click on a category tag in the settings: a blocked slug is
        unblocked by building a new array, an unblocked one is pushed onto the
        current array in place, and then the form is saved.  While that array
        is still `DEFAULT_CONFIG`'s, the push lands in the defaults. */
    method BlockToggle(slug: string, form: Form, dropDown: string) returns (shown: Rendered)
      modifies this, blockCategories
      ensures slug in old(blockCategories.items) ==>
                fresh(blockCategories) && blockCategories.items == Without(old(blockCategories.items), slug)
      ensures slug !in old(blockCategories.items) ==>
                blockCategories == old(blockCategories) && blockCategories.items == old(blockCategories.items) + [slug]
      ensures defaultBlock.items ==
                if defaultBlock == old(blockCategories) && slug !in old(blockCategories.items)
                then old(defaultBlock.items) + [slug] else old(defaultBlock.items)
      ensures config == ApplyForm(old(config), form)
      ensures autoRefreshEnabled == old(autoRefreshEnabled)
      ensures autoRefreshEnabled ==> (timerRunning <==> config.pollingInterval != Some(0))
      ensures autoRefreshEnabled && timerRunning ==> progress == 0
      ensures !autoRefreshEnabled ==> timerRunning == old(timerRunning) && progress == old(progress)
      ensures allTopics == old(allTopics) && readTopicIds == old(readTopicIds) && usersMap == old(usersMap)
      ensures shown == Rendering(dropDown)
    {
      if slug in blockCategories.items {
        var kept := new StringArray(Without(blockCategories.items, slug));
        blockCategories := kept;
      } else {
        blockCategories.Push(slug);
      }
      shown := SaveConfig(form, dropDown);
    }

    /** The reset button once `confirm(...)` has returned true (cancelling
        changes nothing): `config = { ...DEFAULT_CONFIG }`.  The blocked list
        is `DEFAULT_CONFIG`'s array again, which holds every slug pushed onto
        it before the first unblock. */
    method Reset(dropDown: string) returns (shown: Rendered)
      modifies this
      ensures config == LegacyDefaults && blockCategories == defaultBlock
      ensures autoRefreshEnabled ==> (timerRunning <==> config.pollingInterval != Some(0))
      ensures autoRefreshEnabled && timerRunning ==> progress == 0
      ensures !autoRefreshEnabled ==> timerRunning == old(timerRunning) && progress == old(progress)
      ensures allTopics == old(allTopics) && readTopicIds == old(readTopicIds) && usersMap == old(usersMap)
      ensures autoRefreshEnabled == old(autoRefreshEnabled)
      ensures shown == Rendering(dropDown)
    {
      config := LegacyDefaults;
      blockCategories := defaultBlock;
      shown := LegacyRender(allTopics, blockCategories.items, config, readTopicIds, dropDown);
      if autoRefreshEnabled {
        StartAutoRefresh();
      }
    }

    /** `loadTopics()` for the selected list: an unknown sub-category throws
        before any request; a successful reply replaces the list, even with
        an empty page, and then notifies and renders; a failure changes
        nothing and reports its message. */
    method LoadTopics(categoryFilter: string, sub: Option<int>, net: nat -> HttpReply,
                      now: int, dropDown: string)
      returns (notified: seq<string>, shown: Option<Rendered>, error: Option<string>)
      modifies this
      ensures LegacyEndpoint(categoryFilter, sub).None? ==>
                error == Some(UnknownSubMessage) && allTopics == old(allTopics) && usersMap == old(usersMap)
      ensures LegacyEndpoint(categoryFilter, sub).Some? ==>
                var res := FetchWithRetry(Background, LegacyEndpoint(categoryFilter, sub).value,
                                          DefaultRetries, net, 0).result;
                (res.success ==> allTopics == res.topics && error.None? &&
                                 usersMap == (if res.users.Some? then Some(UsersMap(res.users.value)) else old(usersMap))) &&
                (!res.success ==> allTopics == old(allTopics) && usersMap == old(usersMap) &&
                                  error == Some(if res.error.Some? && res.error.value != "" then res.error.value else "获取数据失败"))
      ensures error.None? ==> notified == Notifications(allTopics, config, readTopicIds, now) && shown == Some(Rendering(dropDown))
      ensures error.Some? ==> notified == [] && shown.None?
      ensures readTopicIds == old(readTopicIds) && config == old(config) && blockCategories == old(blockCategories)
      ensures timerRunning == old(timerRunning) && progress == old(progress)
      ensures autoRefreshEnabled == old(autoRefreshEnabled)
    {
      notified, shown, error := [], None, None;
      var endpoint := LegacyEndpoint(categoryFilter, sub);
      if endpoint.None? {
        error := Some(UnknownSubMessage);
        return;
      }
      var res := FetchWithRetry(Background, endpoint.value, DefaultRetries, net, 0).result;
      notified, shown, error := ApplyReply(res, now, dropDown);
    }

    /** The part of `loadTopics` after the response has arrived: store and
        show the topics, or report the error. */
    method ApplyReply(res: FetchResult, now: int, dropDown: string)
      returns (notified: seq<string>, shown: Option<Rendered>, error: Option<string>)
      modifies this
      ensures res.success ==> allTopics == res.topics && error.None? &&
                              usersMap == (if res.users.Some? then Some(UsersMap(res.users.value)) else old(usersMap))
      ensures !res.success ==> allTopics == old(allTopics) && usersMap == old(usersMap) &&
                               error == Some(if res.error.Some? && res.error.value != "" then res.error.value else "获取数据失败")
      ensures error.None? ==> notified == Notifications(allTopics, config, readTopicIds, now) && shown == Some(Rendering(dropDown))
      ensures error.Some? ==> notified == [] && shown.None?
      ensures readTopicIds == old(readTopicIds) && config == old(config) && blockCategories == old(blockCategories)
      ensures timerRunning == old(timerRunning) && progress == old(progress)
      ensures autoRefreshEnabled == old(autoRefreshEnabled)
    {
      notified, shown, error := [], None, None;
      if res.success {
        StoreUsers(res.users);
        allTopics := res.topics;
        notified := Notifications(allTopics, config, readTopicIds, now);
        shown := Some(Rendering(dropDown));
      } else {
        error := Some(if res.error.Some? && res.error.value != "" then res.error.value else "获取数据失败");
      }
    }

    /** `if (data.users) usersMap = new Map(...)`: only a response that
        carries users replaces the map. */
    method StoreUsers(users: Option<seq<UserInfo>>)
      modifies this
      ensures usersMap == if users.Some? then Some(UsersMap(users.value)) else old(usersMap)
      ensures allTopics == old(allTopics) && readTopicIds == old(readTopicIds) && config == old(config)
      ensures blockCategories == old(blockCategories) && timerRunning == old(timerRunning) && progress == old(progress)
      ensures autoRefreshEnabled == old(autoRefreshEnabled)
    {
      if users.Some? {
        usersMap := Some(UsersMap(users.value));
      }
    }
  }

  /** On a first run (no stored configuration), blocking a category and then
      pressing reset leaves that category blocked: the push went into
      `DEFAULT_CONFIG.blockCategories`, which the reset copies back. */
  method BlockSurvivesReset(store: Storage.LocalStore, slug: string, form: Form, dropDown: string)
    returns (blocked: seq<string>)
    ensures blocked == [slug]
  {
    var panel := new Panel(store);
    var _ := panel.BlockToggle(slug, form, dropDown);
    var _ := panel.Reset(dropDown);
    blocked := panel.blockCategories.items;
  }
}
