/** The feed engine shared by both side panels: the conjunctive filters, the
    descending sort, the read and "new" decisions of a topic card, the badge
    count and the keyword notifications.  The single-file panel
    (`sidepanel.js`) and the modular one (`src/sidepanel/ui-render.js`,
    `src/sidepanel/main.js`) use the same rules with three differences, each
    modelled below: where the sort key comes from, the `'hide'` filter, which
    fails in the modular renderer, and where the read set comes from. */
module FeedRules {
  import opened Wrappers
  import opened Text
  import opened Sequences
  import opened Topics
  import opened Formatters
  import Storage

  /** The configuration fields the feed rules read.  `blockCategories` is kept
      apart (the panels hold it as a shared, mutable array).  `pollingInterval`
      is `None` when the stored value is `NaN`; `sortFilter` is `None` when the
      key is absent, which is always the case for the stored configuration. */
  datatype FeedConfig = FeedConfig(
    pollingInterval: Option<int>,
    keywordBlacklist: string,
    qualityFilter: bool,
    readStatusAction: string,
    showBadge: bool,
    notifyKeywords: string,
    syncReadStatus: bool,
    sortFilter: Option<string>,
    fontSize: string,
    compactMode: bool,
    aiApiUrl: string,
    aiApiKey: string,
    aiSummaryDepth: Option<string>,
    aiEnabled: bool,
    aiModel: string)

  /** A string setting: the stored string, or `""` for any other value. */
  function StrField(m: map<string, Storage.Json>, key: string): string {
    if key in m && m[key].JStr? then m[key].s else ""
  }

  /** A flag setting, read by truthiness. */
  predicate BoolField(m: map<string, Storage.Json>, key: string) {
    key in m && Storage.Truthy(m[key])
  }

  /** The typed view of a configuration object. */
  function DecodeConfig(m: map<string, Storage.Json>): (c: FeedConfig)
    ensures "sortFilter" !in m ==> c.sortFilter.None?
    ensures c.showBadge <==> BoolField(m, "showBadge")
    ensures c.readStatusAction == StrField(m, "readStatusAction")
  {
    FeedConfig(
      if "pollingInterval" in m && m["pollingInterval"].JNum? then Some(m["pollingInterval"].n.Floor) else None,
      StrField(m, "keywordBlacklist"),
      BoolField(m, "qualityFilter"),
      StrField(m, "readStatusAction"),
      BoolField(m, "showBadge"),
      StrField(m, "notifyKeywords"),
      BoolField(m, "syncReadStatus"),
      if "sortFilter" in m then Some(StrField(m, "sortFilter")) else None,
      StrField(m, "fontSize"),
      BoolField(m, "compactMode"),
      StrField(m, "aiApiUrl"),
      StrField(m, "aiApiKey"),
      if "aiSummaryDepth" in m && m["aiSummaryDepth"].JStr? then Some(m["aiSummaryDepth"].s) else None,
      BoolField(m, "aiEnabled"),
      StrField(m, "aiModel"))
  }

  /** The typed view of `DEFAULT_CONFIG`. */
  const DefaultFeedConfig: FeedConfig := DecodeConfig(Storage.DefaultConfig())

  /** The defaults as the feed rules see them: a 30 s interval, no blacklist,
      no quality filter, fading read topics, the badge on, sync on, no sort key. */
  lemma DefaultFeedConfigValues()
    ensures DefaultFeedConfig == FeedConfig(Some(30), "", false, "fade", true, "", true, None,
                                            "medium", false, "", "", Some("smart"), true, "MiniMax-M2.1")
  {
    var m := Storage.DefaultConfig();
    assert m["pollingInterval"] == Storage.JNum(30.0);
    assert m["keywordBlacklist"] == Storage.JStr("");
    assert m["qualityFilter"] == Storage.JBool(false);
    assert m["readStatusAction"] == Storage.JStr("fade");
    assert m["showBadge"] == Storage.JBool(true);
    assert m["notifyKeywords"] == Storage.JStr("");
    assert m["syncReadStatus"] == Storage.JBool(true);
    assert m["fontSize"] == Storage.JStr("medium");
    assert m["compactMode"] == Storage.JBool(false);
    assert m["aiApiUrl"] == Storage.JStr("");
    assert m["aiApiKey"] == Storage.JStr("");
    assert m["aiSummaryDepth"] == Storage.JStr("smart");
    assert m["aiEnabled"] == Storage.JBool(true);
    assert m["aiModel"] == Storage.JStr("MiniMax-M2.1");
  }

  /** With no configuration stored, the panels start from the defaults, and
      the stored configuration never names a sort key. */
  lemma NothingStoredMeansDefaults(store: map<string, Storage.Json>)
    requires Storage.ConfigKey !in store
    ensures DecodeConfig(Storage.GetConfig(store)) == DefaultFeedConfig
    ensures DecodeConfig(Storage.GetConfig(store)).sortFilter.None?
  {
  }

  // ---------------------------------------------------------------- filters

  /** The category rule: a topic whose category maps to a blocked slug is
      dropped; a topic whose category is not in the table is kept. */
  predicate KeepCategory(blocked: seq<string>, t: Topic) {
    match FindById(Categories(), t.categoryId)
    case None => true
    case Some(c) => c.slug !in blocked
  }

  /** The blacklist entries: split on `,`, trimmed and lowercased; empty
      entries are kept. */
  function BlacklistEntries(list: string): (r: seq<string>)
    ensures |r| == |Split(list, ',')|
    ensures forall k :: 0 <= k < |r| ==> r[k] == Lower(Trim(Split(list, ',')[k]))
  {
    var parts := Split(list, ',');
    seq(|parts|, k requires 0 <= k < |parts| => Lower(Trim(parts[k])))
  }

  /** The keyword rule: no entry occurs in the lowercased title. */
  predicate KeepTitle(entries: seq<string>, t: Topic) {
    forall k :: 0 <= k < |entries| ==> !Contains(Lower(t.title), entries[k])
  }

  /** The quality rule: more than ten posts. */
  predicate KeepQuality(t: Topic) {
    t.postsCount > 10
  }

  /** The hide-read rule: only the local read set counts, not the site watermark. */
  predicate KeepUnread(readIds: seq<int>, t: Topic) {
    t.id !in readIds
  }

  /** The three filters both panels apply before the hide-read one, each only
      when its setting is on (a non-empty block list, a non-empty blacklist,
      the quality flag). */
  function BaseFilters(topics: seq<Topic>, blocked: seq<string>, cfg: FeedConfig): seq<Topic> {
    var byCategory := if |blocked| > 0 then Filter(topics, t => KeepCategory(blocked, t)) else topics;
    var entries := BlacklistEntries(cfg.keywordBlacklist);
    var byTitle := if cfg.keywordBlacklist != "" then Filter(byCategory, t => KeepTitle(entries, t)) else byCategory;
    if cfg.qualityFilter then Filter(byTitle, KeepQuality) else byTitle
  }

  /** One predicate that says whether a topic survives `BaseFilters`. */
  predicate PassesBase(blocked: seq<string>, cfg: FeedConfig, t: Topic) {
    (|blocked| > 0 ==> KeepCategory(blocked, t))
    && (cfg.keywordBlacklist != "" ==> KeepTitle(BlacklistEntries(cfg.keywordBlacklist), t))
    && (cfg.qualityFilter ==> KeepQuality(t))
  }

  /** `applyFilters` of `sidepanel.js`: the base filters, then, under
      `'hide'`, drop the topics whose id is in the local read set. */
  function LegacyApplyFilters(topics: seq<Topic>, blocked: seq<string>, cfg: FeedConfig,
                              readIds: seq<int>): seq<Topic> {
    var base := BaseFilters(topics, blocked, cfg);
    if cfg.readStatusAction == "hide" then Filter(base, t => KeepUnread(readIds, t)) else base
  }

  /** One predicate that says whether a topic survives `LegacyApplyFilters`. */
  predicate PassesLegacy(blocked: seq<string>, cfg: FeedConfig, readIds: seq<int>, t: Topic) {
    PassesBase(blocked, cfg, t) && (cfg.readStatusAction == "hide" ==> KeepUnread(readIds, t))
  }

  /** Filtering by pointwise-equal predicates in sequence is one filter. */
  lemma FilterThen<T>(s: seq<T>, p: T -> bool, q: T -> bool, pq: T -> bool)
    requires forall x :: pq(x) == (p(x) && q(x))
    ensures Filter(Filter(s, p), q) == Filter(s, pq)
  {
    FilterConj(s, p, q);
    FilterSameAs(s, x => p(x) && q(x), pq);
  }

  /** The filters are one conjunctive predicate: the base filters keep exactly
      the topics passing all enabled rules, in input order. */
  lemma BaseFiltersIsConjunction(topics: seq<Topic>, blocked: seq<string>, cfg: FeedConfig)
    ensures BaseFilters(topics, blocked, cfg) == Filter(topics, t => PassesBase(blocked, cfg, t))
  {
    var entries := BlacklistEntries(cfg.keywordBlacklist);
    var pct: Topic -> bool := t => (|blocked| > 0 ==> KeepCategory(blocked, t))
                                   && (cfg.keywordBlacklist != "" ==> KeepTitle(entries, t));
    CategoryTitleStages(topics, blocked, cfg, pct);
    var all: Topic -> bool := t => PassesBase(blocked, cfg, t);
    if cfg.qualityFilter {
      FilterThen(topics, pct, KeepQuality, all);
    } else {
      FilterSameAs(topics, pct, all);
    }
  }

  /** The category and title stages of `BaseFilters` are one filter by the
      conjunction of their enabled rules. */
  lemma CategoryTitleStages(topics: seq<Topic>, blocked: seq<string>, cfg: FeedConfig, pct: Topic -> bool)
    requires forall t :: pct(t) == ((|blocked| > 0 ==> KeepCategory(blocked, t))
                                    && (cfg.keywordBlacklist != "" ==> KeepTitle(BlacklistEntries(cfg.keywordBlacklist), t)))
    ensures var byCategory := if |blocked| > 0 then Filter(topics, t => KeepCategory(blocked, t)) else topics;
            var entries := BlacklistEntries(cfg.keywordBlacklist);
            (if cfg.keywordBlacklist != "" then Filter(byCategory, t => KeepTitle(entries, t)) else byCategory)
              == Filter(topics, pct)
  {
    var entries := BlacklistEntries(cfg.keywordBlacklist);
    var pc: Topic -> bool := t => |blocked| > 0 ==> KeepCategory(blocked, t);
    var byCategory := if |blocked| > 0 then Filter(topics, t => KeepCategory(blocked, t)) else topics;
    assert byCategory == Filter(topics, pc) by {
      if |blocked| > 0 {
        FilterSameAs(topics, t => KeepCategory(blocked, t), pc);
      } else {
        FilterAll(topics, pc);
      }
    }
    if cfg.keywordBlacklist != "" {
      FilterThen(topics, pc, t => KeepTitle(entries, t), pct);
    } else {
      FilterSameAs(topics, pc, pct);
    }
  }

  /** Filtering by an always-true predicate changes nothing. */
  lemma {:induction false} FilterAll<T>(s: seq<T>, p: T -> bool)
    requires forall x :: p(x)
    ensures Filter(s, p) == s
  {
    if s != [] {
      FilterAll(s[1..], p);
      assert [s[0]] + s[1..] == s;
    }
  }

  /** `applyFilters` of `sidepanel.js` is one conjunctive filter. */
  lemma LegacyFiltersIsConjunction(topics: seq<Topic>, blocked: seq<string>, cfg: FeedConfig,
                                   readIds: seq<int>)
    ensures LegacyApplyFilters(topics, blocked, cfg, readIds)
            == Filter(topics, t => PassesLegacy(blocked, cfg, readIds, t))
  {
    BaseFiltersIsConjunction(topics, blocked, cfg);
    var pb: Topic -> bool := t => PassesBase(blocked, cfg, t);
    var all: Topic -> bool := t => PassesLegacy(blocked, cfg, readIds, t);
    if cfg.readStatusAction == "hide" {
      FilterThen(topics, pb, t => KeepUnread(readIds, t), all);
    } else {
      FilterSameAs(topics, pb, all);
    }
  }

  /** The filters only delete: the visible list is a subsequence of the input,
      and a topic is kept exactly when it passes every enabled rule. */
  lemma LegacyFiltersSelect(topics: seq<Topic>, blocked: seq<string>, cfg: FeedConfig,
                            readIds: seq<int>)
    ensures IsSubsequence(LegacyApplyFilters(topics, blocked, cfg, readIds), topics)
    ensures forall t :: t in LegacyApplyFilters(topics, blocked, cfg, readIds)
                        <==> t in topics && PassesLegacy(blocked, cfg, readIds, t)
  {
    LegacyFiltersIsConjunction(topics, blocked, cfg, readIds);
    FilterIsSubsequence(topics, t => PassesLegacy(blocked, cfg, readIds, t));
    FilterMembership(topics, t => PassesLegacy(blocked, cfg, readIds, t));
  }

  /** Membership in a filtered sequence, in both directions. */
  lemma FilterMembership<T>(s: seq<T>, p: T -> bool)
    ensures forall x :: x in Filter(s, p) <==> x in s && p(x)
  {
    var r := Filter(s, p);
    forall x | x in r ensures x in s && p(x) {
      var i :| 0 <= i < |r| && r[i] == x;
    }
    forall x | x in s && p(x) ensures x in r {
      var i :| 0 <= i < |s| && s[i] == x;
    }
  }

  /** Applying the filters to their own output changes nothing. */
  lemma LegacyFiltersIdempotent(topics: seq<Topic>, blocked: seq<string>, cfg: FeedConfig,
                                readIds: seq<int>)
    ensures LegacyApplyFilters(LegacyApplyFilters(topics, blocked, cfg, readIds), blocked, cfg, readIds)
            == LegacyApplyFilters(topics, blocked, cfg, readIds)
  {
    var p: Topic -> bool := t => PassesLegacy(blocked, cfg, readIds, t);
    LegacyFiltersIsConjunction(topics, blocked, cfg, readIds);
    LegacyFiltersIsConjunction(Filter(topics, p), blocked, cfg, readIds);
    FilterIdempotent(topics, p);
  }

  /** With the quality filter on, every visible topic has more than ten posts. */
  lemma QualityFilterBound(topics: seq<Topic>, blocked: seq<string>, cfg: FeedConfig,
                           readIds: seq<int>)
    requires cfg.qualityFilter
    ensures forall t :: t in LegacyApplyFilters(topics, blocked, cfg, readIds) ==> t.postsCount > 10
  {
    LegacyFiltersSelect(topics, blocked, cfg, readIds);
  }

  /** A topic whose category is not in the table is never dropped for its category. */
  lemma UnknownCategoryKept(blocked: seq<string>, t: Topic)
    requires FindById(Categories(), t.categoryId).None?
    ensures KeepCategory(blocked, t)
  {
  }

  /** Under `'hide'`, a visible topic is never in the local read set, whatever
      the site watermark says; and a topic in the read set is never visible. */
  lemma HideUsesLocalSetOnly(topics: seq<Topic>, blocked: seq<string>, cfg: FeedConfig,
                             readIds: seq<int>, t: Topic)
    requires cfg.readStatusAction == "hide" && t.id in readIds
    ensures t !in LegacyApplyFilters(topics, blocked, cfg, readIds)
  {
    LegacyFiltersSelect(topics, blocked, cfg, readIds);
  }

  /** A blacklist ending in a comma has an empty entry, which every title
      contains, so every topic is dropped. */
  lemma TrailingCommaDropsAll(topics: seq<Topic>, blocked: seq<string>, cfg: FeedConfig,
                              readIds: seq<int>, prefix: string)
    requires cfg.keywordBlacklist == prefix + ","
    ensures LegacyApplyFilters(topics, blocked, cfg, readIds) == []
  {
    var entries := BlacklistEntries(cfg.keywordBlacklist);
    SplitTrailingSep(prefix, ',');
    var last := |entries| - 1;
    assert Split(cfg.keywordBlacklist, ',')[last] == [];
    assert entries[last] == [];
    forall t | t in topics ensures !PassesLegacy(blocked, cfg, readIds, t) {
      assert [] <= Lower(t.title);
      assert Contains(Lower(t.title), entries[last]);
    }
    LegacyFiltersSelect(topics, blocked, cfg, readIds);
  }

  /** The modular renderer's filters.  Its `'hide'` branch refers to a
      `readTopicIds` binding that does not exist in that module, so the filter
      callback raises a `ReferenceError` as soon as it runs, that is when the
      list reaching it is non-empty. */
  datatype Filtered = Shown(topics: seq<Topic>) | ReferenceError

  function ModularApplyFilters(topics: seq<Topic>, blocked: seq<string>, cfg: FeedConfig): (r: Filtered)
    ensures r.ReferenceError? <==> cfg.readStatusAction == "hide" && BaseFilters(topics, blocked, cfg) != []
    ensures r.Shown? ==> r.topics == BaseFilters(topics, blocked, cfg)
  {
    var base := BaseFilters(topics, blocked, cfg);
    if cfg.readStatusAction == "hide" && base != [] then ReferenceError else Shown(base)
  }

  /** Where the modular filters do not fail they agree with the single-file
      ones; under `'hide'` they only succeed on an empty list. */
  lemma ModularAgreesWithLegacy(topics: seq<Topic>, blocked: seq<string>, cfg: FeedConfig,
                                readIds: seq<int>)
    ensures ModularApplyFilters(topics, blocked, cfg).Shown? ==>
              ModularApplyFilters(topics, blocked, cfg).topics == LegacyApplyFilters(topics, blocked, cfg, readIds)
  {
    if cfg.readStatusAction == "hide" && BaseFilters(topics, blocked, cfg) == [] {
      assert Filter([], (t: Topic) => KeepUnread(readIds, t)) == [];
    }
  }

  // ---------------------------------------------------------------- sorting

  /** The sort keys: `'latest'` by last post time, `'created'` by creation
      time, `'views'` and `'replies'` (post count); any other value has none. */
  function SortKey(name: string): Option<Topic -> int> {
    if name == "latest" then Some((t: Topic) => t.lastPostedAt)
    else if name == "created" then Some((t: Topic) => t.createdAt)
    else if name == "views" then Some((t: Topic) => t.views)
    else if name == "replies" then Some((t: Topic) => t.postsCount)
    else None
  }

  /** `applySorting` given the chosen key name: a permutation of the input that
      is non-increasing by that key; an unrecognised name leaves the order as it is. */
  function SortBy(topics: seq<Topic>, name: string): (r: seq<Topic>)
    ensures multiset(r) == multiset(topics)
    ensures SortKey(name).Some? ==> NonIncreasing(r, SortKey(name).value)
    ensures SortKey(name).None? ==> r == topics
  {
    match SortKey(name)
    case Some(key) => SortDesc(topics, key)
    case None => topics
  }

  /** Sorting a sorted list again changes nothing. */
  lemma SortByIdempotent(topics: seq<Topic>, name: string)
    ensures SortBy(SortBy(topics, name), name) == SortBy(topics, name)
  {
    if SortKey(name).Some? {
      SortDescIdempotent(topics, SortKey(name).value);
    }
  }

  /** The single-file panel sorts by the sort drop-down's value. */
  function LegacySortName(dropDown: string): string {
    dropDown
  }

  /** The modular panel sorts by `config.sortFilter || 'latest'`. */
  function ModularSortName(cfg: FeedConfig): (name: string)
    ensures cfg.sortFilter.None? ==> name == "latest"
    ensures cfg.sortFilter.Some? && cfg.sortFilter.value != "" ==> name == cfg.sortFilter.value
  {
    match cfg.sortFilter
    case Some(s) => if s == "" then "latest" else s
    case None => "latest"
  }

  /** The stored configuration never has a `sortFilter` key, so the modular
      feed is always ordered by last post time. */
  lemma ModularSortsByLatest(topics: seq<Topic>, cfg: FeedConfig)
    requires cfg.sortFilter.None?
    ensures NonIncreasing(SortBy(topics, ModularSortName(cfg)), (t: Topic) => t.lastPostedAt)
  {
  }

  // ---------------------------------------------------------- topic cards

  /** The read decision of a topic card: in the local read set, or, with
      sync on, a non-zero site watermark at or past the highest post. */
  predicate IsRead(t: Topic, readIds: seq<int>, sync: bool) {
    t.id in readIds
    || (sync && t.lastReadPostNumber.Some? && t.lastReadPostNumber.value != 0
        && t.lastReadPostNumber.value >= t.highestPostNumber)
  }

  /** The decisions a topic card shows. */
  datatype Card = Card(read: bool, faded: bool, newDot: bool, category: Category,
                       tags: seq<string>, badge: Badge)

  /** `createTopicElement` without the markup (both panels decide alike). */
  function TopicCard(t: Topic, cfg: FeedConfig, readIds: seq<int>,
                     users: Option<map<int, UserInfo>>, now: int): (c: Card)
    ensures c.read <==> IsRead(t, readIds, cfg.syncReadStatus)
    ensures c.faded <==> c.read && cfg.readStatusAction == "fade"
    ensures c.newDot <==> IsTopicRecent(t, now) && !c.read
    ensures c.category == DisplayCategory(t) && c.tags == ShownTags(t)
    ensures c.badge == TopicBadge(t, users)
  {
    var read := IsRead(t, readIds, cfg.syncReadStatus);
    Card(read, read && cfg.readStatusAction == "fade", IsTopicRecent(t, now) && !read,
         DisplayCategory(t), ShownTags(t), TopicBadge(t, users))
  }

  /** A topic in the local read set is read and never shows the new dot. */
  lemma LocalReadHidesNewDot(t: Topic, cfg: FeedConfig, readIds: seq<int>,
                             users: Option<map<int, UserInfo>>, now: int)
    requires t.id in readIds
    ensures TopicCard(t, cfg, readIds, users, now).read
    ensures !TopicCard(t, cfg, readIds, users, now).newDot
  {
  }

  /** With sync off, only the local read set decides. */
  lemma SyncOffIgnoresWatermark(t: Topic, readIds: seq<int>)
    ensures IsRead(t, readIds, false) <==> t.id in readIds
  {
  }

  // ------------------------------------------------------------- the badge

  /** The number the toolbar badge is sent: 0 when the badge is off, else the
      filtered (unsorted) topics whose id is not in the local read set. */
  function BadgeCount(filtered: seq<Topic>, cfg: FeedConfig, readIds: seq<int>): (n: nat)
    ensures n <= |filtered|
    ensures !cfg.showBadge ==> n == 0
    ensures cfg.showBadge ==> (n == 0 <==> forall i :: 0 <= i < |filtered| ==> filtered[i].id in readIds)
    ensures cfg.showBadge ==> (n == |filtered| <==> forall i :: 0 <= i < |filtered| ==> filtered[i].id !in readIds)
    ensures cfg.showBadge ==> n == |Filter(filtered, t => KeepUnread(readIds, t))|
  {
    CountWhereExtremes(filtered, t => KeepUnread(readIds, t));
    CountIsFilterLength(filtered, t => KeepUnread(readIds, t));
    if cfg.showBadge then CountWhere(filtered, t => KeepUnread(readIds, t)) else 0
  }

  /** The badge ignores the site watermark: the sync setting does not change it. */
  lemma BadgeIgnoresSync(filtered: seq<Topic>, cfg: FeedConfig, readIds: seq<int>)
    ensures BadgeCount(filtered, cfg, readIds) == BadgeCount(filtered, cfg.(syncReadStatus := !cfg.syncReadStatus), readIds)
  {
  }

  /** The badge counts the same topics whether or not they are then sorted. */
  lemma {:induction false} CountWherePermutation<T>(s: seq<T>, r: seq<T>, p: T -> bool)
    requires multiset(s) == multiset(r)
    ensures CountWhere(s, p) == CountWhere(r, p)
    decreases |s|
  {
    if s == [] {
      assert |r| == |multiset(r)| == 0;
    } else {
      var x := s[0];
      assert x in multiset(r);
      var i :| 0 <= i < |r| && r[i] == x;
      var r' := r[..i] + r[i + 1..];
      RemoveAtMultiset(r, i);
      assert s == [x] + s[1..];
      assert multiset(s[1..]) == multiset(s) - multiset{x};
      CountWherePermutation(s[1..], r', p);
      RemoveAtCount(r, i, p);
    }
  }

  /** Removing the element at `i` removes one occurrence of it. */
  lemma RemoveAtMultiset<T>(r: seq<T>, i: int)
    requires 0 <= i < |r|
    ensures multiset(r[..i] + r[i + 1..]) == multiset(r) - multiset{r[i]}
  {
    assert r == r[..i] + [r[i]] + r[i + 1..];
  }

  /** Removing the element at `i` lowers the count by its own contribution. */
  lemma RemoveAtCount<T>(r: seq<T>, i: int, p: T -> bool)
    requires 0 <= i < |r|
    ensures CountWhere(r, p) == CountWhere(r[..i] + r[i + 1..], p) + (if p(r[i]) then 1 else 0)
  {
    var a, m, b := r[..i], r[i..], r[i + 1..];
    assert r == a + m;
    assert m[0] == r[i] && m[1..] == b;
    CountWhereSplit(a, m, p);
    CountWhereSplit(a, b, p);
  }

  /** Counting over a concatenation adds up. */
  lemma {:induction false} CountWhereSplit<T>(a: seq<T>, b: seq<T>, p: T -> bool)
    ensures CountWhere(a + b, p) == CountWhere(a, p) + CountWhere(b, p)
  {
    if a == [] {
      assert a + b == b;
    } else {
      CountWhereSplit(a[1..], b, p);
      assert (a + b)[0] == a[0] && (a + b)[1..] == a[1..] + b;
    }
  }

  /** Sorting does not change what the badge counts. */
  lemma BadgeIndependentOfOrder(filtered: seq<Topic>, cfg: FeedConfig, readIds: seq<int>, name: string)
    ensures BadgeCount(SortBy(filtered, name), cfg, readIds) == BadgeCount(filtered, cfg, readIds)
  {
    CountWherePermutation(SortBy(filtered, name), filtered, t => KeepUnread(readIds, t));
  }

  // ----------------------------------------------------------- rendering

  /** What `renderTopics` produces: the badge number sent and the visible list. */
  datatype Rendered = Rendered(badge: nat, visible: seq<Topic>)

  /** `renderTopics` of `sidepanel.js`: filter, sort by the drop-down, count
      the badge over the filtered list. */
  function LegacyRender(topics: seq<Topic>, blocked: seq<string>, cfg: FeedConfig,
                        readIds: seq<int>, dropDown: string): (r: Rendered)
    ensures multiset(r.visible) == multiset(LegacyApplyFilters(topics, blocked, cfg, readIds))
    ensures SortKey(dropDown).Some? ==> NonIncreasing(r.visible, SortKey(dropDown).value)
    ensures r.badge == BadgeCount(LegacyApplyFilters(topics, blocked, cfg, readIds), cfg, readIds)
    ensures r.badge <= |r.visible|
  {
    var filtered := LegacyApplyFilters(topics, blocked, cfg, readIds);
    Rendered(BadgeCount(filtered, cfg, readIds), SortBy(filtered, LegacySortName(dropDown)))
  }

  /** Under `'hide'` every visible topic is unread, so an enabled badge counts
      all of them. */
  lemma HideBadgeCountsAll(topics: seq<Topic>, blocked: seq<string>, cfg: FeedConfig,
                           readIds: seq<int>, dropDown: string)
    requires cfg.readStatusAction == "hide" && cfg.showBadge
    ensures LegacyRender(topics, blocked, cfg, readIds, dropDown).badge
            == |LegacyRender(topics, blocked, cfg, readIds, dropDown).visible|
  {
    var filtered := LegacyApplyFilters(topics, blocked, cfg, readIds);
    LegacyFiltersSelect(topics, blocked, cfg, readIds);
    assert forall i :: 0 <= i < |filtered| ==> filtered[i] in filtered;
  }

  /** `renderTopics` of `ui-render.js`: `None` when the filters raise, in which
      case no badge message is sent and nothing is drawn. */
  function ModularRender(topics: seq<Topic>, blocked: seq<string>, cfg: FeedConfig,
                         readIds: seq<int>): (r: Option<Rendered>)
    ensures r.None? <==> ModularApplyFilters(topics, blocked, cfg).ReferenceError?
    ensures r.Some? ==> multiset(r.value.visible) == multiset(BaseFilters(topics, blocked, cfg))
    ensures r.Some? && SortKey(ModularSortName(cfg)).Some? ==>
              NonIncreasing(r.value.visible, SortKey(ModularSortName(cfg)).value)
    ensures r.Some? ==> r.value.badge == BadgeCount(BaseFilters(topics, blocked, cfg), cfg, readIds)
  {
    match ModularApplyFilters(topics, blocked, cfg)
    case ReferenceError => None
    case Shown(filtered) =>
      Some(Rendered(BadgeCount(filtered, cfg, readIds), SortBy(filtered, ModularSortName(cfg))))
  }

  // ------------------------------------------------------ notifications

  /** The notification keywords: split on `,`, trimmed, lowercased, and the
      empty ones dropped. */
  function NotifyKeywords(list: string): (r: seq<string>)
    ensures forall k :: 0 <= k < |r| ==> r[k] != []
    ensures forall k :: 0 <= k < |r| ==> r[k] in BlacklistEntries(list)
    ensures forall k :: k in BlacklistEntries(list) && k != [] ==> k in r
  {
    Filter(BlacklistEntries(list), (k: string) => k != [])
  }

  /** A topic that deserves a notification: recent, not in the local read set,
      and its lowercased title contains one of the keywords. */
  predicate Notifies(keywords: seq<string>, readIds: seq<int>, now: int, t: Topic) {
    IsTopicRecent(t, now) && t.id !in readIds
    && exists k :: 0 <= k < |keywords| && Contains(Lower(t.title), keywords[k])
  }

  /** `Notifies` as the callback given to `filter`. */
  function NotifyTest(keywords: seq<string>, readIds: seq<int>, now: int): Topic -> bool {
    t => Notifies(keywords, readIds, now, t)
  }

  /** `checkNotifications(topics)`: one message per qualifying topic, in list
      order, the i-th carrying the i-th qualifying topic's title; nothing
      when `notifyKeywords` is empty.  Nothing is remembered between calls,
      so the same topic is announced again by the next call. */
  function Notifications(topics: seq<Topic>, cfg: FeedConfig, readIds: seq<int>, now: int): (r: seq<string>)
    ensures cfg.notifyKeywords == "" ==> r == []
    ensures |r| <= |topics|
  {
    if cfg.notifyKeywords == "" then []
    else
      var keywords := NotifyKeywords(cfg.notifyKeywords);
      var sent := Filter(topics, NotifyTest(keywords, readIds, now));
      seq(|sent|, i requires 0 <= i < |sent| => sent[i].title)
  }

  /** One message per qualifying topic, in list order: as many messages as
      there are recent, locally unread topics matching a keyword, and the
      i-th message is the i-th such topic's title, so two such topics with
      the same title give two messages. */
  lemma NotificationsInOrder(topics: seq<Topic>, cfg: FeedConfig, readIds: seq<int>, now: int)
    requires cfg.notifyKeywords != ""
    ensures var p := NotifyTest(NotifyKeywords(cfg.notifyKeywords), readIds, now);
            var r := Notifications(topics, cfg, readIds, now);
            |r| == CountWhere(topics, p) &&
            forall i :: 0 <= i < |r| ==> r[i] == Filter(topics, p)[i].title
  {
    CountIsFilterLength(topics, NotifyTest(NotifyKeywords(cfg.notifyKeywords), readIds, now));
  }

  /** `title` is the title of a recent, locally unread topic of `topics` that
      matches a keyword. */
  ghost predicate QualifyingTitle(topics: seq<Topic>, keywords: seq<string>, readIds: seq<int>, now: int, title: string) {
    exists t :: t in topics && t.title == title && Notifies(keywords, readIds, now, t)
  }

  /** Every notified title belongs to a recent, locally unread topic whose
      title contains a non-empty keyword; and every such topic is notified. */
  lemma NotificationsExact(topics: seq<Topic>, cfg: FeedConfig, readIds: seq<int>, now: int)
    requires cfg.notifyKeywords != ""
    ensures forall i :: 0 <= i < |Notifications(topics, cfg, readIds, now)| ==>
              QualifyingTitle(topics, NotifyKeywords(cfg.notifyKeywords), readIds, now,
                              Notifications(topics, cfg, readIds, now)[i])
    ensures forall t :: t in topics && Notifies(NotifyKeywords(cfg.notifyKeywords), readIds, now, t)
              ==> t.title in Notifications(topics, cfg, readIds, now)
  {
    var keywords := NotifyKeywords(cfg.notifyKeywords);
    var p := NotifyTest(keywords, readIds, now);
    var sent := Filter(topics, p);
    var r := Notifications(topics, cfg, readIds, now);
    NotificationsInOrder(topics, cfg, readIds, now);
    CountIsFilterLength(topics, p);
    NotifiedTitlesQualify(r, sent, topics, p, keywords, readIds, now);
    QualifyingTitlesNotified(r, sent, topics, p, keywords, readIds, now);
  }

  /** Each title of a list built from the kept topics, position by position,
      is the title of a qualifying topic. */
  lemma NotifiedTitlesQualify(r: seq<string>, sent: seq<Topic>, topics: seq<Topic>, p: Topic -> bool,
                              keywords: seq<string>, readIds: seq<int>, now: int)
    requires p == NotifyTest(keywords, readIds, now) && sent == Filter(topics, p)
    requires |r| == |sent| && forall i :: 0 <= i < |r| ==> r[i] == sent[i].title
    ensures forall i :: 0 <= i < |r| ==> QualifyingTitle(topics, keywords, readIds, now, r[i])
  {
    forall i | 0 <= i < |r| ensures QualifyingTitle(topics, keywords, readIds, now, r[i]) {
      SentQualifies(sent, topics, p, keywords, readIds, now, i);
    }
  }

  /** Every qualifying topic's title is in a list built from the kept topics,
      position by position. */
  lemma QualifyingTitlesNotified(r: seq<string>, sent: seq<Topic>, topics: seq<Topic>, p: Topic -> bool,
                                 keywords: seq<string>, readIds: seq<int>, now: int)
    requires p == NotifyTest(keywords, readIds, now) && sent == Filter(topics, p)
    requires |r| == |sent| && forall i :: 0 <= i < |r| ==> r[i] == sent[i].title
    ensures forall t :: t in topics && Notifies(keywords, readIds, now, t) ==> t.title in r
  {
    forall t | t in topics && Notifies(keywords, readIds, now, t) ensures t.title in r {
      FilterMembership(topics, p);
      assert p(t);
      var j := IndexOf(sent, t);
      assert r[j] == t.title;
    }
  }

  /** A topic the notification filter kept is one of the topics and qualifies. */
  lemma SentQualifies(sent: seq<Topic>, topics: seq<Topic>, p: Topic -> bool,
                      keywords: seq<string>, readIds: seq<int>, now: int, i: int)
    requires p == NotifyTest(keywords, readIds, now) && sent == Filter(topics, p)
    requires 0 <= i < |sent|
    ensures sent[i] in topics && Notifies(keywords, readIds, now, sent[i])
  {
    assert p(sent[i]);
  }

  /** A notification keyword list without any non-blank entry sends nothing. */
  lemma BlankKeywordsNotifyNothing(topics: seq<Topic>, cfg: FeedConfig, readIds: seq<int>, now: int)
    requires NotifyKeywords(cfg.notifyKeywords) == []
    ensures Notifications(topics, cfg, readIds, now) == []
  {
    if cfg.notifyKeywords != "" {
      NotificationsInOrder(topics, cfg, readIds, now);
      CountWhereExtremes(topics, NotifyTest([], readIds, now));
    }
  }
}
