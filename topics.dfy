/** The forum records the side panel works on: a topic from a Discourse
    topic list, its posters, the users map built from the page's `users`
    array, and the fixed table of the forum's categories. */
module Topics {
  import opened Wrappers

  /** One entry of `posters`: `extras` is `'latest'` for the latest poster. */
  datatype Poster = Poster(userId: Option<int>, extras: Option<string>)

  /** A user record from the page's `users` array (a missing `trust_level` or
      `admin` is taken as 0 and false, as the renderer's `|| 0` and `|| false` do). */
  datatype UserInfo = UserInfo(id: int, trustLevel: int, admin: bool)

  /** A topic as the topic list delivers it; times are milliseconds since the epoch. */
  datatype Topic = Topic(
    id: int,
    title: string,
    categoryId: Option<int>,
    tags: seq<string>,
    postsCount: int,
    views: int,
    createdAt: int,
    lastPostedAt: int,
    highestPostNumber: int,
    lastReadPostNumber: Option<int>,
    posters: seq<Poster>)

  /** One row of the `CATEGORIES` table. */
  datatype Category = Category(id: int, name: string, slug: string, color: string)

  /** The category table shared by both side panels, in display order. */
  function Categories(): seq<Category> {
    [ Category(4, "开发调优", "develop", "tag-dev"),
      Category(98, "国产替代", "domestic", "tag-dev"),
      Category(14, "资源荟萃", "resource", "tag-resource"),
      Category(42, "文档共建", "wiki", "tag-dev"),
      Category(27, "非我莫属", "job", "tag-news"),
      Category(32, "读书成诗", "reading", "tag-life"),
      Category(34, "前沿快讯", "news", "tag-news"),
      Category(92, "网络记忆", "feeds", "tag-news"),
      Category(36, "福利羊毛", "welfare", "tag-resource"),
      Category(11, "搞七捻三", "gossip", "tag-life"),
      Category(2, "运营反馈", "feedback", "tag-default") ]
  }

  /** The category shown for a topic whose id is not in the table. */
  const OtherCategory := Category(0, "其他", "", "tag-default")

  /** `cats.find(c => c.id == id)`: the first row with that id. */
  function FindById(cats: seq<Category>, id: Option<int>): (r: Option<Category>)
    ensures r.Some? <==> id.Some? && exists k :: 0 <= k < |cats| && cats[k].id == id.value
    ensures r.Some? ==> r.value in cats && r.value.id == id.value
  {
    if id.None? || cats == [] then None
    else if cats[0].id == id.value then Some(cats[0])
    else FindById(cats[1..], id)
  }

  /** The slugs of all categories, in table order (the "all selected" state). */
  function AllSlugs(): (r: seq<string>)
    ensures |r| == |Categories()|
    ensures forall k :: 0 <= k < |r| ==> r[k] == Categories()[k].slug
  {
    seq(|Categories()|, k requires 0 <= k < |Categories()| => Categories()[k].slug)
  }

  /** The category a topic card shows: its table row, or `'其他'`. */
  function DisplayCategory(t: Topic): (c: Category)
    ensures FindById(Categories(), t.categoryId).None? ==> c == OtherCategory
    ensures FindById(Categories(), t.categoryId).Some? ==> c in Categories() && c.id == t.categoryId.value
  {
    FindById(Categories(), t.categoryId).GetOr(OtherCategory)
  }

  /** `tags.slice(0, 2)`: at most the first two tags are shown. */
  function ShownTags(t: Topic): (r: seq<string>)
    ensures |r| <= 2 && r <= t.tags
    ensures |t.tags| >= 2 ==> |r| == 2
  {
    if |t.tags| <= 2 then t.tags else t.tags[..2]
  }

  /** The first poster marked `'latest'`, or else the last poster. */
  function LatestPoster(posters: seq<Poster>): (r: Option<Poster>)
    ensures posters == [] <==> r.None?
    ensures r.Some? ==> r.value in posters
    ensures (exists k :: 0 <= k < |posters| && posters[k].extras == Some("latest"))
            ==> r.Some? && r.value.extras == Some("latest") && IsFirstLatest(posters, r.value)
    ensures (forall k :: 0 <= k < |posters| ==> posters[k].extras != Some("latest"))
            ==> r == (if posters == [] then None else Some(posters[|posters| - 1]))
  {
    match FirstLatest(posters)
    case Some(p) => Some(p)
    case None => if posters == [] then None else Some(posters[|posters| - 1])
  }

  /** `p` stands at a position of `posters` before which no poster is
      marked `'latest'`. */
  ghost predicate IsFirstLatest(posters: seq<Poster>, p: Poster) {
    exists k :: 0 <= k < |posters| && posters[k] == p &&
                forall j :: 0 <= j < k ==> posters[j].extras != Some("latest")
  }

  /** `posters.find(p => p.extras === 'latest')`: the first marked poster. */
  function FirstLatest(posters: seq<Poster>): (r: Option<Poster>)
    ensures r.Some? <==> exists k :: 0 <= k < |posters| && posters[k].extras == Some("latest")
    ensures r.Some? ==> r.value in posters && r.value.extras == Some("latest")
    ensures r.Some? ==> IsFirstLatest(posters, r.value)
  {
    if posters == [] then None
    else if posters[0].extras == Some("latest") then Some(posters[0])
    else
      var r := FirstLatest(posters[1..]);
      assert forall k :: 1 <= k < |posters| ==> posters[k] == posters[1..][k - 1];
      if r.Some? then
        var k :| 0 <= k < |posters[1..]| && posters[1..][k] == r.value &&
                 forall j :: 0 <= j < k ==> posters[1..][j].extras != Some("latest");
        assert posters[k + 1] == r.value;
        assert forall j :: 0 <= j < k + 1 ==> posters[j].extras != Some("latest");
        r
      else r
  }

  /** The trust level and admin flag of the topic's latest poster: looked up in
      the users map when the poster's id is truthy and present, else `(0, false)`. */
  function TrustOf(t: Topic, users: Option<map<int, UserInfo>>): (r: (int, bool))
    ensures r != (0, false) ==>
      LatestPoster(t.posters).Some? && users.Some? &&
      var uid := LatestPoster(t.posters).value.userId;
      uid.Some? && uid.value != 0 && uid.value in users.value &&
      r == (users.value[uid.value].trustLevel, users.value[uid.value].admin)
    ensures var lp := LatestPoster(t.posters);
            lp.Some? && lp.value.userId.Some? && lp.value.userId.value != 0 &&
            users.Some? && lp.value.userId.value in users.value ==>
              r == (users.value[lp.value.userId.value].trustLevel, users.value[lp.value.userId.value].admin)
  {
    match LatestPoster(t.posters)
    case None => (0, false)
    case Some(p) =>
      if p.userId.Some? && p.userId.value != 0 && users.Some? && p.userId.value in users.value then
        var u := users.value[p.userId.value];
        (u.trustLevel, u.admin)
      else (0, false)
  }

  /** `new Map(users.map(u => [u.id, u]))`: a later entry with the same id wins. */
  function UsersMap(users: seq<UserInfo>): (m: map<int, UserInfo>)
    ensures forall u :: u in users ==> u.id in m
    ensures forall id :: id in m ==> m[id] in users && m[id].id == id
  {
    if users == [] then map[]
    else UsersMap(users[..|users| - 1])[users[|users| - 1].id := users[|users| - 1]]
  }
}
