/** The summary assembler of `src/utils/ai.js`: which posts a summary
    depth selects, the prompt built from them, the content-type guess that
    recommends a depth, and `summarizeWithAI`'s validation, provider
    dispatch and reply parsing.  HTML-to-text extraction is a parameter
    (`plain`), and the AI service's reply is an input. */
module Summary {
  import opened Wrappers
  import opened Text
  import opened Sequences

  /** A post of a topic as the posts endpoint delivers it. */
  datatype Post = Post(postNumber: int, username: string, likeCount: Option<int>, cooked: string)

  /** `p.like_count || 0`. */
  function Likes(p: Post): int {
    p.likeCount.GetOr(0)
  }

  /** The opening post: `post_number === 1`. */
  predicate IsOpening(p: Post) {
    p.postNumber == 1
  }

  /** A post with at least two likes. */
  predicate IsHot(p: Post) {
    Likes(p) >= 2
  }

  /** How many posts the `hot` depth keeps at most. */
  const HotLimit: nat := 10

  /** `filterPostsByDepth(posts, depth)`. */
  function FilterPostsByDepth(posts: seq<Post>, depth: string): (r: seq<Post>)
    ensures depth != "summary" && depth != "hot" ==> r == posts
    ensures multiset(r) <= multiset(posts)
    ensures depth == "hot" ==> NonIncreasing(r, Likes)
    ensures depth == "hot" ==> multiset(r) <= multiset(Filter(posts, IsHot))
    ensures depth == "hot" ==>
              |r| == (if |Filter(posts, IsHot)| < HotLimit then |Filter(posts, IsHot)| else HotLimit)
  {
    if depth == "all" then posts
    else if depth == "summary" then
      FilterMultiset(posts, IsOpening);
      Filter(posts, IsOpening)
    else if depth == "hot" then
      var eligible := Filter(posts, IsHot);
      var sorted := SortDesc(eligible, Likes);
      FilterMultiset(posts, IsHot);
      TakeMultiset(sorted, HotLimit);
      TakeNonIncreasing(sorted, Likes, HotLimit);
      Take(sorted, HotLimit)
    else posts
  }

  /** A filtered sequence is a sub-multiset of its input. */
  lemma {:induction false} FilterMultiset<T>(s: seq<T>, p: T -> bool)
    ensures multiset(Filter(s, p)) <= multiset(s)
  {
    if s != [] {
      FilterMultiset(s[1..], p);
      assert s == [s[0]] + s[1..];
    }
  }

  /** A prefix is a sub-multiset. */
  lemma TakeMultiset<T>(s: seq<T>, n: nat)
    ensures multiset(Take(s, n)) <= multiset(s)
  {
    if n < |s| {
      assert s == s[..n] + s[n..];
    }
  }

  /** A prefix of a non-increasing sequence is non-increasing. */
  lemma TakeNonIncreasing<T>(s: seq<T>, key: T -> int, n: nat)
    requires NonIncreasing(s, key)
    ensures NonIncreasing(Take(s, n), key)
  {
  }

  /** `summary` keeps exactly the opening posts, in input order. */
  lemma SummaryDepthSelects(posts: seq<Post>)
    ensures var r := FilterPostsByDepth(posts, "summary");
            IsSubsequence(r, posts) &&
            (forall i :: 0 <= i < |r| ==> r[i].postNumber == 1) &&
            (forall i :: 0 <= i < |posts| && posts[i].postNumber == 1 ==> posts[i] in r)
  {
    FilterIsSubsequence(posts, IsOpening);
  }

  /** `hot` keeps only posts with at least two likes, most liked first:
      ten of them when there are more than ten such posts, and otherwise all
      of them. */
  lemma HotDepthSelects(posts: seq<Post>)
    ensures var r := FilterPostsByDepth(posts, "hot");
            (forall i :: 0 <= i < |r| ==> r[i] in posts && Likes(r[i]) >= 2) &&
            (|Filter(posts, IsHot)| > HotLimit ==> |r| == HotLimit) &&
            (|Filter(posts, IsHot)| <= HotLimit ==> multiset(r) == multiset(Filter(posts, IsHot)))
  {
    var eligible := Filter(posts, IsHot);
    var sorted := SortDesc(eligible, Likes);
    var r := FilterPostsByDepth(posts, "hot");
    assert r == Take(sorted, HotLimit);
    forall i | 0 <= i < |r| ensures r[i] in posts && Likes(r[i]) >= 2 {
      assert r[i] == sorted[i];
      assert r[i] in multiset(sorted);
      assert r[i] in eligible;
    }
  }

  /** The ten kept are the most liked: every post with two or more likes
      that is left out has no more likes than any post kept. */
  lemma HotDepthKeepsMostLiked(posts: seq<Post>, p: Post, q: Post)
    requires p in posts && IsHot(p)
    requires q in FilterPostsByDepth(posts, "hot") && p !in FilterPostsByDepth(posts, "hot")
    ensures Likes(p) <= Likes(q)
  {
    var eligible := Filter(posts, IsHot);
    var sorted := SortDesc(eligible, Likes);
    var r := FilterPostsByDepth(posts, "hot");
    assert r == Take(sorted, HotLimit);
    var i := IndexOf(posts, p);
    assert p in multiset(sorted);
    var k := IndexOf(sorted, p);
    var j := IndexOf(r, q);
    assert r[j] == sorted[j];
    assert k >= |r|;
  }

  /** Ties are cut in input order: for every like count, the kept posts with
      that count are the first ones with it among the eligible posts, since
      the sort is stable and the cut keeps a prefix. */
  lemma HotTiesKeepInputOrder(posts: seq<Post>, likes: int)
    ensures KeyClass(FilterPostsByDepth(posts, "hot"), Likes, likes) <= KeyClass(Filter(posts, IsHot), Likes, likes)
  {
    var sorted := SortDesc(Filter(posts, IsHot), Likes);
    assert FilterPostsByDepth(posts, "hot") == Take(sorted, HotLimit);
    KeyClassPrefix(Take(sorted, HotLimit), sorted, Likes, likes);
    SortDescStable(Filter(posts, IsHot), Likes, likes);
  }

  // ---------------------------------------------------------------------
  // The prompt

  const SummaryInstruction := "重点提取楼主的核心问题和主要观点，以及最有价值的回复。总结控制在100字以内。"
  const HotInstruction := "总结热门回复的主要观点和讨论焦点。控制150字以内。"
  const AllInstruction := "全面总结帖子讨论内容，包括问题、解决方案、各方观点。控制200字以内。"

  /** The depth instructions; an unknown depth gets the `all` text. */
  function Instruction(depth: string): (s: string)
    ensures depth != "summary" && depth != "hot" ==> s == AllInstruction
    ensures s == SummaryInstruction <==> depth == "summary"
    ensures s == HotInstruction <==> depth == "hot"
  {
    if depth == "summary" then SummaryInstruction
    else if depth == "hot" then HotInstruction
    else AllInstruction
  }

  /** The head of a post's line: `[n楼 @user] (likes赞) `. */
  function LineHead(p: Post): string {
    "[" + IntToString(p.postNumber) + "楼 @" + p.username + "] (" + IntToString(Likes(p)) + "赞) "
  }

  /** One post's line: its head and the first 500 characters of its text
      (`substring(0, 500)`; see the README on characters outside the Basic
      Multilingual Plane). */
  function PostLine(p: Post, plain: string -> string): (line: string)
    ensures StartsWith(line, LineHead(p))
    ensures |line| == |LineHead(p)| + (if |plain(p.cooked)| < 500 then |plain(p.cooked)| else 500)
    ensures line[|LineHead(p)|..] <= plain(p.cooked)
    ensures |plain(p.cooked)| <= 500 ==> line == LineHead(p) + plain(p.cooked)
  {
    LineHead(p) + Take(plain(p.cooked), 500)
  }

  /** The lines of all posts, in input order. */
  function PostLines(posts: seq<Post>, plain: string -> string): (lines: seq<string>)
    ensures |lines| == |posts|
    ensures forall i :: 0 <= i < |posts| ==> lines[i] == PostLine(posts[i], plain)
  {
    seq(|posts|, i requires 0 <= i < |posts| => PostLine(posts[i], plain))
  }

  const Preamble := "请用中文总结以下论坛帖子的讨论内容：\n\n标题："
  const ListIntro := "\n\n帖子内容：\n"

  /** The part of the prompt before the post list. */
  function PromptHead(title: string, depth: string): string {
    Preamble + title + "\n\n" + Instruction(depth) + ListIntro
  }

  /** The part of the prompt after the post list. */
  const PromptTail := "\n\n请用简洁的 bullet points 格式总结关键要点："

  /** `buildSummaryPrompt(title, posts, depth)`: the lines joined by blank lines. */
  function BuildSummaryPrompt(title: string, posts: seq<Post>, depth: string, plain: string -> string): string {
    PromptHead(title, depth) + JoinWith(PostLines(posts, plain), "\n\n") + PromptTail
  }

  /** The head names the title and the depth's instruction. */
  lemma HeadMentions(title: string, depth: string)
    ensures Contains(PromptHead(title, depth), title)
    ensures Contains(PromptHead(title, depth), Instruction(depth))
  {
    SecondAndFourth(Preamble, title, "\n\n", Instruction(depth), ListIntro);
  }

  /** Containment of the second and fourth of five concatenated parts. */
  lemma SecondAndFourth(a: string, b: string, c: string, d: string, e: string)
    ensures Contains(a + b + c + d + e, b) && Contains(a + b + c + d + e, d)
  {
    ContainsMiddle(a, b, c + d + e);
    assert a + b + (c + d + e) == a + b + c + d + e;
    ContainsMiddle(a + b + c, d, e);
  }

  /** What the head or the middle of a three-part string contains, the whole contains. */
  lemma ThreeParts(head: string, list: string, tail: string, x: string)
    ensures Contains(head, x) ==> Contains(head + list + tail, x)
    ensures Contains(list, x) ==> Contains(head + list + tail, x)
  {
    assert head + list + tail == head + (list + tail);
    if Contains(head, x) {
      ContainsExtendRight(head, list + tail, x);
    }
    if Contains(list, x) {
      ContainsExtendRight(list, tail, x);
      ContainsExtendLeft(head, list + tail, x);
    }
  }

  /** The prompt names the title and the depth's instruction and holds every
      post's line. */
  lemma PromptMentionsEverything(title: string, posts: seq<Post>, depth: string, plain: string -> string)
    ensures var prompt := BuildSummaryPrompt(title, posts, depth, plain);
            Contains(prompt, title) && Contains(prompt, Instruction(depth)) &&
            forall i :: 0 <= i < |posts| ==> Contains(prompt, PostLine(posts[i], plain))
  {
    var head := PromptHead(title, depth);
    var lines := PostLines(posts, plain);
    var list := JoinWith(lines, "\n\n");
    HeadMentions(title, depth);
    ThreeParts(head, list, PromptTail, title);
    ThreeParts(head, list, PromptTail, Instruction(depth));
    forall i | 0 <= i < |posts| ensures Contains(head + list + PromptTail, lines[i]) {
      JoinWithContains(lines, "\n\n", i);
      ThreeParts(head, list, PromptTail, lines[i]);
    }
  }

  // ---------------------------------------------------------------------
  // Content type

  /** What `detectContentType` answers. */
  datatype ContentType = ContentType(kind: string, recommended: string)

  /** One keyword group: a title containing any of `words` has this type. */
  datatype Group = Group(words: seq<string>, kind: string, recommended: string)

  const QuestionWords: seq<string> := ["求助", "问题", "怎么", "请问", "为什么", "报错"]
  const DiscussionWords: seq<string> := ["讨论", "看法", "聊聊", "觉得", "大家"]
  const TutorialWords: seq<string> := ["分享", "教程", "安装", "配置", "搭建"]
  const ReviewWords: seq<string> := ["评测", "对比", "哪个好"]

  /** The keyword groups, in the order they are tried. */
  function Groups(): seq<Group> {
    [ Group(QuestionWords, "question", "hot"),
      Group(DiscussionWords, "discussion", "all"),
      Group(TutorialWords, "tutorial", "summary"),
      Group(ReviewWords, "review", "hot") ]
  }

  /** `t.includes(w1) || t.includes(w2) || ...`. */
  predicate AnyIn(t: string, words: seq<string>) {
    exists i :: 0 <= i < |words| && Contains(t, words[i])
  }

  /** The reference reading: the first group with a word in the title, else
      the general type. */
  function FirstMatch(groups: seq<Group>, t: string): ContentType {
    if groups == [] then ContentType("general", "smart")
    else if AnyIn(t, groups[0].words) then ContentType(groups[0].kind, groups[0].recommended)
    else FirstMatch(groups[1..], t)
  }

  /** `detectContentType(title)`: four keyword tests in a row. */
  function DetectContentType(title: string): (r: ContentType)
    ensures r.recommended in {"hot", "all", "summary", "smart"}
    ensures r.kind == "general" <==> r.recommended == "smart"
  {
    var t := Lower(title);
    if AnyIn(t, QuestionWords) then ContentType("question", "hot")
    else if AnyIn(t, DiscussionWords) then ContentType("discussion", "all")
    else if AnyIn(t, TutorialWords) then ContentType("tutorial", "summary")
    else if AnyIn(t, ReviewWords) then ContentType("review", "hot")
    else ContentType("general", "smart")
  }

  /** The chain of tests is the first-match reading of the group table: the
      earliest group with a word in the title decides, and a title with no
      keyword is general. */
  lemma {:induction false} DetectIsFirstMatch(title: string)
    ensures DetectContentType(title) == FirstMatch(Groups(), Lower(title))
  {
    var g := Groups();
    var t := Lower(title);
    var g1, g2, g3 := g[1..], g[1..][1..], g[1..][1..][1..];
    assert g1[0] == g[1] && g2[0] == g[2] && g3[0] == g[3] && g3[1..] == [];
    assert FirstMatch(g3[1..], t) == ContentType("general", "smart");
    assert FirstMatch(g3, t) == if AnyIn(t, ReviewWords) then ContentType("review", "hot") else FirstMatch(g3[1..], t);
    assert FirstMatch(g2, t) == if AnyIn(t, TutorialWords) then ContentType("tutorial", "summary") else FirstMatch(g3, t);
    assert FirstMatch(g1, t) == if AnyIn(t, DiscussionWords) then ContentType("discussion", "all") else FirstMatch(g2, t);
    assert FirstMatch(g, t) == if AnyIn(t, QuestionWords) then ContentType("question", "hot") else FirstMatch(g1, t);
  }

  // ---------------------------------------------------------------------
  // summarizeWithAI

  /** The kind of AI service, told apart by the configured URL. */
  datatype Provider = MiniMax | Anthropic | OpenAiCompatible

  /** `aiApiUrl.replace(/\/$/, '')`: at most one trailing slash goes. */
  function StripTrailingSlash(url: string): (r: string)
    ensures r == url || r + "/" == url
    ensures url != [] && url[|url| - 1] == '/' ==> r + "/" == url
  {
    if url != [] && url[|url| - 1] == '/' then url[..|url| - 1] else url
  }

  /** The provider test: MiniMax is tried before Anthropic. */
  function ProviderOf(baseUrl: string): (p: Provider)
    ensures p == MiniMax <==> Contains(baseUrl, "minimax")
    ensures p == Anthropic <==> !Contains(baseUrl, "minimax") && Contains(baseUrl, "anthropic")
    ensures p == OpenAiCompatible <==> !Contains(baseUrl, "minimax") && !Contains(baseUrl, "anthropic")
  {
    AnthropicPathIsRedundant(baseUrl);
    if Contains(baseUrl, "minimax") || Contains(baseUrl, "api.minimax.io") then MiniMax
    else if Contains(baseUrl, "anthropic") || Contains(baseUrl, "/anthropic") then Anthropic
    else OpenAiCompatible
  }

  /** The second test of each pair adds nothing: a URL containing
      `api.minimax.io` contains `minimax`, and one containing `/anthropic`
      contains `anthropic`. */
  lemma AnthropicPathIsRedundant(baseUrl: string)
    ensures Contains(baseUrl, "api.minimax.io") ==> Contains(baseUrl, "minimax")
    ensures Contains(baseUrl, "/anthropic") ==> Contains(baseUrl, "anthropic")
  {
    if Contains(baseUrl, "api.minimax.io") {
      ContainsTransitive(baseUrl, "api.minimax.io", "minimax", "api.", ".io");
    }
    if Contains(baseUrl, "/anthropic") {
      ContainsTransitive(baseUrl, "/anthropic", "anthropic", "/", "");
    }
  }

  /** If `s` contains `a + x + b`, it contains `x`. */
  lemma {:induction false} ContainsTransitive(s: string, y: string, x: string, a: string, b: string)
    requires y == a + x + b && Contains(s, y)
    ensures Contains(s, x)
    decreases |s|
  {
    if y <= s {
      ContainsMiddle(a, x, b);
      ContainsExtendRight(y, s[|y|..], x);
      assert y + s[|y|..] == s;
    } else {
      ContainsTransitive(s[1..], y, x, a, b);
      ContainsExtendLeft(s[..1], s[1..], x);
      assert s[..1] + s[1..] == s;
    }
  }

  /** The path each provider is called at. */
  function ProviderPath(p: Provider): string {
    match p
    case MiniMax => "/v1/text/chatcompletion_v2"
    case Anthropic => "/v1/messages"
    case OpenAiCompatible => "/v1/chat/completions"
  }

  /** A request ready to be sent, or the validation error that stopped it. */
  datatype Prepared =
    | Rejected(error: string)
    | Ready(endpoint: string, provider: Provider, prompt: string, posts: seq<Post>, depth: string)

  /** The validation and dispatch part of `summarizeWithAI`, before any
      network call.  An empty URL or key is unset. */
  function PrepareSummary(posts: seq<Post>, title: string, apiUrl: string, apiKey: string,
                          depth: string, plain: string -> string): (r: Prepared)
    ensures apiUrl == "" || apiKey == "" ==> r == Rejected("请先在设置中配置 AI API")
    ensures r.Ready? ==> r.posts != [] && r.depth != "smart" &&
                         r.endpoint == StripTrailingSlash(apiUrl) + ProviderPath(r.provider) &&
                         r.provider == ProviderOf(StripTrailingSlash(apiUrl))
    ensures r.Ready? ==> r.depth == (if depth == "smart" then "hot" else depth) &&
                         r.posts == FilterPostsByDepth(posts, r.depth) &&
                         r.prompt == BuildSummaryPrompt(title, r.posts, r.depth, plain)
  {
    if apiUrl == "" || apiKey == "" then Rejected("请先在设置中配置 AI API")
    else
      var actualDepth := if depth == "smart" then "hot" else depth;
      var selected := FilterPostsByDepth(posts, actualDepth);
      if selected == [] then Rejected("没有可总结的帖子内容")
      else
        var baseUrl := StripTrailingSlash(apiUrl);
        var provider := ProviderOf(baseUrl);
        Ready(baseUrl + ProviderPath(provider), provider,
              BuildSummaryPrompt(title, selected, actualDepth, plain), selected, actualDepth)
  }

  /** The message content of a `choices` entry. */
  datatype AiMessage = AiMessage(content: Option<string>)

  /** One entry of `choices`. */
  datatype AiChoice = AiChoice(message: Option<AiMessage>, content: Option<string>)

  /** One block of an Anthropic `content` array. */
  datatype AiBlock = AiBlock(text: Option<string>)

  /** The parsed reply body, reduced to the members the parser reads. */
  datatype AiBody = AiBody(choices: Option<seq<AiChoice>>, content: Option<seq<AiBlock>>)

  /** The reply to the AI request: a thrown error (network failure or an
      unparsable body), a non-OK status with the message scraped from its
      body if any, or an OK body. */
  datatype AiReply = AiThrown(message: string) | AiNotOk(status: int, scraped: Option<string>) | AiOk(body: AiBody)

  /** `x || ''` for an optional string. */
  function OrEmpty(s: Option<string>): string {
    s.GetOr("")
  }

  /** `choices?.[0]?.message?.content`. */
  function FirstMessage(b: AiBody): Option<string> {
    if b.choices.Some? && |b.choices.value| > 0 && b.choices.value[0].message.Some?
    then b.choices.value[0].message.value.content else None
  }

  /** `choices?.[0]?.content`. */
  function FirstChoiceContent(b: AiBody): Option<string> {
    if b.choices.Some? && |b.choices.value| > 0 then b.choices.value[0].content else None
  }

  /** `content?.[0]?.text`. */
  function FirstBlockText(b: AiBody): Option<string> {
    if b.content.Some? && |b.content.value| > 0 then b.content.value[0].text else None
  }

  /** The summary text read from the reply, per provider. */
  function ParseSummary(p: Provider, b: AiBody): string {
    match p
    case MiniMax =>
      if OrEmpty(FirstMessage(b)) != "" then OrEmpty(FirstMessage(b)) else OrEmpty(FirstChoiceContent(b))
    case Anthropic => OrEmpty(FirstBlockText(b))
    case OpenAiCompatible => OrEmpty(FirstMessage(b))
  }

  /** A chat-completion reply carrying `text` as its first message. */
  function ChatReply(text: string): AiBody {
    AiBody(Some([AiChoice(Some(AiMessage(Some(text))), None)]), None)
  }

  /** An Anthropic messages reply carrying `text` in its first block. */
  function MessagesReply(text: string): AiBody {
    AiBody(None, Some([AiBlock(Some(text))]))
  }

  /** Each provider's reader gets back the text its own reply shape carries,
      and the Anthropic reader finds nothing in a chat-completion reply nor
      the chat readers in a messages reply: with the wrong shape the request
      still succeeds, with an empty summary. */
  lemma ReadersReadTheirShape(text: string)
    ensures ParseSummary(MiniMax, ChatReply(text)) == text
    ensures ParseSummary(OpenAiCompatible, ChatReply(text)) == text
    ensures ParseSummary(Anthropic, MessagesReply(text)) == text
    ensures ParseSummary(Anthropic, ChatReply(text)) == ""
    ensures ParseSummary(MiniMax, MessagesReply(text)) == "" && ParseSummary(OpenAiCompatible, MessagesReply(text)) == ""
  {
  }

  /** MiniMax and the OpenAI-compatible reader agree on every reply whose
      first choice has a non-empty message; they differ only where MiniMax
      falls back to the choice's own `content`. */
  lemma ChatReadersAgree(b: AiBody)
    ensures OrEmpty(FirstMessage(b)) != "" ==>
              ParseSummary(MiniMax, b) == ParseSummary(OpenAiCompatible, b) == OrEmpty(FirstMessage(b))
    ensures ParseSummary(MiniMax, b) != ParseSummary(OpenAiCompatible, b) ==>
              ParseSummary(OpenAiCompatible, b) == "" && ParseSummary(MiniMax, b) == OrEmpty(FirstChoiceContent(b))
  {
  }

  /** Each reader looks at one part of the body only: the Anthropic reader
      ignores `choices`, the chat readers ignore `content`. */
  lemma ReadersIgnoreOtherShape(b: AiBody, choices: Option<seq<AiChoice>>, content: Option<seq<AiBlock>>)
    ensures ParseSummary(Anthropic, b) == ParseSummary(Anthropic, b.(choices := choices))
    ensures ParseSummary(MiniMax, b) == ParseSummary(MiniMax, b.(content := content))
    ensures ParseSummary(OpenAiCompatible, b) == ParseSummary(OpenAiCompatible, b.(content := content))
  {
  }

  /** What `summarizeWithAI` resolves to (usage figures left out). */
  datatype SummaryResult = Summarized(summary: string, postCount: nat, depth: string) | SummaryFailed(error: string)

  /** `summarizeWithAI(posts, topic, config, depth)`, with `reply` the AI
      service's answer to the prepared request. */
  function SummarizeWithAI(posts: seq<Post>, title: string, apiUrl: string, apiKey: string,
                           depth: string, plain: string -> string, reply: AiReply): (r: SummaryResult)
    ensures r.Summarized? ==> PrepareSummary(posts, title, apiUrl, apiKey, depth, plain).Ready? &&
                              1 <= r.postCount <= |posts| && r.depth != "smart"
    ensures var prep := PrepareSummary(posts, title, apiUrl, apiKey, depth, plain);
            prep.Rejected? ==> r == SummaryFailed(prep.error)
    ensures var prep := PrepareSummary(posts, title, apiUrl, apiKey, depth, plain);
            prep.Ready? && reply.AiOk? ==>
              r == Summarized(ParseSummary(prep.provider, reply.body), |prep.posts|, prep.depth)
    ensures var prep := PrepareSummary(posts, title, apiUrl, apiKey, depth, plain);
            prep.Ready? && reply.AiNotOk? ==>
              r == SummaryFailed(if reply.scraped.Some? then reply.scraped.value
                                 else "API 错误: " + IntToString(reply.status))
    ensures var prep := PrepareSummary(posts, title, apiUrl, apiKey, depth, plain);
            prep.Ready? && reply.AiThrown? ==>
              r == SummaryFailed(if reply.message == "" then "网络请求失败" else reply.message)
  {
    match PrepareSummary(posts, title, apiUrl, apiKey, depth, plain)
    case Rejected(e) => SummaryFailed(e)
    case Ready(_, provider, _, selected, actualDepth) =>
      assert multiset(selected) <= multiset(posts);
      assert |selected| == |multiset(selected)| <= |multiset(posts)| == |posts|;
      match reply
      case AiThrown(m) => SummaryFailed(if m == "" then "网络请求失败" else m)
      case AiNotOk(status, scraped) =>
        SummaryFailed(if scraped.Some? then scraped.value else "API 错误: " + IntToString(status))
      case AiOk(body) => Summarized(ParseSummary(provider, body), |selected|, actualDepth)
  }

  /** Validation happens before any network call: when the request is
      rejected, the reply plays no part in the result. */
  lemma RejectionIgnoresReply(posts: seq<Post>, title: string, apiUrl: string, apiKey: string,
                              depth: string, plain: string -> string, r1: AiReply, r2: AiReply)
    requires PrepareSummary(posts, title, apiUrl, apiKey, depth, plain).Rejected?
    ensures SummarizeWithAI(posts, title, apiUrl, apiKey, depth, plain, r1) ==
            SummarizeWithAI(posts, title, apiUrl, apiKey, depth, plain, r2)
    ensures SummarizeWithAI(posts, title, apiUrl, apiKey, depth, plain, r1).SummaryFailed?
  {
  }

  /** The validation order: missing credentials win over an empty
      selection; with credentials, an empty selection is the error. */
  lemma ValidationOrder(posts: seq<Post>, title: string, apiUrl: string, apiKey: string,
                        depth: string, plain: string -> string)
    ensures apiUrl == "" || apiKey == "" ==>
              PrepareSummary(posts, title, apiUrl, apiKey, depth, plain) == Rejected("请先在设置中配置 AI API")
    ensures apiUrl != "" && apiKey != "" ==>
              (PrepareSummary(posts, title, apiUrl, apiKey, depth, plain) == Rejected("没有可总结的帖子内容") <==>
               FilterPostsByDepth(posts, if depth == "smart" then "hot" else depth) == [])
  {
  }

  /** `smart` is the `hot` depth. */
  lemma SmartMeansHot(posts: seq<Post>, title: string, apiUrl: string, apiKey: string, plain: string -> string)
    ensures PrepareSummary(posts, title, apiUrl, apiKey, "smart", plain) ==
            PrepareSummary(posts, title, apiUrl, apiKey, "hot", plain)
  {
  }

  /** A URL naming both services is MiniMax's, and the endpoint keeps the
      URL without its trailing slash. */
  lemma MiniMaxWinsOverAnthropic(posts: seq<Post>, title: string, apiUrl: string, apiKey: string,
                                 depth: string, plain: string -> string)
    requires Contains(StripTrailingSlash(apiUrl), "minimax")
    requires PrepareSummary(posts, title, apiUrl, apiKey, depth, plain).Ready?
    ensures var r := PrepareSummary(posts, title, apiUrl, apiKey, depth, plain);
            r.provider == MiniMax && r.endpoint == StripTrailingSlash(apiUrl) + "/v1/text/chatcompletion_v2"
  {
  }
}
