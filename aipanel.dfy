/** The AI summary dialog of `src/sidepanel/ai-panel.js`: the order of the
    checks `handleSummarize` makes before asking for a summary, the state it
    keeps (`currentSummary`, `currentTopic`), and the depth the dialog
    preselects when it opens.  The posts reply and the AI reply are inputs. */
module AiPanel {
  import opened Wrappers
  import opened Summary
  import Topics

  /** The reply to the posts request: its success flag, error text, posts and
      the fetched topic's title. */
  datatype PostsReply = PostsReply(success: bool, error: Option<string>, posts: Option<seq<Post>>, topicTitle: Option<string>)

  /** The background's answer to the summary request. */
  datatype AiPanelReply = AiPanelReply(success: bool, summary: string, postCount: Option<int>, error: Option<string>)

  /** What the dialog ends up showing: a summary with the number of posts it
      is based on, or an error text. */
  datatype Shown = ShownSummary(reply: AiPanelReply, basedOn: int) | ShownError(message: string)

  /** One summarize request: what is shown and the prompt sent, if one was. */
  datatype Outcome = Outcome(shown: Shown, prompt: Option<string>)

  /** `x || fallback` for an optional string. */
  function OrElse(s: Option<string>, fallback: string): (r: string)
    ensures r != "" || fallback == ""
  {
    if s.Some? && s.value != "" then s.value else fallback
  }

  /** `depth === 'smart' ? 'hot' : depth`. */
  function ActualDepth(depth: string): (d: string)
    ensures d != "smart"
  {
    if depth == "smart" then "hot" else depth
  }

  /** `handleSummarize(topic, depth)`: each failed check throws and its
      message is shown; every such message is non-empty, so the `'未知错误'`
      fallback never applies. */
  function SummarizeOutcome(topic: Topics.Topic, depth: string, apiUrl: string, apiKey: string,
                            postsRes: PostsReply, plain: string -> string, aiReply: Option<AiPanelReply>): (o: Outcome)
    ensures o.shown.ShownError? ==> o.shown.message != ""
    ensures o.prompt.Some? ==> postsRes.success && postsRes.posts.Some? && postsRes.posts.value != [] &&
                               apiUrl != "" && apiKey != ""
    ensures o.shown.ShownSummary? ==> o.prompt.Some? && aiReply.Some? && aiReply.value.success &&
                                      o.shown.reply == aiReply.value
  {
    if !postsRes.success then Outcome(ShownError(OrElse(postsRes.error, "获取帖子失败")), None)
    else if postsRes.posts.None? || postsRes.posts.value == [] then Outcome(ShownError("该帖子暂无回复内容"), None)
    else if apiUrl == "" || apiKey == "" then Outcome(ShownError("请先在设置中配置 AI API"), None)
    else
      var actual := ActualDepth(depth);
      var selected := FilterPostsByDepth(postsRes.posts.value, actual);
      if selected == [] then Outcome(ShownError("没有可总结的帖子内容"), None)
      else
        var prompt := BuildSummaryPrompt(OrElse(postsRes.topicTitle, topic.title), selected, actual, plain);
        if aiReply.None? || !aiReply.value.success then
          var err := if aiReply.Some? then aiReply.value.error else None;
          Outcome(ShownError(OrElse(err, "AI 总结失败")), Some(prompt))
        else
          var count := aiReply.value.postCount;
          var basedOn := if count.Some? && count.value != 0 then count.value else |selected|;
          Outcome(ShownSummary(aiReply.value, basedOn), Some(prompt))
  }

  /** A failed or empty posts reply is reported first, whatever the
      configuration, and no prompt is built. */
  lemma PostsCheckedFirst(topic: Topics.Topic, depth: string, apiUrl: string, apiKey: string,
                          postsRes: PostsReply, plain: string -> string, aiReply: Option<AiPanelReply>)
    requires !postsRes.success || postsRes.posts.None? || postsRes.posts == Some([])
    ensures var o := SummarizeOutcome(topic, depth, apiUrl, apiKey, postsRes, plain, aiReply);
            o.prompt.None? &&
            o.shown == ShownError(if !postsRes.success then OrElse(postsRes.error, "获取帖子失败") else "该帖子暂无回复内容")
  {
  }

  /** After a good posts reply the panel makes the same checks in the same
      order as `summarizeWithAI`, and sends the prompt it would build for the
      title the panel chose (the fetched topic's title when it has one). */
  lemma PanelAgreesWithPrepare(topic: Topics.Topic, depth: string, apiUrl: string, apiKey: string,
                               postsRes: PostsReply, plain: string -> string, aiReply: Option<AiPanelReply>)
    requires postsRes.success && postsRes.posts.Some? && postsRes.posts.value != []
    ensures var title := OrElse(postsRes.topicTitle, topic.title);
            var prep := PrepareSummary(postsRes.posts.value, title, apiUrl, apiKey, depth, plain);
            var o := SummarizeOutcome(topic, depth, apiUrl, apiKey, postsRes, plain, aiReply);
            (prep.Rejected? <==> o.prompt.None?) &&
            (prep.Rejected? ==> o.shown == ShownError(prep.error)) &&
            (prep.Ready? ==> o.prompt == Some(prep.prompt))
  {
  }

  /** A reported summary is based on the count the service gave, or else on
      the posts selected, which is at least one. */
  lemma SummaryCountsPosts(topic: Topics.Topic, depth: string, apiUrl: string, apiKey: string,
                           postsRes: PostsReply, plain: string -> string, aiReply: Option<AiPanelReply>)
    requires SummarizeOutcome(topic, depth, apiUrl, apiKey, postsRes, plain, aiReply).shown.ShownSummary?
    requires aiReply.Some? && (aiReply.value.postCount.None? || aiReply.value.postCount == Some(0))
    ensures var o := SummarizeOutcome(topic, depth, apiUrl, apiKey, postsRes, plain, aiReply);
            1 <= o.shown.basedOn <= |postsRes.posts.value|
  {
    var selected := FilterPostsByDepth(postsRes.posts.value, ActualDepth(depth));
    assert |selected| == |multiset(selected)| <= |multiset(postsRes.posts.value)|;
  }

  /** The depth radios of the dialog. */
  predicate IsRadio(d: string) {
    d == "summary" || d == "hot" || d == "all"
  }

  /** The default depth: the configured one, unless that is `smart` or
      unset, in which case the content type's recommendation. */
  function DefaultDepth(aiSummaryDepth: Option<string>, title: string): (d: string)
    ensures OrElse(aiSummaryDepth, "smart") == "smart" ==> d == DetectContentType(title).recommended
    ensures OrElse(aiSummaryDepth, "smart") != "smart" ==> d == aiSummaryDepth.value
  {
    if OrElse(aiSummaryDepth, "smart") == "smart" then DetectContentType(title).recommended
    else aiSummaryDepth.value
  }

  /** The radio checked: the default depth's radio, or `hot` when there is none. */
  function SelectedRadio(d: string): (r: string)
    ensures IsRadio(r)
    ensures IsRadio(d) ==> r == d
  {
    if IsRadio(d) then d else "hot"
  }

  /** With `smart` configured, a title without any keyword (recommended
      `smart`, which has no radio) opens on `hot`; other titles open on
      their recommendation. */
  lemma SmartOpensOnRecommendation(title: string)
    ensures var rec := DetectContentType(title);
            SelectedRadio(DefaultDepth(Some("smart"), title)) ==
            (if rec.kind == "general" then "hot" else rec.recommended)
  {
  }

  /** The dialog's state. */
  class SummaryDialog {
    var currentSummary: Option<AiPanelReply>
    var currentTopic: Option<Topics.Topic>
    /** The checked depth radio; none is checked before the dialog first opens. */
    var checkedDepth: Option<string>

    constructor()
      ensures currentSummary.None? && currentTopic.None? && checkedDepth.None?
    {
      currentSummary := None;
      currentTopic := None;
      checkedDepth := None;
    }

    /** `handleSummarize`: only a successful summary changes the state, and
        then it records that summary and topic. */
    method HandleSummarize(topic: Topics.Topic, depth: string, apiUrl: string, apiKey: string,
                           postsRes: PostsReply, plain: string -> string, aiReply: Option<AiPanelReply>)
      returns (o: Outcome)
      modifies this
      ensures o == SummarizeOutcome(topic, depth, apiUrl, apiKey, postsRes, plain, aiReply)
      ensures o.shown.ShownSummary? ==> currentSummary == aiReply && currentTopic == Some(topic)
      ensures !o.shown.ShownSummary? ==> currentSummary == old(currentSummary) && currentTopic == old(currentTopic)
      ensures checkedDepth == old(checkedDepth)
    {
      if !postsRes.success {
        return Outcome(ShownError(OrElse(postsRes.error, "获取帖子失败")), None);
      }
      if postsRes.posts.None? || postsRes.posts.value == [] {
        return Outcome(ShownError("该帖子暂无回复内容"), None);
      }
      if apiUrl == "" || apiKey == "" {
        return Outcome(ShownError("请先在设置中配置 AI API"), None);
      }
      var actual := ActualDepth(depth);
      var selected := FilterPostsByDepth(postsRes.posts.value, actual);
      if selected == [] {
        return Outcome(ShownError("没有可总结的帖子内容"), None);
      }
      var prompt := BuildSummaryPrompt(OrElse(postsRes.topicTitle, topic.title), selected, actual, plain);
      if aiReply.None? || !aiReply.value.success {
        var err := if aiReply.Some? then aiReply.value.error else None;
        return Outcome(ShownError(OrElse(err, "AI 总结失败")), Some(prompt));
      }
      currentSummary := aiReply;
      currentTopic := Some(topic);
      var count := aiReply.value.postCount;
      var basedOn := if count.Some? && count.value != 0 then count.value else |selected|;
      return Outcome(ShownSummary(aiReply.value, basedOn), Some(prompt));
    }

    /** `openAISummaryModal(topic)`: records the topic and checks the default
        depth's radio. */
    method Open(topic: Topics.Topic, aiSummaryDepth: Option<string>)
      modifies this
      ensures currentTopic == Some(topic) && currentSummary == old(currentSummary)
      ensures checkedDepth == Some(SelectedRadio(DefaultDepth(aiSummaryDepth, topic.title)))
      ensures IsRadio(checkedDepth.value)
    {
      currentTopic := Some(topic);
      var defaultDepth := DefaultDepth(aiSummaryDepth, topic.title);
      if IsRadio(defaultDepth) {
        checkedDepth := Some(defaultDepth);
      } else {
        checkedDepth := Some("hot");
      }
    }

    /** `closeAISummaryModal()`: forgets the summary and the topic. */
    method Close()
      modifies this
      ensures currentSummary.None? && currentTopic.None? && checkedDepth == old(checkedDepth)
    {
      currentSummary := None;
      currentTopic := None;
    }
  }
}
