/**
 * The research and content screen: from a topic it asks the service for a research summary,
 * then for an article written from that summary, and on request for derivative pieces
 * (short posts, a podcast script, a video script) written from the article. Each result is
 * recorded in the application's history; the article is also reported to the automations.
 */
module ResearchAndArticle {
  import opened Types
  import opened Text
  import GeminiService
  import AppRoot

  /** The three derivative texts, one per type. */
  datatype Derivatives = Derivatives(shorts: string, podcast: string, video: string)

  const NoDerivatives := Derivatives("", "", "")

  /** `derivativeContent[type]`. */
  function GetDerivative(d: Derivatives, t: DerivativeType): string {
    match t
    case Shorts => d.shorts
    case Podcast => d.podcast
    case Video => d.video
  }

  /** `{ ...prev, [type]: text }`: only that type's text changes. */
  function SetDerivative(d: Derivatives, t: DerivativeType, text: string): (r: Derivatives)
    ensures GetDerivative(r, t) == text
    ensures forall u :: u != t ==> GetDerivative(r, u) == GetDerivative(d, u)
  {
    match t
    case Shorts => d.(shorts := text)
    case Podcast => d.(podcast := text)
    case Video => d.(video := text)
  }

  /** `s.charAt(0).toUpperCase() + s.slice(1)`. */
  function Capitalize(s: string): (r: string)
    ensures |r| == |s|
    ensures s != [] ==> r[0] == UpperChar(s[0]) && r[1..] == s[1..]
  {
    if s == [] then [] else [UpperChar(s[0])] + s[1..]
  }

  /** The name of a derivative type in history topics: its key with a capital first letter. */
  function TypeName(t: DerivativeType): (r: string)
    ensures r == Capitalize(DerivativeKey(t))
  {
    match t
    case Shorts => "Shorts"
    case Podcast => "Podcast"
    case Video => "Video"
  }

  /** The history topic of a derivative piece: the type name, ` for: `, then the research topic. */
  function DerivativeTopic(t: DerivativeType, topic: string): (r: string)
    ensures StartsWith(r, TypeName(t)) && OccursAt(r, " for: ", |TypeName(t)|) && EndsWith(r, topic)
    ensures |r| == |TypeName(t)| + |" for: "| + |topic|
  {
    Framed(TypeName(t), " for: ", topic);
    TypeName(t) + " for: " + topic
  }

  /** Different types give different history topics for the same research topic. */
  lemma DerivativeTopicsDiffer(t1: DerivativeType, t2: DerivativeType, topic: string)
    requires t1 != t2
    ensures DerivativeTopic(t1, topic) != DerivativeTopic(t2, topic)
  {
    var a, b := DerivativeTopic(t1, topic), DerivativeTopic(t2, topic);
    assert a[0] == TypeName(t1)[0] && b[0] == TypeName(t2)[0];
    match t1
    case Shorts =>
    case Podcast =>
    case Video =>
  }

  /** The output tabs: the article, and one per derivative type. */
  datatype OutputTab = ArticleTab | DerivativeTab(kind: DerivativeType)

  function TabKeyOf(tab: OutputTab): string {
    match tab
    case ArticleTab => "article"
    case DerivativeTab(t) => DerivativeKey(t)
  }

  /** The article tab is always shown; a derivative tab only once its text is non-empty. */
  predicate TabVisible(tab: OutputTab, d: Derivatives) {
    tab.ArticleTab? || GetDerivative(d, tab.kind) != []
  }

  /**
   * A derivative tab is shown exactly when the teleprompter would open on a non-empty
   * script for it.
   */
  lemma DerivativeTabVisibleIffScript(kind: DerivativeType, article: string, d: Derivatives)
    ensures TabVisible(DerivativeTab(kind), d) <==> ScriptFor(TabKeyOf(DerivativeTab(kind)), article, d) != []
  {
    ScriptOfTab(DerivativeTab(kind), article, d);
  }

  /**
   * `getCurrentScriptForTeleprompter`: the text of the active output tab, or nothing when
   * the active key names no tab.
   */
  function ScriptFor(activeTab: string, article: string, d: Derivatives): (r: string)
    ensures activeTab == "article" ==> r == article
    ensures forall t :: activeTab == DerivativeKey(t) ==> r == GetDerivative(d, t)
    ensures (forall tab :: activeTab != TabKeyOf(tab)) ==> r == []
  {
    if activeTab == "article" then article
    else if activeTab == "shorts" then
      assert activeTab == TabKeyOf(DerivativeTab(Shorts));
      d.shorts
    else if activeTab == "podcast" then
      assert activeTab == TabKeyOf(DerivativeTab(Podcast));
      d.podcast
    else if activeTab == "video" then
      assert activeTab == TabKeyOf(DerivativeTab(Video));
      d.video
    else
      assert activeTab != TabKeyOf(ArticleTab);
      assert forall t :: activeTab != TabKeyOf(DerivativeTab(t));
      []
  }

  /** Each tab's script is that tab's text. */
  lemma ScriptOfTab(tab: OutputTab, article: string, d: Derivatives)
    ensures ScriptFor(TabKeyOf(tab), article, d) == if tab.ArticleTab? then article else GetDerivative(d, tab.kind)
  {
  }

  /** The history topic of a research summary. */
  function ResearchTopic(topic: string): string {
    AppRoot.HistoryTopic("Research: ", topic)
  }

  /** The history topic of an article. */
  function ArticleTopic(topic: string): string {
    AppRoot.HistoryTopic("Article: ", topic)
  }

  /** The two history entries of one generation are told apart by their topics. */
  lemma ResearchAndArticleTopicsDiffer(t1: string, t2: string)
    ensures ResearchTopic(t1) != ArticleTopic(t2)
  {
    var r, a := ResearchTopic(t1), ArticleTopic(t2);
    AppRoot.HistoryTopicShape("Research: ", t1);
    AppRoot.HistoryTopicShape("Article: ", t2);
    assert r[0] == r[..|"Research: "|][0] == 'R';
    assert a[0] == a[..|"Article: "|][0] == 'A';
  }

  const BlankTopicMessage: string := "Please enter a topic."

  class ResearchSuite {
    var topic: string
    var isLoading: bool
    var researchSummary: string
    var article: string
    var derivatives: Derivatives
    var error: string
    var activeOutputTab: string
    var teleprompterScript: Option<string>

    constructor()
      ensures topic == [] && !isLoading && researchSummary == [] && article == []
      ensures derivatives == NoDerivatives && error == [] && activeOutputTab == "article"
      ensures teleprompterScript.None?
    {
      topic, isLoading, researchSummary, article := [], false, [], [];
      derivatives, error, activeOutputTab, teleprompterScript := NoDerivatives, [], "article", None;
    }

    method SetTopic(t: string)
      modifies this`topic
      ensures topic == t
    {
      topic := t;
    }

    /** The article tab's text area is editable. */
    method EditArticle(text: string)
      modifies this`article
      ensures article == text
    {
      article := text;
    }

    /** The tab buttons. */
    method SelectTab(tab: OutputTab)
      modifies this`activeOutputTab
      ensures activeOutputTab == TabKeyOf(tab)
    {
      activeOutputTab := TabKeyOf(tab);
    }

    /**
     * The teleprompter button opens the teleprompter on the active tab's text. It is
     * disabled while that text is empty or a generation is running.
     */
    method OpenTeleprompter()
      requires ScriptFor(activeOutputTab, article, derivatives) != [] && !isLoading
      modifies this`teleprompterScript
      ensures teleprompterScript == Some(ScriptFor(activeOutputTab, article, derivatives))
    {
      teleprompterScript := Some(ScriptFor(activeOutputTab, article, derivatives));
    }

    /** Closing the teleprompter, by its close button or by Escape, drops the script. */
    method CloseTeleprompter()
      modifies this`teleprompterScript
      ensures teleprompterScript.None?
    {
      teleprompterScript := None;
    }

    /**
     * `handleGenerate`. A blank topic only sets the error. Otherwise every output is cleared
     * and the article tab selected; a failing research call leaves the summary empty and
     * shows its failure; a successful one is recorded as `Research: <topic>`, and then the
     * article is generated from the summary, which on success is reported to the
     * automations and recorded as `Article: <topic>`.
     */
    method HandleGenerate(app: AppRoot.App, research: GeminiService.ApiReply, written: GeminiService.ApiReply)
      requires app.Valid()
      modifies this`isLoading, this`error, this`researchSummary, this`article, this`derivatives,
               this`activeOutputTab, app`history, app`nextHistoryId, app`automationLogs
      ensures app.Valid()
      ensures IsBlank(topic) ==>
                && error == BlankTopicMessage && isLoading == old(isLoading)
                && researchSummary == old(researchSummary) && article == old(article)
                && derivatives == old(derivatives) && activeOutputTab == old(activeOutputTab)
                && app.history == old(app.history) && app.automationLogs == old(app.automationLogs)
      ensures !IsBlank(topic) ==>
                var summary := GeminiService.GeneratorOutput(GeminiService.ResearchAndSummarize, research);
                var generated := GeminiService.GeneratorOutput(GeminiService.GenerateArticle, written);
                && !isLoading && derivatives == NoDerivatives && activeOutputTab == "article"
                && (GeminiService.IsErrorText(summary) ==>
                      && error == summary && researchSummary == [] && article == []
                      && app.history == old(app.history) && app.automationLogs == old(app.automationLogs))
                && (!GeminiService.IsErrorText(summary) && GeminiService.IsErrorText(generated) ==>
                      && error == generated && researchSummary == summary && article == []
                      && app.history == [HistoryItem(old(app.nextHistoryId), ResearchArticle, ResearchTopic(topic), summary)]
                                        + old(app.history)
                      && app.automationLogs == old(app.automationLogs))
                && (!GeminiService.IsErrorText(summary) && !GeminiService.IsErrorText(generated) ==>
                      && error == [] && researchSummary == summary && article == generated
                      && app.history == [HistoryItem(old(app.nextHistoryId) + 1, ResearchArticle, ArticleTopic(topic), generated),
                                         HistoryItem(old(app.nextHistoryId), ResearchArticle, ResearchTopic(topic), summary)]
                                        + old(app.history)
                      && (app.automations.article.enabled ==>
                            app.automationLogs == old(app.automationLogs)
                              + [AppRoot.ArticleLogLine(topic, app.automations.article.recipient)])
                      && (!app.automations.article.enabled ==> app.automationLogs == old(app.automationLogs)))
    {
      if IsBlank(topic) {
        error := BlankTopicMessage;
        return;
      }
      isLoading := true;
      error := [];
      researchSummary := [];
      article := [];
      derivatives := NoDerivatives;
      activeOutputTab := "article";

      var summary := GeminiService.GeneratorOutput(GeminiService.ResearchAndSummarize, research);
      if GeminiService.IsErrorText(summary) {
        error := summary;
        researchSummary := [];
      } else {
        WriteArticle(app, summary, written);
      }
      isLoading := false;
    }

    /**
     * The second half of `handleGenerate`, once the research succeeded: the summary is shown
     * and recorded, then the article is written from it.
     */
    method WriteArticle(app: AppRoot.App, summary: string, written: GeminiService.ApiReply)
      requires app.Valid()
      modifies this`error, this`researchSummary, this`article, app`history, app`nextHistoryId, app`automationLogs
      ensures app.Valid()
      ensures researchSummary == summary
      ensures var generated := GeminiService.GeneratorOutput(GeminiService.GenerateArticle, written);
              var researched := HistoryItem(old(app.nextHistoryId), ResearchArticle, ResearchTopic(topic), summary);
              && (GeminiService.IsErrorText(generated) ==>
                    && error == generated && article == []
                    && app.history == [researched] + old(app.history)
                    && app.automationLogs == old(app.automationLogs))
              && (!GeminiService.IsErrorText(generated) ==>
                    && error == old(error) && article == generated
                    && app.history == [HistoryItem(old(app.nextHistoryId) + 1, ResearchArticle, ArticleTopic(topic), generated),
                                       researched] + old(app.history)
                    && (app.automations.article.enabled ==>
                          app.automationLogs == old(app.automationLogs)
                            + [AppRoot.ArticleLogLine(topic, app.automations.article.recipient)])
                    && (!app.automations.article.enabled ==> app.automationLogs == old(app.automationLogs)))
    {
      researchSummary := summary;
      ghost var before := app.history;
      app.AddToHistory(HistoryEntry(ResearchArticle, ResearchTopic(topic), summary));
      ghost var researched := app.history;
      var generated := GeminiService.GeneratorOutput(GeminiService.GenerateArticle, written);
      if GeminiService.IsErrorText(generated) {
        error := generated;
        article := [];
      } else {
        article := generated;
        RecordArticle(app, generated);
        assert researched == [researched[0]] + before;
      }
    }

    /** A written article is reported to the automations and recorded first in the history. */
    method RecordArticle(app: AppRoot.App, generated: string)
      requires app.Valid()
      modifies app`history, app`nextHistoryId, app`automationLogs
      ensures app.Valid()
      ensures app.history == [HistoryItem(old(app.nextHistoryId), ResearchArticle, ArticleTopic(topic), generated)]
                             + old(app.history)
      ensures app.nextHistoryId == old(app.nextHistoryId) + 1
      ensures app.automations.article.enabled ==>
                app.automationLogs == old(app.automationLogs) + [AppRoot.ArticleLogLine(topic, app.automations.article.recipient)]
      ensures !app.automations.article.enabled ==> app.automationLogs == old(app.automationLogs)
    {
      app.HandleArticleGenerated(topic, generated);
      app.AddToHistory(HistoryEntry(ResearchArticle, ArticleTopic(topic), generated));
      assert app.history == [app.history[0]] + old(app.history);
    }

    /**
     * `handleGenerateDerivative`. Without an article nothing happens. Otherwise the error is
     * cleared; a failure string becomes the error; any other reply becomes that type's text
     * (the other two are unchanged), its tab becomes active, and it is recorded in the history.
     */
    method HandleGenerateDerivative(app: AppRoot.App, kind: DerivativeType, reply: GeminiService.ApiReply)
      requires app.Valid()
      modifies this`error, this`derivatives, this`activeOutputTab, app`history, app`nextHistoryId
      ensures app.Valid()
      ensures article == [] ==>
                error == old(error) && derivatives == old(derivatives)
                && activeOutputTab == old(activeOutputTab) && app.history == old(app.history)
      ensures article != [] ==>
                var result := GeminiService.GeneratorOutput(GeminiService.GenerateDerivative(kind), reply);
                && (GeminiService.IsErrorText(result) ==>
                      error == result && derivatives == old(derivatives)
                      && activeOutputTab == old(activeOutputTab) && app.history == old(app.history))
                && (!GeminiService.IsErrorText(result) ==>
                      && error == [] && derivatives == SetDerivative(old(derivatives), kind, result)
                      && activeOutputTab == DerivativeKey(kind)
                      && app.history == [HistoryItem(old(app.nextHistoryId), ResearchArticle,
                                                     DerivativeTopic(kind, topic), result)] + old(app.history))
    {
      if article == [] {
        return;
      }
      error := [];
      var result := GeminiService.GeneratorOutput(GeminiService.GenerateDerivative(kind), reply);
      if GeminiService.IsErrorText(result) {
        error := result;
      } else {
        derivatives := SetDerivative(derivatives, kind, result);
        activeOutputTab := DerivativeKey(kind);
        app.AddToHistory(HistoryEntry(ResearchArticle, DerivativeTopic(kind, topic), result));
      }
    }
  }

  /**
   * After a successful derivative request the teleprompter script is the new text, and its
   * tab is shown whenever that text is non-empty.
   */
  lemma DerivativeShownAfterSuccess(d: Derivatives, kind: DerivativeType, result: string, article: string)
    ensures ScriptFor(DerivativeKey(kind), article, SetDerivative(d, kind, result)) == result
    ensures result != [] ==> TabVisible(DerivativeTab(kind), SetDerivative(d, kind, result))
  {
  }

  /** A thrown derivative call is always reported as a failure. */
  lemma ThrownDerivativeIsFailure(kind: DerivativeType, message: Option<string>)
    ensures GeminiService.IsErrorText(
              GeminiService.GeneratorOutput(GeminiService.GenerateDerivative(kind), GeminiService.Thrown(message)))
  {
  }
}
