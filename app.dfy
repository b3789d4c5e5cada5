/**
 * The application root: the state shared by the screens (leads, opportunities, the content
 * history, the internal blog's posts, the automation settings and their event log) and the
 * callbacks the screens use to change it.
 *
 * The content history is a list kept newest first. Its items get ids from a counter here;
 * the invariant `Valid` says the ids strictly decrease down the list, so no two items share
 * one. The posts are saved to the browser's storage after every change; `storedPosts` is
 * that saved copy, and `Valid` keeps it equal to the list.
 */
module AppRoot {
  import opened Types
  import opened Text
  import opened Automation

  const SeedLeads: seq<Lead> := [
    Lead("1", "John Doe", "john.d@example.com", Contacted),
    Lead("2", "Jane Smith", "jane.s@example.com", Qualified),
    Lead("3", "Peter Jones", "peter.j@example.com", New),
    Lead("4", "Sam Wilson", "sam.w@example.com", LeadStage.Lost)
  ]

  const SeedOpportunities: seq<Opportunity> := [
    Opportunity("o1", "2", "Jane Smith", 5000, Won, 100),
    Opportunity("o2", "1", "John Doe", 12000, Proposal, 60),
    Opportunity("o3", "2", "Jane Smith", 2500, OpportunityStage.Lost, 0)
  ]

  /** History ids strictly decrease down the list and stay below the next id to be handed out. */
  predicate IdsDescending(h: seq<HistoryItem>, next: nat) {
    && (forall i, j :: 0 <= i < j < |h| ==> h[i].id > h[j].id)
    && (forall i :: 0 <= i < |h| ==> h[i].id < next)
  }

  /** Descending ids are distinct ids. */
  lemma DescendingIdsDistinct(h: seq<HistoryItem>, next: nat)
    requires IdsDescending(h, next)
    ensures forall i, j :: 0 <= i < |h| && 0 <= j < |h| && i != j ==> h[i].id != h[j].id
  {
    forall i, j | 0 <= i < |h| && 0 <= j < |h| && i != j
      ensures h[i].id != h[j].id
    {
      if i < j {
        assert h[i].id > h[j].id;
      } else {
        assert h[j].id > h[i].id;
      }
    }
  }

  /** Template text renders a missing setting as `undefined`. */
  function Rendered(v: Option<string>): string {
    match v
    case Some(s) => s
    case None => "undefined"
  }

  /** The log line of a lead sent to the sheet. */
  function SheetLogLine(name: string, url: Option<string>): string {
    "[SHEETS] New lead '" + name + "' sent to " + Rendered(url)
  }

  /** The log line of an article sent to the team. */
  function ArticleLogLine(topic: string, recipient: Option<string>): string {
    "[TEAM] Article on '" + topic + "' sent to " + Rendered(recipient)
  }

  /**
   * Each log line names what it reports first and where it was sent last (`undefined` when
   * the setting is missing).
   */
  lemma LogLinesNameTheirSubject(name: string, topic: string, setting: Option<string>)
    ensures StartsWith(SheetLogLine(name, setting), "[SHEETS] New lead '" + name)
    ensures EndsWith(SheetLogLine(name, setting), Rendered(setting))
    ensures StartsWith(ArticleLogLine(topic, setting), "[TEAM] Article on '" + topic)
    ensures EndsWith(ArticleLogLine(topic, setting), Rendered(setting))
  {
    Framed("[SHEETS] New lead '" + name, "' sent to ", Rendered(setting));
    Framed("[TEAM] Article on '" + topic, "' sent to ", Rendered(setting));
  }

  /** The topic of a history item: a label such as `Research: `, then what the item is about. */
  function HistoryTopic(prefix: string, subject: string): string {
    prefix + subject
  }

  /** A history topic starts with its label, ends with its subject and is exactly as long as both. */
  lemma HistoryTopicShape(prefix: string, subject: string)
    ensures StartsWith(HistoryTopic(prefix, subject), prefix)
    ensures EndsWith(HistoryTopic(prefix, subject), subject)
    ensures |HistoryTopic(prefix, subject)| == |prefix| + |subject|
  {
    PrefixOfConcat(prefix, subject);
    SuffixOfConcat(prefix, subject);
  }

  const KpiLogLine: string := "[SLACK] KPI summary posted to webhook."

  class App {
    var showApp: bool
    var activeTab: TabKey
    var leads: seq<Lead>
    var opportunities: seq<Opportunity>
    var history: seq<HistoryItem>
    var nextHistoryId: nat
    var blogPosts: seq<BlogPost>
    var storedPosts: seq<BlogPost>
    var automations: Automations
    var automationLogs: seq<string>

    ghost predicate Valid()
      reads this
    {
      IdsDescending(history, nextHistoryId) && storedPosts == blogPosts
    }

    /**
     * Start-up: the landing page, the first screen selected, the seed leads and
     * opportunities, an empty history and log, every automation enabled, and the posts
     * read back from storage (none when nothing was saved or it could not be read).
     */
    constructor(savedPosts: Option<seq<BlogPost>>)
      ensures Valid()
      ensures !showApp && activeTab == ResearchArticle
      ensures leads == SeedLeads && opportunities == SeedOpportunities
      ensures history == [] && automationLogs == []
      ensures automations == InitialAutomations()
      ensures blogPosts == savedPosts.GetOr([])
    {
      showApp := false;
      activeTab := ResearchArticle;
      leads := SeedLeads;
      opportunities := SeedOpportunities;
      history := [];
      nextHistoryId := 0;
      blogPosts := savedPosts.GetOr([]);
      storedPosts := blogPosts;
      automations := InitialAutomations();
      automationLogs := [];
    }

    /** `addToHistory`: the new item, with a fresh id, goes first; the older items follow unchanged. */
    method AddToHistory(entry: HistoryEntry)
      requires Valid()
      modifies this`history, this`nextHistoryId
      ensures Valid()
      ensures |history| == |old(history)| + 1
      ensures history[0] == HistoryItem(old(nextHistoryId), entry.kind, entry.topic, entry.content)
      ensures history[1..] == old(history)
      ensures nextHistoryId == old(nextHistoryId) + 1
      ensures forall i :: 0 <= i < |old(history)| ==> history[0].id != old(history)[i].id
    {
      var item := HistoryItem(nextHistoryId, entry.kind, entry.topic, entry.content);
      history := [item] + history;
      nextHistoryId := nextHistoryId + 1;
    }

    /**
     * `handlePublishInternal`: the post is placed first, with the given id and publication
     * time, the saved copy follows it, and the id is returned.
     */
    method PublishInternal(draft: PostDraft, id: string, timestamp: int) returns (postId: string)
      requires Valid()
      modifies this`blogPosts, this`storedPosts
      ensures Valid()
      ensures postId == id
      ensures blogPosts == [BlogPost(id, draft.title, draft.content, draft.featuredImage,
                                     draft.tags, draft.categories, timestamp)] + old(blogPosts)
    {
      var post := BlogPost(id, draft.title, draft.content, draft.featuredImage,
                           draft.tags, draft.categories, timestamp);
      blogPosts := [post] + blogPosts;
      storedPosts := blogPosts;
      postId := post.id;
    }

    /** `addLog`: the message goes last. */
    method AddLog(message: string)
      modifies this`automationLogs
      ensures automationLogs == old(automationLogs) + [message]
    {
      automationLogs := automationLogs + [message];
    }

    /** A lead was added: it is logged exactly when the sheet workflow is enabled. */
    method HandleLeadAdded(lead: Lead)
      modifies this`automationLogs
      ensures automations.sheet.enabled ==>
                automationLogs == old(automationLogs) + [SheetLogLine(lead.name, automations.sheet.url)]
      ensures !automations.sheet.enabled ==> automationLogs == old(automationLogs)
    {
      if automations.sheet.enabled {
        AddLog(SheetLogLine(lead.name, automations.sheet.url));
      }
    }

    /** An article was generated: it is logged exactly when the article workflow is enabled. */
    method HandleArticleGenerated(topic: string, article: string)
      modifies this`automationLogs
      ensures automations.article.enabled ==>
                automationLogs == old(automationLogs) + [ArticleLogLine(topic, automations.article.recipient)]
      ensures !automations.article.enabled ==> automationLogs == old(automationLogs)
    {
      if automations.article.enabled {
        AddLog(ArticleLogLine(topic, automations.article.recipient));
      }
    }

    /** KPIs were analysed: logged exactly when the KPI workflow is enabled and the analysis is non-empty. */
    method HandleKpiAnalyzed(analysis: string)
      modifies this`automationLogs
      ensures automations.kpi.enabled && analysis != [] ==>
                automationLogs == old(automationLogs) + [KpiLogLine]
      ensures !(automations.kpi.enabled && analysis != []) ==> automationLogs == old(automationLogs)
    {
      if automations.kpi.enabled && analysis != [] {
        AddLog(KpiLogLine);
      }
    }

    /** `handleEnterApp`: the application is shown; the screen changes only when one is named. */
    method HandleEnterApp(tab: Option<TabKey>)
      modifies this`showApp, this`activeTab
      ensures showApp
      ensures activeTab == tab.GetOr(old(activeTab))
    {
      if tab.Some? {
        activeTab := tab.value;
      }
      showApp := true;
    }

    /** A screen button of the sidebar selects that screen. */
    method SelectTab(tab: TabKey)
      modifies this`activeTab
      ensures activeTab == tab
    {
      activeTab := tab;
    }

    /** The logo button returns to the landing page; the selected screen is kept. */
    method GoHome()
      modifies this`showApp
      ensures !showApp
    {
      showApp := false;
    }

    /** The Clear button of the automation log. */
    method ClearLogs()
      modifies this`automationLogs
      ensures automationLogs == []
    {
      automationLogs := [];
    }

    /** The automation screen's switch, applied to the shared settings. */
    method ToggleAutomation(k: AutomationKey)
      modifies this`automations
      ensures automations == Toggle(old(automations), k)
    {
      automations := Toggle(automations, k);
    }

    /** The automation screen's config input, applied to the shared settings. */
    method ChangeAutomationConfig(k: AutomationKey, p: ConfigProp, value: string)
      modifies this`automations
      ensures automations == SetConfig(old(automations), k, p, value)
    {
      automations := SetConfig(automations, k, p, value);
    }
  }

  /**
   * Events are logged in the order they happen: after two adds the view shows the later
   * event, then the earlier one, then the older entries as before.
   */
  lemma LogsInOrder(logs: seq<string>, m1: string, m2: string)
    ensures ReversedLogs(logs + [m1] + [m2])[..2] == [m2, m1]
    ensures ReversedLogs(logs + [m1] + [m2])[2..] == ReversedLogs(logs)
  {
    NewestFirst(logs + [m1], m2);
    NewestFirst(logs, m1);
    var v := ReversedLogs(logs + [m1] + [m2]);
    assert v[2..] == v[1..][1..];
  }
}
