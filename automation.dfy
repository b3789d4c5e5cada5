/**
 * The automation settings screen: three workflows (leads to a sheet, articles to the team,
 * KPI summaries to a chat webhook), each with an on/off switch and one text setting, and
 * the log of automation events shown newest first.
 *
 * The settings record is updated by two pure updaters, which the screen hands to the
 * application's state setter; their frame properties are the point here.
 */
module Automation {
  import opened Types

  datatype AutomationKey = Sheet | Article | Kpi

  /** The text setting a config input edits. */
  datatype ConfigProp = Url | Recipient

  /**
   * One workflow's settings. The record written at start-up has a `url` for the sheet and
   * KPI workflows and a `recipient` for the article workflow; the updater may add the other
   * property to any entry, so both are optional here.
   */
  datatype Entry = Entry(enabled: bool, url: Option<string>, recipient: Option<string>)

  datatype Automations = Automations(sheet: Entry, article: Entry, kpi: Entry)

  const SheetUrl: string := "https://docs.google.com/spreadsheets/d/example123"
  const ArticleRecipient: string := "team-content@example.com"
  const KpiUrl: string := "https://hooks.slack.com/services/T0000/B0000/XXXXXXXX"

  /** The settings the application starts with: every workflow enabled. */
  function InitialAutomations(): (a: Automations)
    ensures forall k :: Get(a, k).enabled
    ensures a.sheet.url == Some(SheetUrl) && a.article.recipient == Some(ArticleRecipient)
    ensures a.kpi.url == Some(KpiUrl)
  {
    Automations(Entry(true, Some(SheetUrl), None),
                Entry(true, None, Some(ArticleRecipient)),
                Entry(true, Some(KpiUrl), None))
  }

  /** `automations[key]`. */
  function Get(a: Automations, k: AutomationKey): Entry {
    match k
    case Sheet => a.sheet
    case Article => a.article
    case Kpi => a.kpi
  }

  /** `{ ...a, [key]: e }`. */
  function Put(a: Automations, k: AutomationKey, e: Entry): (r: Automations)
    ensures Get(r, k) == e
    ensures forall j :: j != k ==> Get(r, j) == Get(a, j)
  {
    match k
    case Sheet => a.(sheet := e)
    case Article => a.(article := e)
    case Kpi => a.(kpi := e)
  }

  /**
   * `handleToggle`: flips the switch of the named workflow. Its settings, and every other
   * workflow, are unchanged.
   */
  function Toggle(a: Automations, k: AutomationKey): (r: Automations)
    ensures Get(r, k).enabled == !Get(a, k).enabled
    ensures Get(r, k).url == Get(a, k).url && Get(r, k).recipient == Get(a, k).recipient
    ensures forall j :: j != k ==> Get(r, j) == Get(a, j)
  {
    Put(a, k, Get(a, k).(enabled := !Get(a, k).enabled))
  }

  /** `{ ...entry, [prop]: value }`. */
  function SetProp(e: Entry, p: ConfigProp, value: string): Entry {
    match p
    case Url => e.(url := Some(value))
    case Recipient => e.(recipient := Some(value))
  }

  /**
   * `handleConfigChange`: sets one property of one workflow. The switch, the other
   * property and every other workflow are unchanged.
   */
  function SetConfig(a: Automations, k: AutomationKey, p: ConfigProp, value: string): (r: Automations)
    ensures Get(r, k).enabled == Get(a, k).enabled
    ensures p == Url ==> Get(r, k).url == Some(value) && Get(r, k).recipient == Get(a, k).recipient
    ensures p == Recipient ==> Get(r, k).recipient == Some(value) && Get(r, k).url == Get(a, k).url
    ensures forall j :: j != k ==> Get(r, j) == Get(a, j)
  {
    Put(a, k, SetProp(Get(a, k), p, value))
  }

  /** Toggling the same workflow twice restores the settings. */
  lemma ToggleTwice(a: Automations, k: AutomationKey)
    ensures Toggle(Toggle(a, k), k) == a
  {
    var r := Toggle(Toggle(a, k), k);
    assert forall j :: Get(r, j) == Get(a, j);
    assert r.sheet == Get(r, Sheet) && r.article == Get(r, Article) && r.kpi == Get(r, Kpi);
  }

  /** Toggles of different workflows commute. */
  lemma TogglesCommute(a: Automations, k: AutomationKey, j: AutomationKey)
    ensures Toggle(Toggle(a, k), j) == Toggle(Toggle(a, j), k)
  {
    var r1 := Toggle(Toggle(a, k), j);
    var r2 := Toggle(Toggle(a, j), k);
    assert forall i :: Get(r1, i) == Get(r2, i);
    assert r1.sheet == Get(r1, Sheet) && r1.article == Get(r1, Article) && r1.kpi == Get(r1, Kpi);
    assert r2.sheet == Get(r2, Sheet) && r2.article == Get(r2, Article) && r2.kpi == Get(r2, Kpi);
  }

  /** Typing into the same input twice: the last value wins. */
  lemma SetConfigLastWins(a: Automations, k: AutomationKey, p: ConfigProp, v1: string, v2: string)
    ensures SetConfig(SetConfig(a, k, p, v1), k, p, v2) == SetConfig(a, k, p, v2)
  {
    var r1 := SetConfig(SetConfig(a, k, p, v1), k, p, v2);
    var r2 := SetConfig(a, k, p, v2);
    assert forall i :: Get(r1, i) == Get(r2, i);
    assert r1.sheet == Get(r1, Sheet) && r1.article == Get(r1, Article) && r1.kpi == Get(r1, Kpi);
    assert r2.sheet == Get(r2, Sheet) && r2.article == Get(r2, Article) && r2.kpi == Get(r2, Kpi);
  }

  /** The config input of a workflow is disabled while the workflow is switched off. */
  predicate ConfigInputDisabled(a: Automations, k: AutomationKey) {
    !Get(a, k).enabled
  }

  /** The Clear button is disabled while the log is empty, that is while the view shows nothing. */
  predicate ClearDisabled(logs: seq<string>)
    ensures ClearDisabled(logs) <==> ReversedLogs(logs) == []
  {
    |logs| == 0
  }

  /** Clearing disables the Clear button, and any logged event enables it again. */
  lemma ClearButtonFollowsLog(logs: seq<string>, message: string)
    ensures ClearDisabled([])
    ensures !ClearDisabled(logs + [message])
  {
  }

  /** Typing into a config input never changes which inputs are disabled. */
  lemma ConfigEditKeepsInputs(a: Automations, k: AutomationKey, p: ConfigProp, value: string, j: AutomationKey)
    ensures ConfigInputDisabled(SetConfig(a, k, p, value), j) <==> ConfigInputDisabled(a, j)
  {
  }

  /** Toggling a workflow enables or disables its own input and leaves the others as they were. */
  lemma ToggleSwitchesInput(a: Automations, k: AutomationKey)
    ensures ConfigInputDisabled(Toggle(a, k), k) <==> !ConfigInputDisabled(a, k)
    ensures forall j :: j != k ==> (ConfigInputDisabled(Toggle(a, k), j) <==> ConfigInputDisabled(a, j))
  {
  }

  /** `[...logs].reverse()`: the log view, newest event first; the log itself is a value and unchanged. */
  function ReversedLogs(logs: seq<string>): (r: seq<string>)
    ensures |r| == |logs|
    ensures forall i :: 0 <= i < |logs| ==> r[i] == logs[|logs| - 1 - i]
  {
    if logs == [] then [] else ReversedLogs(logs[1..]) + [logs[0]]
  }

  /** Reversing the view twice gives back the log. */
  lemma ReversedTwice(logs: seq<string>)
    ensures ReversedLogs(ReversedLogs(logs)) == logs
  {
    var r := ReversedLogs(ReversedLogs(logs));
    assert forall i :: 0 <= i < |logs| ==> r[i] == logs[i];
  }

  /** The view shows the newest event, the one appended last, at the top. */
  lemma NewestFirst(logs: seq<string>, message: string)
    ensures ReversedLogs(logs + [message])[0] == message
    ensures ReversedLogs(logs + [message])[1..] == ReversedLogs(logs)
  {
    var r := ReversedLogs(logs + [message]);
    assert forall i :: 0 <= i < |logs| ==> r[1..][i] == ReversedLogs(logs)[i];
  }
}
