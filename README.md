# BrieflyAI core, modelled in Dafny

BrieflyAI is a browser-based marketing and CRM suite. Its screens collect input, ask a
generative-AI service for text or an image, and keep the results in the application's state.
Here is what those screens and the service do around the AI calls, modelled and verified:

- **Service layer** (`GeminiService`). The "Error:" string every text generator returns when
  its call throws. The choice of derivative template. The empty-prompt and empty-result checks
  of the image generator. The way the contact scraper finds the JSON array in the AI's reply,
  including JavaScript's `indexOf`, `lastIndexOf` and argument-swapping `substring`.
- **Contact scraper** (`ContactScraper`). The search state, and the CSV export. The export
  quotes every data field as rules 6 and 7 of section 2 of RFC 4180 describe. It is paired
  with a reader for the same format, and the export is proved to read back as every contact's
  five values, in order.
- **Blog post wizard** (`BlogPostWizard`).
  - A five-step form kept in one record, changed by merging partial updates.
  - Its transitions: next, back, AI completion, image generation, publish, reset.
  - The buttons each step shows, and proofs that the step stays in 1..5.
  - The draft saved while nothing is published.
  - The Markdown export.
- **Application root** (`AppRoot`). The shared lists (leads, opportunities, content history,
  blog posts, automation log) and the callbacks that change them. History items get unique,
  descending ids.
- **CRM tracker** (`LeadTracker`). Guarded appends of leads and opportunities. An opportunity
  copies its lead's name. The lead selector hides lost leads.
- **Automations** (`Automation`). The toggle and config updaters with their "nothing else
  changes" properties, and the newest-first log view.
- **Internal blog** (`InternalBlog`).
  - Newest-first sorting, as a permutation.
  - The first-line excerpt.
  - The line-break-to-`<br />` rendering.
  - The footer lines.
- **Research suite** (`ResearchAndArticle`). The clear-then-fill sequence of the research
  and article calls, the single-key derivative update, and the tab-to-teleprompter-script
  mapping.
- **Teleprompter** (`Teleprompter`).
  - Clamped size and speed buttons.
  - Play/pause, reset and mirror.
  - Settings loaded by type and saved on change.
  - The key handler, and the per-frame scroll advance.

AI calls, storage and the clock are not executed. Each AI call is replaced by its outcome,
passed in as a parameter: `ApiReply` (a reply's text, or a thrown exception with an optional
message) or `ImageReply`. Stored values (drafts, posts, teleprompter settings) are modelled as
fields that follow the state, or as optional values read at start-up. Ids and timestamps are
parameters, except history ids, which come from a counter.

Files:
- `types.dfy`: the shared records.
- `text.dfy`: the JavaScript string operations.
- `gemini_service.dfy`, `contact_scraper.dfy`, `blog_post_wizard.dfy`, `app.dfy`,
  `lead_tracker.dfy`, `automation.dfy`, `internal_blog.dfy`, `research_and_article.dfy`,
  `teleprompter.dfy`: one module per source file.

## Model

| member | source | states |
|---|---|---|
| Text.Includes | services/geminiService.ts:185 | `includes` is true exactly when the pattern occurs at some index of the text |
| Text.ToLower | services/geminiService.ts:185 | the lower-cased text has the same length, and each character is the lower-case form of the one at the same index |
| Text.CountAppend | components/ContactScraper.tsx:43-47 | the number of occurrences of a character in a concatenation is the sum over the parts; used to size the escaped field |
| GeminiService.FailureText | services/geminiService.ts:29-230 | the string returned by every failing text generator (research, article, completion, KPI, CRM summary, campaign, email, derivative) starts with `Error:`; a derivative failure names its type |
| GeminiService.GeneratorOutput | services/geminiService.ts:28-31 | a generator returns the reply's text unchanged; a thrown call gives a string that starts with `Error:` |
| GeminiService.DerivativePrompt | services/geminiService.ts:207-219 | the derivative prompt starts with the fixed lead and the type's subject, and ends with a blank line followed by the whole article |
| GeminiService.SubjectsDiffer | services/geminiService.ts:209-219 | two prompts that start with the subjects of different types are different |
| GeminiService.DerivativePromptInjective | services/geminiService.ts:209-219 | the switch picks exactly one template per type: equal prompts for the same article imply the same type |
| GeminiService.GenerateFeaturedImage | services/geminiService.ts:66-91 | an empty prompt is an error with no call; a non-empty image list gives its first image; an empty list gives the "returned no images" error; a thrown call is an error; every error text is non-empty |
| GeminiService.IndexOf | services/geminiService.ts:181 | `indexOf` is -1 exactly when the character is absent; otherwise the character is at the result and not before it |
| GeminiService.LastIndexOf | services/geminiService.ts:182 | `lastIndexOf` is -1 exactly when the character is absent; otherwise the character is at the result and not after it |
| GeminiService.Substring | services/geminiService.ts:191 | `substring(a, b)` is the slice from a to b when a <= b, and the slice from b to a when the arguments are out of order |
| GeminiService.LocateJsonArray | services/geminiService.ts:180-191 | the choice between the slice handed to `JSON.parse`, the refusal error and the missing-array error: a slice is taken exactly when the reply has both a `[` and a `]`, and it is never longer than the reply |
| GeminiService.LocateFailsIffBracketMissing | services/geminiService.ts:184-189 | no slice is taken (an error is returned) exactly when the reply lacks a `[` or lacks a `]` |
| GeminiService.LocateRefusalIff | services/geminiService.ts:185-188 | without a bracket pair, the refusal error is chosen exactly when the lower-cased reply contains "i can't" or "i am unable", and the missing-array error otherwise |
| GeminiService.LocateSlice | services/geminiService.ts:191 | with both brackets present, the slice is `substring(first '[', last ']' + 1)` |
| GeminiService.LocateInOrder | services/geminiService.ts:181-191 | when the first `[` precedes the last `]`, the slice runs from that `[` to that `]` inclusive, so it starts with `[` and ends with `]` |
| GeminiService.LocateInOrderSpans | services/geminiService.ts:181-191 | in that case the reply is the text before the slice, the slice and the text after it, in that order |
| GeminiService.LocateSwapped | services/geminiService.ts:191 | when the last `]` precedes the first `[`, the slice is the text strictly between them, with the arguments swapped, and contains no bracket |
| GeminiService.ScrapeContacts | services/geminiService.ts:162-205 | the response has data exactly when it has no error; every error is non-empty; a thrown call gives an `Error:` message; the refusal, missing-array and parse-failure errors each come from their own case; otherwise the parsed slice is the data |
| ContactScraper.EscapeQuotes | components/ContactScraper.tsx:43-47 | the escaped value is longer than the value by exactly its number of double quotes |
| ContactScraper.Quote | components/ContactScraper.tsx:43-47 | a written field begins and ends with `"`, and between them holds the escaped value |
| ContactScraper.CellValue | components/ContactScraper.tsx:43-47 | an absent value is written like an empty one: a cell is empty exactly when the value is absent or empty, and is the value otherwise |
| ContactScraper.Values | components/ContactScraper.tsx:42-48 | every contact gives exactly five values |
| ContactScraper.QuoteAll | components/ContactScraper.tsx:42-48 | each value is quoted in place, with the count and order kept |
| ContactScraper.Join | components/ContactScraper.tsx:48 | `join`; its meaning is stated by `JoinEnds`, `JoinQuoted` and `JoinLines` and by the read-back lemmas |
| ContactScraper.JoinEnds | components/ContactScraper.tsx:48 | a joined list starts with its first part and ends with its last |
| ContactScraper.Row | components/ContactScraper.tsx:42-48 | one data line: the contact's five quoted values joined by commas; see `RowQuoted` and `RowsAreLines` |
| ContactScraper.RowQuoted | components/ContactScraper.tsx:42-48 | every data line opens and closes with a double quote |
| ContactScraper.Rows | components/ContactScraper.tsx:42-48 | one data line per contact, in input order |
| ContactScraper.ExportCsv | components/ContactScraper.tsx:36-51 | nothing is exported exactly when the list is empty; otherwise the document starts with the unquoted header line and a line feed |
| ContactScraper.EscapeAppend | components/ContactScraper.tsx:43-47 | doubling quotes distributes over concatenation |
| ContactScraper.EscapeWithoutQuotes | components/ContactScraper.tsx:43-47 | a value without double quotes is written unchanged: no character other than `"` is altered |
| ContactScraper.EmptyCell | components/ContactScraper.tsx:43-47 | a missing or empty value becomes the field `""` |
| ContactScraper.ReadEscaped | components/ContactScraper.tsx:43-47 | un-doubling the escaped value up to the closing quote gives back the value and exactly the text after the quote (field round trip) |
| ContactScraper.ReadFieldInside | components/ContactScraper.tsx:43-47 | a written field starts with its opening quote, and reading its inside stops just after the closing quote |
| ContactScraper.ReadLastField | components/ContactScraper.tsx:42-48 | reading the last field of a written record gives back its value alone |
| ContactScraper.ReadFieldThenMore | components/ContactScraper.tsx:42-48 | a written field followed by a comma reads as its value followed by the fields after the comma |
| ContactScraper.JoinQuoted | components/ContactScraper.tsx:48 | a record of two or more values is the first quoted value, a comma and the rest |
| ContactScraper.ReadWrittenFields | components/ContactScraper.tsx:42-48 | reading a written record gives back all its values, in order, and stops at the record's end |
| ContactScraper.JoinLines | components/ContactScraper.tsx:51 | a document of two or more records is the first line, a line feed and the rest |
| ContactScraper.ReadWrittenRecords | components/ContactScraper.tsx:51 | reading LF-joined written records gives back every record, in order |
| ContactScraper.RowsAreLines | components/ContactScraper.tsx:42-48 | the exported data lines are the written lines of the contacts' values |
| ContactScraper.AllValues | components/ContactScraper.tsx:42-48 | one five-value record per contact, in input order |
| ContactScraper.ExportRoundTrip | components/ContactScraper.tsx:36-51 | reading a non-empty export back gives, after the header, exactly one record per contact, in input order, holding its five values, with absent values read as empty |
| ContactScraper.Scraper.constructor | components/ContactScraper.tsx:11-14 | the screen starts with an empty query, no contacts, no error and not loading |
| ContactScraper.Scraper.SetQuery | components/ContactScraper.tsx:11 | the query input sets the query |
| ContactScraper.Scraper.HandleScrape | components/ContactScraper.tsx:16-34 | a blank query sets the error and leaves the contacts and the loading flag alone; otherwise the service's non-empty error is shown with no contacts, or its data becomes the contacts with no error, and loading ends |
| BlogPostWizard.InitialState | components/BlogPostWizard.tsx:29-42 | a new wizard is on step 1 with an empty title, content, image prompt, image, tags and categories, empty WordPress settings, internal platform, not publishing, no error and no result |
| BlogPostWizard.Merge | components/BlogPostWizard.tsx:105 | `updateState`: every field the update names takes the update's value, and every field it does not name keeps its value |
| BlogPostWizard.MergeOverrides | components/BlogPostWizard.tsx:105 | every field the update names takes the update's value whatever the record held, so merging one update into two records makes them agree there |
| BlogPostWizard.MergeNoChange | components/BlogPostWizard.tsx:105 | the empty update changes nothing |
| BlogPostWizard.MergeTwice | components/BlogPostWizard.tsx:105 | two merges in a row are one merge of the combined update, where the later update wins; the combined update names a field exactly when either one does |
| BlogPostWizard.MergeIdempotent | components/BlogPostWizard.tsx:105 | applying the same update twice is the same as once |
| BlogPostWizard.MergeOnly | components/BlogPostWizard.tsx:105 | a merge changes only the fields its update names |
| BlogPostWizard.OnlyChangedTrans | components/BlogPostWizard.tsx:105 | two changes confined to the same fields are together confined to them |
| BlogPostWizard.AgreeEverywhere | components/BlogPostWizard.tsx:10-27 | records that agree on every field are equal |
| BlogPostWizard.NextState | components/BlogPostWizard.tsx:107 | Next adds one to the step, clears the error and changes nothing else |
| BlogPostWizard.BackState | components/BlogPostWizard.tsx:108 | Back subtracts one from the step, clears the error and changes nothing else |
| BlogPostWizard.BackAfterNext | components/BlogPostWizard.tsx:107-108 | Back after Next restores the record, apart from the cleared error |
| BlogPostWizard.CompleteArticleState | components/BlogPostWizard.tsx:110-124 | blank content only sets the error; otherwise, when the completion (a reply's text, or the failure string of a thrown call) starts with `Error:`, the record is unchanged apart from that string as the error; any other completion is appended after a blank line, the error is cleared, and nothing else changes; with no error, the new content extends the old |
| BlogPostWizard.ImagePromptFor | components/BlogPostWizard.tsx:127 | the image prompt is the prompt field if non-empty, else the title; it is empty exactly when both are |
| BlogPostWizard.GenerateImageState | components/BlogPostWizard.tsx:126-141 | without a prompt only the error is set; otherwise the service's error (an empty image list, or a thrown call) becomes the error and nothing else changes; a non-empty image becomes the featured image with the error cleared; an empty image only clears the error |
| BlogPostWizard.DraftOf | components/BlogPostWizard.tsx:147-153 | the internal post carries the record's title, content, image, tags and categories |
| BlogPostWizard.PublishState | components/BlogPostWizard.tsx:143-171 | publishing clears the error; internally it ends on step 5, not publishing, with the success result; for WordPress it stays on its step, publishing, with no result; nothing else changes |
| BlogPostWizard.PublishedTopic | components/BlogPostWizard.tsx:159 | the history topic of a publication: `HistoryTopic` with the label `Published: ` and the post's title |
| BlogPostWizard.EditUpdate | components/BlogPostWizard.tsx:200-269 | no input field changes the step or the publish result |
| BlogPostWizard.Available | components/BlogPostWizard.tsx:197-326 | the controls each step renders, enabled: there are controls only on steps 1 to 5, and the share step offers only Reset |
| BlogPostWizard.After | components/BlogPostWizard.tsx:105-175 | the record after one control's handler; only Publish and Reset change the publish result |
| BlogPostWizard.Run | components/BlogPostWizard.tsx:197-326 | a session of actions, where hidden or disabled controls do nothing; a session that ends with a different publish result pressed Publish or Reset somewhere |
| BlogPostWizard.StepAfter | components/BlogPostWizard.tsx:107-175 | only Next (+1), Back (-1), Reset (to 1) and an internal Publish (to 5) change the step; every other action keeps it |
| BlogPostWizard.StepBounded | components/BlogPostWizard.tsx:197-302 | any button rendered on a step leaves the wizard on a step between 1 and 5 |
| BlogPostWizard.RunStaysInRange | components/BlogPostWizard.tsx:197-302 | any sequence of clicks on rendered buttons, from a step in 1..5, stays in 1..5 |
| BlogPostWizard.StepEntries | components/BlogPostWizard.tsx:203-293 | leaving step 1 takes Next with a title and content; in this model step 5 is entered only by an internal Publish from step 4 (the delayed WordPress completion, which also sets step 5, is left out) |
| BlogPostWizard.ResetStartsOver | components/BlogPostWizard.tsx:173-175 | Reset, offered on the share step, restores the initial record |
| BlogPostWizard.ImageLine | components/BlogPostWizard.tsx:178 | the image line is empty without an image; otherwise it is exactly the data-URL prefix, the image and `)`: it starts with the prefix, holds the image right after it, ends with `)`, and is exactly that long |
| BlogPostWizard.Markdown | components/BlogPostWizard.tsx:177-182 | the Markdown starts with the title heading and a blank line, ends with a blank line and the content, holds the image line right after the heading, and is exactly as long as heading, image line and tail together, so nothing else lies between them; without an image only blank lines separate title and content |
| BlogPostWizard.DraftFor | components/BlogPostWizard.tsx:97-103 | a draft is stored exactly when there is no publish result, and it is the record |
| BlogPostWizard.Wizard.constructor | components/BlogPostWizard.tsx:79-95 | a saved draft without a publish result is restored when the user confirms; otherwise the wizard starts from the initial record; the draft follows the record |
| BlogPostWizard.Wizard.UpdateState | components/BlogPostWizard.tsx:97-105 | the record becomes the merge of the update, and the stored draft follows it |
| BlogPostWizard.Wizard.HandleNext | components/BlogPostWizard.tsx:107 | the record becomes `NextState` of the old one, with the draft kept in step |
| BlogPostWizard.Wizard.HandleBack | components/BlogPostWizard.tsx:108 | the record becomes `BackState` of the old one, with the draft kept in step |
| BlogPostWizard.Wizard.HandleCompleteArticle | components/BlogPostWizard.tsx:110-124 | the handler's sequence of updates ends in `CompleteArticleState` of the old record |
| BlogPostWizard.Wizard.HandleGenerateImage | components/BlogPostWizard.tsx:126-141 | the handler's sequence of updates ends in `GenerateImageState` of the old record |
| BlogPostWizard.Wizard.HandlePublish | components/BlogPostWizard.tsx:143-171 | the record becomes `PublishState`; internally the post goes first in the application's list, `Published: <title>` goes first in the history with the content, and the draft is removed; for WordPress the posts, their stored copy, the history and the next history id are unchanged |
| BlogPostWizard.Wizard.HandleReset | components/BlogPostWizard.tsx:173-175 | the record and the stored draft become the initial record |
| AppRoot.DescendingIdsDistinct | App.tsx:58-65 | history ids that decrease down the list are pairwise distinct |
| AppRoot.SheetLogLine | App.tsx:88-92 | the `[SHEETS]` line reporting a lead sent to the sheet; see `LogLinesNameTheirSubject` |
| AppRoot.ArticleLogLine | App.tsx:94-98 | the `[TEAM]` line reporting an article sent to its recipient; see `LogLinesNameTheirSubject` |
| AppRoot.HistoryTopic | components/ResearchAndArticle.tsx:58-66 | a history topic: its label, then its subject; shared by the research, article and publication topics, with its shape stated by `HistoryTopicShape` |
| AppRoot.HistoryTopicShape | components/ResearchAndArticle.tsx:58-66 | a history topic starts with its label, ends with its subject, and is exactly as long as both |
| AppRoot.LogLinesNameTheirSubject | App.tsx:88-98 | each automation log line starts by naming the lead or the article's topic, and ends with the sheet URL or recipient it was sent to (`undefined` when unset) |
| AppRoot.App.constructor | App.tsx:24-56 | the application starts on the landing page with the seed leads and opportunities, an empty history and log, every automation enabled, and the posts read back from storage (none if absent) |
| AppRoot.App.AddToHistory | App.tsx:58-65 | the new item goes first with a fresh id different from every older id; the older items follow unchanged and in order |
| AppRoot.App.PublishInternal | App.tsx:67-75 | the post is prepended with the given id and time, the stored copy follows, and the post's id is returned |
| AppRoot.App.AddLog | App.tsx:84-86 | the message is appended at the end of the log |
| AppRoot.App.HandleLeadAdded | App.tsx:88-92 | the `[SHEETS]` line naming the lead and the sheet URL is appended exactly when the sheet workflow is enabled |
| AppRoot.App.HandleArticleGenerated | App.tsx:94-98 | the `[TEAM]` line is appended exactly when the article workflow is enabled |
| AppRoot.App.HandleKpiAnalyzed | App.tsx:100-104 | the `[SLACK]` line is appended exactly when the KPI workflow is enabled and the analysis is non-empty |
| AppRoot.App.HandleEnterApp | App.tsx:106-111 | the application is shown; the screen changes only when one is given |
| AppRoot.App.SelectTab | App.tsx:165 | a sidebar button selects its screen |
| AppRoot.App.GoHome | App.tsx:150 | the logo button returns to the landing page |
| AppRoot.App.ClearLogs | App.tsx:136 | the log is empty afterwards |
| AppRoot.App.ToggleAutomation | App.tsx:136 | the shared settings become `Toggle` of the old ones |
| AppRoot.App.ChangeAutomationConfig | App.tsx:136 | the shared settings become `SetConfig` of the old ones |
| AppRoot.LogsInOrder | App.tsx:84-86 | after two events the log view shows the later one, then the earlier one, then the older entries as before |
| LeadTracker.FindLead | components/LeadAndOpportunityTracker.tsx:30 | `find` gives nothing exactly when no lead has the id; otherwise the first lead with that id |
| LeadTracker.SelectableLeads | components/LeadAndOpportunityTracker.tsx:79 | the selector offers exactly the leads not marked lost |
| LeadTracker.SelectableAppend | components/LeadAndOpportunityTracker.tsx:79 | the filter keeps list order: it distributes over concatenation |
| LeadTracker.Tracker.constructor | components/LeadAndOpportunityTracker.tsx:14-15 | both forms start empty, with stage New |
| LeadTracker.Tracker.EditLead | components/LeadAndOpportunityTracker.tsx:62-64 | typing sets the lead form |
| LeadTracker.Tracker.EditOpp | components/LeadAndOpportunityTracker.tsx:77-82 | typing sets the opportunity form |
| LeadTracker.Tracker.HandleAddLead | components/LeadAndOpportunityTracker.tsx:17-25 | with a name and an email the lead is appended, reported once to the automations, and the form reset to empty with stage New; otherwise nothing changes |
| LeadTracker.Tracker.HandleAddOpp | components/LeadAndOpportunityTracker.tsx:27-44 | with all three fields filled and a lead of that id, a Prospecting opportunity with that lead's name is appended and the form emptied; otherwise nothing changes |
| Automation.InitialAutomations | App.tsx:77-81 | every workflow starts enabled, with the seed sheet URL, recipient and webhook URL |
| Automation.Put | components/Automation.tsx:72-75 | `{ ...prev, [key]: e }` replaces the named entry and no other |
| Automation.Toggle | components/Automation.tsx:71-76 | only the named workflow's switch flips; its settings and the other workflows are unchanged |
| Automation.SetConfig | components/Automation.tsx:78-83 | only the given property of the given workflow is set; its switch, its other property and the other workflows are unchanged |
| Automation.ToggleTwice | components/Automation.tsx:71-76 | toggling the same workflow twice restores the settings |
| Automation.TogglesCommute | components/Automation.tsx:71-76 | toggles of any two workflows commute |
| Automation.SetConfigLastWins | components/Automation.tsx:78-83 | of two edits to the same input, the last wins |
| Automation.ToggleSwitchesInput | components/Automation.tsx:49 | a config input is disabled exactly while its workflow is off, so a toggle flips that input's state alone |
| Automation.ConfigInputDisabled | components/Automation.tsx:49 | a workflow's config input is disabled while the workflow is switched off; see `ToggleSwitchesInput` and `ConfigEditKeepsInputs` |
| Automation.ConfigEditKeepsInputs | components/Automation.tsx:78-83 | typing into a config input never changes which inputs are disabled |
| Automation.ClearDisabled | components/Automation.tsx:133 | the Clear button is disabled exactly when the log view shows nothing |
| Automation.ClearButtonFollowsLog | components/Automation.tsx:133 | clearing disables the Clear button, and any logged event enables it again |
| Automation.ReversedLogs | components/Automation.tsx:139 | the view holds the log's entries in reverse order |
| Automation.ReversedTwice | components/Automation.tsx:139 | reversing the view again gives back the log |
| Automation.NewestFirst | components/Automation.tsx:139 | the event appended last is shown first, followed by the earlier view |
| InternalBlog.ConsNewest | components/InternalBlog.tsx:13 | a post no older than the head of a newest-first list can go in front of it |
| InternalBlog.InsertByTime | components/InternalBlog.tsx:13 | inserting into a newest-first list keeps it newest first and adds exactly that post |
| InternalBlog.SortedPosts | components/InternalBlog.tsx:12-14 | the sorted list is a permutation of the posts in non-increasing timestamp order; the posts themselves are a value and are not reordered |
| InternalBlog.SortedPostsKeepsSorted | components/InternalBlog.tsx:12-14 | a list already newest first is left as it is |
| InternalBlog.NewestPostFirst | components/InternalBlog.tsx:12-14 | a post newer than all others is listed first |
| InternalBlog.Excerpt | components/InternalBlog.tsx:74 | the excerpt is a prefix of the content without line breaks, ending at the first line break or at the end |
| InternalBlog.BodyHtml | components/InternalBlog.tsx:37 | the body holds no line break and is 5 characters longer per replaced break |
| InternalBlog.BodyHtmlAppend | components/InternalBlog.tsx:37 | the replacement distributes over concatenation |
| InternalBlog.BodyHtmlWithoutBreaks | components/InternalBlog.tsx:37 | text without line breaks is unchanged: only `\n` is replaced |
| InternalBlog.BodyHtmlOfBreak | components/InternalBlog.tsx:37 | a line break becomes `<br />` |
| InternalBlog.TwoLines | components/InternalBlog.tsx:37 | two lines joined by a break render as the lines joined by `<br />` |
| InternalBlog.FooterLines | components/InternalBlog.tsx:41-42 | the categories and tags lines appear exactly when their values are non-empty, in that order |
| ResearchAndArticle.SetDerivative | components/ResearchAndArticle.tsx:87 | only the given type's text changes |
| ResearchAndArticle.Capitalize | components/ResearchAndArticle.tsx:89 | the first character is upper-cased and the rest kept |
| ResearchAndArticle.TypeName | components/ResearchAndArticle.tsx:89 | the type name is the type's key with a capital first letter |
| ResearchAndArticle.DerivativeTopic | components/ResearchAndArticle.tsx:90 | the history topic is the type name, then ` for: `, then the research topic |
| ResearchAndArticle.DerivativeTopicsDiffer | components/ResearchAndArticle.tsx:90 | different types give different history topics |
| ResearchAndArticle.ScriptFor | components/ResearchAndArticle.tsx:107-115 | the script is the active tab's text, and empty for a key that names no tab |
| ResearchAndArticle.ScriptOfTab | components/ResearchAndArticle.tsx:107-115 | each tab's key selects that tab's text |
| ResearchAndArticle.TabVisible | components/ResearchAndArticle.tsx:185 | the article tab is always shown, a derivative tab only once its text is non-empty; see `DerivativeTabVisibleIffScript` |
| ResearchAndArticle.DerivativeTabVisibleIffScript | components/ResearchAndArticle.tsx:107-115 | a derivative tab is shown exactly when the teleprompter would open on a non-empty script for it |
| ResearchAndArticle.ResearchTopic | components/ResearchAndArticle.tsx:58 | the research history topic: `HistoryTopic` with the label `Research: ` and the topic |
| ResearchAndArticle.ArticleTopic | components/ResearchAndArticle.tsx:66 | the article history topic: `HistoryTopic` with the label `Article: ` and the topic |
| ResearchAndArticle.ResearchAndArticleTopicsDiffer | components/ResearchAndArticle.tsx:58-66 | the research entry and the article entry of a generation never share a topic |
| ResearchAndArticle.ResearchSuite.constructor | components/ResearchAndArticle.tsx:26-36 | the screen starts empty, on the article tab, with no teleprompter |
| ResearchAndArticle.ResearchSuite.SetTopic | components/ResearchAndArticle.tsx:136 | the input sets the topic |
| ResearchAndArticle.ResearchSuite.EditArticle | components/ResearchAndArticle.tsx:198 | the article text area sets the article |
| ResearchAndArticle.ResearchSuite.SelectTab | components/ResearchAndArticle.tsx:186 | a tab button makes that tab's key active |
| ResearchAndArticle.ResearchSuite.OpenTeleprompter | components/ResearchAndArticle.tsx:165-166 | the teleprompter opens on the active tab's script; the button is only usable when that script is non-empty and nothing is loading |
| ResearchAndArticle.ResearchSuite.CloseTeleprompter | components/ResearchAndArticle.tsx:122-124 | closing the teleprompter (its close button or Escape, which call `onClose`) leaves no script, so the overlay is gone |
| ResearchAndArticle.ResearchSuite.HandleGenerate | components/ResearchAndArticle.tsx:39-75 | a blank topic only sets the error; otherwise all outputs are cleared and the article tab selected; a failed research leaves summary and article empty; a failed article keeps the summary and records only `Research: <topic>`; full success records `Research:` then `Article:` (newest first) and reports the article to the automations |
| ResearchAndArticle.ResearchSuite.WriteArticle | components/ResearchAndArticle.tsx:57-67 | after a successful research the summary is shown and recorded, then the article is shown and recorded, or its failure shown |
| ResearchAndArticle.ResearchSuite.RecordArticle | components/ResearchAndArticle.tsx:65-66 | the article is reported to the automations and recorded first in the history |
| ResearchAndArticle.ResearchSuite.HandleGenerateDerivative | components/ResearchAndArticle.tsx:77-98 | without an article nothing changes; a failure sets the error; a success changes only that type's text, makes its tab active and records `<Type> for: <topic>` |
| ResearchAndArticle.DerivativeShownAfterSuccess | components/ResearchAndArticle.tsx:185 | after a success the new text is the active tab's script, and its tab is shown when the text is non-empty |
| ResearchAndArticle.ThrownDerivativeIsFailure | services/geminiService.ts:228-231 | a thrown derivative call is reported as a failure string |
| Teleprompter.SizeDown | components/Teleprompter.tsx:159 | size "-" never goes below 2, subtracts 0.5 when it can, gives exactly 2 when it cannot (even from a loaded size below 2), and keeps a size in [2, 15] there |
| Teleprompter.SizeUp | components/Teleprompter.tsx:160 | size "+" never goes above 15, adds 0.5 when it can, gives exactly 15 when it cannot (even from a loaded size above 15), and keeps a size in [2, 15] there |
| Teleprompter.SpeedDown | components/Teleprompter.tsx:164 | speed "-" never goes below 0.5, subtracts 0.5 when it can, gives exactly 0.5 when it cannot, and keeps a speed in [0.5, 20] there |
| Teleprompter.SpeedUp | components/Teleprompter.tsx:165 | speed "+" never goes above 20, adds 0.5 when it can, gives exactly 20 when it cannot, and keeps a speed in [0.5, 20] there |
| Teleprompter.SizeButtonsUndo | components/Teleprompter.tsx:159-160 | away from the limits, each size button undoes the other |
| Teleprompter.SpeedButtonsUndo | components/Teleprompter.tsx:164-165 | away from the limits, each speed button undoes the other |
| Teleprompter.SizeDownTimesInRange | components/Teleprompter.tsx:159 | any number of "-" presses keeps an in-range size in range and never grows it |
| Teleprompter.SizeDownTimesClosedForm | components/Teleprompter.tsx:159 | n presses of "-" take n half units off, down to the minimum |
| Teleprompter.SizeDownReachesMin | components/Teleprompter.tsx:159 | enough presses reach the minimum size |
| Teleprompter.Advance | components/Teleprompter.tsx:58 | the position after a number of frames: at a non-negative speed it never moves back, and at a positive speed every frame moves it on |
| Teleprompter.AdvanceClosedForm | components/Teleprompter.tsx:58 | n frames advance the position by n tenths of the speed |
| Teleprompter.AdvanceMonotone | components/Teleprompter.tsx:56-61 | at a non-negative speed the script only moves forward |
| Teleprompter.Prompter.constructor | components/Teleprompter.tsx:26-49 | defaults speed 2, size 6, not mirrored; a saved setting of the right type replaces its default as it is, without clamping; the stored settings follow |
| Teleprompter.Prompter.PlayPause | components/Teleprompter.tsx:72 | play/pause flips scrolling |
| Teleprompter.Prompter.Reset | components/Teleprompter.tsx:73-79 | with the container mounted, scrolling stops and the position returns to 0; otherwise nothing changes |
| Teleprompter.Prompter.ToggleMirror | components/Teleprompter.tsx:174 | the mirror button flips mirroring, so two presses restore it, and the stored settings follow |
| Teleprompter.Prompter.DecreaseSize | components/Teleprompter.tsx:159 | the size becomes `SizeDown` of the old one and is stored |
| Teleprompter.Prompter.IncreaseSize | components/Teleprompter.tsx:160 | the size becomes `SizeUp` of the old one and is stored |
| Teleprompter.Prompter.DecreaseSpeed | components/Teleprompter.tsx:164 | the speed becomes `SpeedDown` of the old one and is stored |
| Teleprompter.Prompter.IncreaseSpeed | components/Teleprompter.tsx:165 | the speed becomes `SpeedUp` of the old one and is stored |
| Teleprompter.Prompter.ScrollStep | components/Teleprompter.tsx:56-61 | with the container mounted, one frame is one step of `Advance` (a tenth of the speed); otherwise nothing moves |
| Teleprompter.Prompter.HandleKeyDown | components/Teleprompter.tsx:126-134 | Space flips scrolling, Escape and only Escape asks to close, and any other key changes nothing |

## Left out

- AI calls (`generateContent`, `generateImages`) are not modelled; their outcome is a parameter. So are the prompts of the research, article, completion, KPI, CRM summary, campaign and email generators, which only feed those calls. The completion prompt's `'the given topic'` fallback only affects that prompt.
- `JSON.parse` of the scraped slice is an oracle parameter (`None` stands for a `SyntaxError`). Its type assumes that whatever parses is a list of contacts whose fields are strings or absent. The source checks no shape, so two behaviours are not modelled:
- JSON of another shape is not modelled: a slice such as `5` (the swapped slice of `] 5 [`), `[null]`, or a contact with a numeric field parses in the source, and the export then throws at `c.name?.replace`; `ExportRoundTrip` holds only for the assumed shape.
- A `SyntaxError` thrown by the model call itself is not modelled: the source reports it with the parse-failure message, while `ScrapeContacts` gives every thrown call the "Could not perform scraping" message.
- The browser's storage is modelled as state fields that follow the model (`storedPosts`, `draft`, `stored`) and as optional values read at start-up. The JSON encoding is not modelled. An unreadable saved value is the same as an absent one.
- Blob and download anchor, clipboard, `alert` and `confirm` are not modelled. The answer to the restore prompt is a parameter.
- `requestAnimationFrame` is not modelled; one call of `ScrollStep` is one frame. `scrollIntoView`, Picture-in-Picture and the camera (`isPipActive`) are not modelled either.
- The WordPress branch of `handlePublish` is modelled only up to the start of publishing. Its two-second timer, random post URL and history entry are not modelled.
- `Date.now`, `new Date()` and `Math.random` are not modelled:
  - post ids and times are parameters;
  - history ids come from a counter in `App` that keeps them unique;
  - history timestamps are not kept.
- Post timestamps are integers, so invalid dates are not modelled. The sort is proved to be a newest-first permutation, but its stability is not proved.
- Amounts and probabilities arrive already parsed, as integers. `parseFloat` and `parseInt` are not modelled.
- Teleprompter sizes, speeds and the scroll position are exact reals. Floating-point rounding is not modelled. Reals rather than half-units, because a loaded setting may be any number.
- `ToLower` and `Capitalize` map ASCII letters only.
- `isLoading` is kept as a field of `ContactScraper.Scraper` and `ResearchAndArticle.ResearchSuite`, but every handler runs to completion in one step and leaves it false, so the disabling of buttons and inputs during a call is not modelled (the `!isLoading` conjunct of `OpenTeleprompter` never excludes a state). The `loadingAi` and `loadingDerivative` flags are not modelled at all. Stale state captured across an `await` is not modelled either.
- A reply without text is not modelled: every generator returns `response.text` unchecked, and the callers' `startsWith` would then throw. So the `catch` blocks of `handleGenerate` and `handleGenerateDerivative` ("An unexpected error occurred") are not modelled, nor is the rejection that escapes `handleCompleteArticle`, which has no `try`.
- `ContactScraper.ExportCsv`: separates records with LF, as the source does, not with the CRLF of section 2 of RFC 4180. Its header line is left unquoted.
- `InternalBlog`'s `selectedPost` view switch is not modelled. The single-post view is modelled as its body (`BodyHtml`) and footer (`FooterLines`).
- The components KpiDashboard, CrmSummaryGenerator, CampaignPlanner, EmailGenerator, HistoryViewer and LandingPage are not part of this model. They are rendering or one-call request glue. `constants.tsx` is not modelled; its tab list is the `TabKey` datatype.
