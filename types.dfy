/** The records shared by the screens of the suite (the interfaces of types.ts). */
module Types {

  datatype Option<+T> = None | Some(value: T) {
    function GetOr(default: T): T {
      match this
      case Some(v) => v
      case None => default
    }
  }

  /** The screens of the suite, in the order of the navigation bar. */
  datatype TabKey =
    | ResearchArticle | BlogWizard | InternalBlog | ContactScraper | Crm | KpiDashboard
    | CrmSummary | CampaignPlanner | EmailGenerator | ContentHistory | Automation

  datatype LeadStage = New | Contacted | Qualified | Lost

  datatype Lead = Lead(id: string, name: string, email: string, stage: LeadStage)

  datatype OpportunityStage = Prospecting | Proposal | Negotiation | Won | Lost

  /** An opportunity copies the display name of its lead when it is created. */
  datatype Opportunity = Opportunity(
    id: string, leadId: string, leadName: string, amount: int, stage: OpportunityStage, probability: int)

  /**
   * A contact found by the scraper. The record comes out of a JSON document written by
   * the AI, so any field may be absent; the exporter reads each one with optional chaining.
   */
  datatype Contact = Contact(
    name: Option<string>, title: Option<string>, organization: Option<string>,
    contactInfo: Option<string>, sourceUrl: Option<string>)

  /** What a screen hands to the history log (a history item without its id). */
  datatype HistoryEntry = HistoryEntry(kind: TabKey, topic: string, content: string)

  datatype HistoryItem = HistoryItem(id: nat, kind: TabKey, topic: string, content: string)

  /** What the wizard hands over to be published internally (a post without id and time). */
  datatype PostDraft = PostDraft(title: string, content: string, featuredImage: string, tags: string, categories: string)

  /** A published post; `timestamp` is the publication time in milliseconds. */
  datatype BlogPost = BlogPost(
    id: string, title: string, content: string, featuredImage: string, tags: string,
    categories: string, timestamp: int)

  /** The kinds of derivative content the research screen can request. */
  datatype DerivativeType = Shorts | Podcast | Video

  /** The key of a derivative type, as it appears in the output tabs. */
  function DerivativeKey(t: DerivativeType): string {
    match t
    case Shorts => "shorts"
    case Podcast => "podcast"
    case Video => "video"
  }
}
