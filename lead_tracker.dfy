/**
 * The CRM screen: the forms that add a lead and an opportunity to the application's lists.
 * A new lead goes at the end of the lead list and is reported to the automations; a new
 * opportunity must name an existing lead, whose display name it copies.
 */
module LeadTracker {
  import opened Types
  import opened AppRoot

  datatype LeadForm = LeadForm(name: string, email: string, stage: LeadStage)

  /** The opportunity form keeps what was typed; amounts are parsed on submission. */
  datatype OppForm = OppForm(leadId: string, amount: string, probability: string)

  const EmptyLeadForm := LeadForm("", "", New)
  const EmptyOppForm := OppForm("", "", "")

  /** `leads.find(l => l.id === id)`: the first lead with that id, if any. */
  function FindLead(leads: seq<Lead>, id: string): (r: Option<Lead>)
    ensures r.None? <==> forall i :: 0 <= i < |leads| ==> leads[i].id != id
    ensures r.Some? ==> exists k :: 0 <= k < |leads| && leads[k] == r.value
                                    && forall i :: 0 <= i < k ==> leads[i].id != id
    ensures r.Some? ==> r.value.id == id
  {
    if leads == [] then None
    else if leads[0].id == id then
      Some(leads[0])
    else
      var r := FindLead(leads[1..], id);
      if r.Some? then
        var k :| 0 <= k < |leads[1..]| && leads[1..][k] == r.value
                 && forall i :: 0 <= i < k ==> leads[1..][i].id != id;
        assert leads[k + 1] == r.value;
        assert forall i :: 0 <= i < k + 1 ==> leads[i].id != id by {
          forall i | 0 <= i < k + 1 ensures leads[i].id != id {
            if i > 0 { assert leads[i] == leads[1..][i - 1]; }
          }
        }
        r
      else
        r
  }

  /** The leads the opportunity form offers: every lead not marked lost, in list order. */
  function SelectableLeads(leads: seq<Lead>): (r: seq<Lead>)
    ensures |r| <= |leads|
    ensures forall l :: l in r <==> l in leads && l.stage != LeadStage.Lost
  {
    if leads == [] then []
    else if leads[0].stage != LeadStage.Lost then [leads[0]] + SelectableLeads(leads[1..])
    else SelectableLeads(leads[1..])
  }

  /** Leads not marked lost are kept in the order of the list. */
  lemma {:induction false} SelectableAppend(a: seq<Lead>, b: seq<Lead>)
    ensures SelectableLeads(a + b) == SelectableLeads(a) + SelectableLeads(b)
  {
    if a == [] {
      assert a + b == b;
    } else {
      assert (a + b)[0] == a[0] && (a + b)[1..] == a[1..] + b;
      SelectableAppend(a[1..], b);
    }
  }

  class Tracker {
    var newLead: LeadForm
    var newOpp: OppForm

    constructor()
      ensures newLead == EmptyLeadForm && newOpp == EmptyOppForm
    {
      newLead := EmptyLeadForm;
      newOpp := EmptyOppForm;
    }

    /** Typing into the lead form. */
    method EditLead(form: LeadForm)
      modifies this`newLead
      ensures newLead == form
    {
      newLead := form;
    }

    /** Typing into the opportunity form. */
    method EditOpp(form: OppForm)
      modifies this`newOpp
      ensures newOpp == form
    {
      newOpp := form;
    }

    /**
     * `handleAddLead`. With a name and an email, the lead (with the given id) goes at the
     * end of the list, is reported to the automations once, and the form is emptied.
     * Otherwise nothing changes.
     */
    method HandleAddLead(app: App, id: string)
      modifies this`newLead, app`leads, app`automationLogs
      ensures old(newLead.name != [] && newLead.email != []) ==>
                var lead := Lead(id, old(newLead.name), old(newLead.email), old(newLead.stage));
                && app.leads == old(app.leads) + [lead]
                && (app.automations.sheet.enabled ==>
                      app.automationLogs == old(app.automationLogs) + [SheetLogLine(lead.name, app.automations.sheet.url)])
                && (!app.automations.sheet.enabled ==> app.automationLogs == old(app.automationLogs))
                && newLead == EmptyLeadForm
      ensures !old(newLead.name != [] && newLead.email != []) ==>
                app.leads == old(app.leads) && app.automationLogs == old(app.automationLogs)
                && newLead == old(newLead)
    {
      if newLead.name != [] && newLead.email != [] {
        var lead := Lead(id, newLead.name, newLead.email, newLead.stage);
        app.leads := app.leads + [lead];
        app.HandleLeadAdded(lead);
        newLead := EmptyLeadForm;
      }
    }

    /**
     * `handleAddOpp`. `amount` and `probability` are what parsing the typed texts gives.
     * When all three fields are filled in and a lead has the chosen id, an opportunity in
     * the Prospecting stage, carrying that lead's name, goes at the end of the list and the
     * form is emptied. Otherwise nothing changes.
     */
    method HandleAddOpp(app: App, id: string, amount: int, probability: int)
      modifies this`newOpp, app`opportunities
      ensures var form := old(newOpp);
              var found := FindLead(old(app.leads), form.leadId);
              if form.leadId != [] && form.amount != [] && form.probability != [] && found.Some? then
                && app.opportunities == old(app.opportunities) +
                     [Opportunity(id, form.leadId, found.value.name, amount, Prospecting, probability)]
                && newOpp == EmptyOppForm
              else
                app.opportunities == old(app.opportunities) && newOpp == form
    {
      if newOpp.leadId != [] && newOpp.amount != [] && newOpp.probability != [] {
        var selected := FindLead(app.leads, newOpp.leadId);
        if selected.Some? {
          var opp := Opportunity(id, newOpp.leadId, selected.value.name, amount, Prospecting, probability);
          app.opportunities := app.opportunities + [opp];
          newOpp := EmptyOppForm;
        }
      }
    }
  }
}
