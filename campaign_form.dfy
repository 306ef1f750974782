/** The create-campaign form: its draft, the one-field update every input
    uses, the KPI checkboxes, and the completion callback that submit and
    cancel both call. */
module CampaignForm {

  import opened Selection

  /** The text fields an input can name. */
  datatype Field = Name | Client | Objective | Platform | Budget | StartDate | EndDate
                 | Brief | TargetAudience | AssignedTo

  /** `formData`. The budget is kept as the text typed. */
  datatype Draft = Draft(name: string, client: string, objective: string, platform: string,
                         budget: string, startDate: string, endDate: string, brief: string,
                         targetAudience: string, kpis: seq<string>, assignedTo: string)

  function Get(d: Draft, f: Field): string
  {
    match f
    case Name => d.name
    case Client => d.client
    case Objective => d.objective
    case Platform => d.platform
    case Budget => d.budget
    case StartDate => d.startDate
    case EndDate => d.endDate
    case Brief => d.brief
    case TargetAudience => d.targetAudience
    case AssignedTo => d.assignedTo
  }

  /** `{...prev, [name]: value}`: exactly the named field changes. */
  function Set(d: Draft, f: Field, v: string): (r: Draft)
    ensures Get(r, f) == v
    ensures forall g :: g != f ==> Get(r, g) == Get(d, g)
    ensures r.kpis == d.kpis
  {
    match f
    case Name => d.(name := v)
    case Client => d.(client := v)
    case Objective => d.(objective := v)
    case Platform => d.(platform := v)
    case Budget => d.(budget := v)
    case StartDate => d.(startDate := v)
    case EndDate => d.(endDate := v)
    case Brief => d.(brief := v)
    case TargetAudience => d.(targetAudience := v)
    case AssignedTo => d.(assignedTo := v)
  }

  /** Writing back a field's own value changes nothing, and a second write
      to the same field overrides the first. */
  lemma SetLaws(d: Draft, f: Field, v: string, w: string)
    ensures Set(d, f, Get(d, f)) == d
    ensures Set(Set(d, f, v), f, w) == Set(d, f, w)
  {
  }

  /** The options of the select inputs. */
  const Objectives: seq<string> := ["Brand Awareness", "Lead Generation", "Sales", "Traffic", "Engagement"]
  const Platforms: seq<string> := ["Google Ads", "Facebook Ads", "Instagram Ads", "LinkedIn Ads", "Twitter Ads"]
  const Assignees: seq<string> := ["John Smith", "Emma Davis", "Michael Chen", "Sarah Wilson"]

  /** The KPI checkboxes, in display order. */
  const AvailableKpis: seq<string> := ["Impressions", "Clicks", "CTR", "Conversions", "ROAS", "CPC", "CPM", "Reach"]

  /** The draft a new form starts with. */
  const Initial: Draft := Draft("", "", "Brand Awareness", "Google Ads", "", "", "", "", "", [], "John Smith")

  /** The fresh draft's preset values are among the options offered, no KPI
      is chosen, and every other field is empty. */
  lemma InitialDraft()
    ensures Initial.objective in Objectives && Initial.platform in Platforms && Initial.assignedTo in Assignees
    ensures Initial.kpis == []
    ensures forall f :: f != Objective && f != Platform && f != AssignedTo ==> Get(Initial, f) == ""
  {
  }

  /** The form's state: `formData` and the number of times the form has
      called its `onSubmit` completion callback. */
  class State {
    var draft: Draft
    var completions: nat

    /** The chosen KPIs have no repeats and are all offered. */
    predicate Valid()
      reads this
    {
      ValidChoice(draft.kpis, AvailableKpis)
    }

    constructor ()
      ensures Valid()
      ensures draft == Initial && completions == 0
    {
      draft := Initial;
      completions := 0;
    }

    /** `handleChange`. */
    method HandleChange(f: Field, value: string)
      requires Valid()
      modifies this
      ensures Valid()
      ensures draft == Set(old(draft), f, value)
      ensures completions == old(completions)
    {
      draft := Set(draft, f, value);
    }

    /** `handleKpiChange`, issued only by the checkbox of an offered KPI. */
    method HandleKpiChange(kpi: string)
      requires Valid()
      requires kpi in AvailableKpis
      modifies this
      ensures Valid()
      ensures draft == old(draft).(kpis := Toggle(old(draft).kpis, kpi))
      ensures kpi in draft.kpis <==> kpi !in old(draft).kpis
      ensures completions == old(completions)
    {
      ToggleKeepsDistinct(draft.kpis, kpi);
      ToggleWithin(draft.kpis, kpi, AvailableKpis);
      draft := draft.(kpis := Toggle(draft.kpis, kpi));
    }

    /** The submit handler: the draft is only logged, then the callback runs. */
    method HandleSubmit()
      modifies this
      ensures draft == old(draft)
      ensures completions == old(completions) + 1
    {
      completions := completions + 1;
    }

    /** The Cancel button calls the same callback. */
    method Cancel()
      modifies this
      ensures draft == old(draft)
      ensures completions == old(completions) + 1
    {
      completions := completions + 1;
    }
  }

}
