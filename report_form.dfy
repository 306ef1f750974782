/** The create-report form: its draft, the one-field update every input
    uses, the metric checkboxes, the custom date inputs, and the completion
    callback that submit and cancel both call. */
module ReportForm {

  import opened Selection

  /** The text fields an input can name. */
  datatype Field = Name | Client | Kind | DateRange | StartDate | EndDate
                 | Format | Frequency | EmailRecipients

  /** `formData`; `kind` is the report type. */
  datatype Draft = Draft(name: string, client: string, kind: string, dateRange: string,
                         startDate: string, endDate: string, metrics: seq<string>,
                         format: string, frequency: string, emailRecipients: string)

  function Get(d: Draft, f: Field): string
  {
    match f
    case Name => d.name
    case Client => d.client
    case Kind => d.kind
    case DateRange => d.dateRange
    case StartDate => d.startDate
    case EndDate => d.endDate
    case Format => d.format
    case Frequency => d.frequency
    case EmailRecipients => d.emailRecipients
  }

  /** `{...prev, [name]: value}`: exactly the named field changes. */
  function Set(d: Draft, f: Field, v: string): (r: Draft)
    ensures Get(r, f) == v
    ensures forall g :: g != f ==> Get(r, g) == Get(d, g)
    ensures r.metrics == d.metrics
  {
    match f
    case Name => d.(name := v)
    case Client => d.(client := v)
    case Kind => d.(kind := v)
    case DateRange => d.(dateRange := v)
    case StartDate => d.(startDate := v)
    case EndDate => d.(endDate := v)
    case Format => d.(format := v)
    case Frequency => d.(frequency := v)
    case EmailRecipients => d.(emailRecipients := v)
  }

  /** Writing back a field's own value changes nothing, and a second write
      to the same field overrides the first. */
  lemma SetLaws(d: Draft, f: Field, v: string, w: string)
    ensures Set(d, f, Get(d, f)) == d
    ensures Set(Set(d, f, v), f, w) == Set(d, f, w)
  {
  }

  /** The options of the select and radio inputs. */
  const ReportKinds: seq<string> := ["Performance", "Lead Analysis", "Summary", "Overview", "Campaign", "Custom"]
  const Formats: seq<string> := ["PDF", "CSV", "Both"]
  const DateRanges: seq<string> := ["last-7-days", "last-30-days", "last-90-days", "custom"]
  const Frequencies: seq<string> := ["one-time", "weekly", "monthly"]

  /** The metric checkboxes, in display order. */
  const AvailableMetrics: seq<string> := ["Impressions", "Clicks", "CTR", "Conversions", "ROAS", "CPC", "CPM",
                                          "Reach", "Cost per Conversion", "Revenue", "ROI", "Quality Score"]

  /** The draft a new form starts with. */
  const Initial: Draft := Draft("", "", "Performance", "custom", "", "", [], "PDF", "one-time", "")

  /** The fresh draft's preset values are among the options offered, no
      metric is chosen, and every other field is empty. */
  lemma InitialDraft()
    ensures Initial.kind in ReportKinds && Initial.format in Formats
    ensures Initial.dateRange in DateRanges && Initial.frequency in Frequencies
    ensures Initial.metrics == []
    ensures forall f :: f !in {Kind, DateRange, Format, Frequency} ==> Get(Initial, f) == ""
  {
  }

  /** The start and end date inputs appear only for a custom range. */
  function ShowsCustomDates(d: Draft): (shown: bool)
    ensures shown <==> Get(d, DateRange) == "custom"
  {
    d.dateRange == "custom"
  }

  /** A fresh form shows the date inputs; picking any preset range hides
      them, and picking the custom range shows them again. */
  lemma CustomDatesFollowRange(d: Draft, range: string)
    ensures ShowsCustomDates(Initial)
    ensures range in DateRanges ==> (ShowsCustomDates(Set(d, DateRange, range)) <==> range == DateRanges[3])
  {
  }

  /** The form's state: `formData` and the number of times the form has
      called its `onSubmit` completion callback. */
  class State {
    var draft: Draft
    var completions: nat

    /** The chosen metrics have no repeats and are all offered. */
    predicate Valid()
      reads this
    {
      ValidChoice(draft.metrics, AvailableMetrics)
    }

    constructor ()
      ensures Valid()
      ensures draft == Initial && completions == 0
    {
      draft := Initial;
      completions := 0;
    }

    /** `handleChange`. */
    method HandleChange(f: Field, value: string)
      requires Valid()
      modifies this
      ensures Valid()
      ensures draft == Set(old(draft), f, value)
      ensures completions == old(completions)
    {
      draft := Set(draft, f, value);
    }

    /** `handleMetricChange`, issued only by the checkbox of an offered
        metric. */
    method HandleMetricChange(metric: string)
      requires Valid()
      requires metric in AvailableMetrics
      modifies this
      ensures Valid()
      ensures draft == old(draft).(metrics := Toggle(old(draft).metrics, metric))
      ensures metric in draft.metrics <==> metric !in old(draft).metrics
      ensures completions == old(completions)
    {
      ToggleKeepsDistinct(draft.metrics, metric);
      ToggleWithin(draft.metrics, metric, AvailableMetrics);
      draft := draft.(metrics := Toggle(draft.metrics, metric));
    }

    /** The submit handler: the draft is only logged, then the callback runs. */
    method HandleSubmit()
      modifies this
      ensures draft == old(draft)
      ensures completions == old(completions) + 1
    {
      completions := completions + 1;
    }

    /** The Cancel button calls the same callback. */
    method Cancel()
      modifies this
      ensures draft == old(draft)
      ensures completions == old(completions) + 1
    {
      completions := completions + 1;
    }
  }

}
