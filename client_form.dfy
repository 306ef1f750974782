/** The add-client form: its draft, the one-field update every input uses,
    and the completion callback that submit and cancel both call. */
module ClientForm {

  /** The fields an input can name. */
  datatype Field = Name | ContactName | Email | Phone | Website | Industry
                 | BillingAddress | AccountManager

  /** `formData`. */
  datatype Draft = Draft(name: string, contactName: string, email: string, phone: string,
                         website: string, industry: string, billingAddress: string,
                         accountManager: string)

  function Get(d: Draft, f: Field): string
  {
    match f
    case Name => d.name
    case ContactName => d.contactName
    case Email => d.email
    case Phone => d.phone
    case Website => d.website
    case Industry => d.industry
    case BillingAddress => d.billingAddress
    case AccountManager => d.accountManager
  }

  /** `{...prev, [name]: value}`: exactly the named field changes. */
  function Set(d: Draft, f: Field, v: string): (r: Draft)
    ensures Get(r, f) == v
    ensures forall g :: g != f ==> Get(r, g) == Get(d, g)
  {
    match f
    case Name => d.(name := v)
    case ContactName => d.(contactName := v)
    case Email => d.(email := v)
    case Phone => d.(phone := v)
    case Website => d.(website := v)
    case Industry => d.(industry := v)
    case BillingAddress => d.(billingAddress := v)
    case AccountManager => d.(accountManager := v)
  }

  /** A draft is determined by its fields, so writing back a field's own
      value changes nothing and a second write to the same field overrides
      the first. */
  lemma SetLaws(d: Draft, f: Field, v: string, w: string)
    ensures Set(d, f, Get(d, f)) == d
    ensures Set(Set(d, f, v), f, w) == Set(d, f, w)
  {
  }

  /** The account-manager options. */
  const AccountManagers: seq<string> := ["John Smith", "Emma Davis", "Michael Chen"]

  /** The industry options after the empty placeholder. */
  const Industries: seq<string> := ["technology", "healthcare", "retail", "finance", "education", "other"]

  /** The draft a new form starts with. */
  const Initial: Draft := Draft("", "", "", "", "", "", "", "John Smith")

  /** Every field of a fresh draft is empty except the account manager,
      which is one of the options offered; the industry select starts on its
      placeholder, not on an industry. */
  lemma InitialDraft()
    ensures Initial.accountManager in AccountManagers
    ensures Initial.industry !in Industries
    ensures forall f :: f != AccountManager ==> Get(Initial, f) == ""
  {
  }

  /** The form's state: `formData` and the number of times the form has
      called its `onSubmit` completion callback. The callback receives no
      data. */
  class State {
    var draft: Draft
    var completions: nat

    constructor ()
      ensures draft == Initial && completions == 0
    {
      draft := Initial;
      completions := 0;
    }

    /** `handleChange`. */
    method HandleChange(f: Field, value: string)
      modifies this
      ensures draft == Set(old(draft), f, value)
      ensures completions == old(completions)
    {
      draft := Set(draft, f, value);
    }

    /** The submit handler: the draft is only logged, then the callback runs. */
    method HandleSubmit()
      modifies this
      ensures draft == old(draft)
      ensures completions == old(completions) + 1
    {
      completions := completions + 1;
    }

    /** The Cancel button calls the same callback. */
    method Cancel()
      modifies this
      ensures draft == old(draft)
      ensures completions == old(completions) + 1
    {
      completions := completions + 1;
    }
  }

}
