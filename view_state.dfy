/** The list/detail selector shared by the Billing, Campaigns and Clients
    views: a `viewMode` of 'list' or 'detail' and a selected record that is
    `null` in list mode. */
module ViewState {

  import opened Options

  datatype Mode = List | Detail

  /** The selector's invariant: the detail view always has a record to show. */
  predicate Coherent<T>(mode: Mode, selected: Option<T>)
  {
    mode == Detail ==> selected.Some?
  }

}
