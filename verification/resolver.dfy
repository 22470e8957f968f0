/** The `info` command: choose one registry query from which filters are
    empty, and print whatever the registry answers as a table. */
module Resolver {
  import opened Instances
  import opened Table
  import opened Exits

  /** The four registry lookups the client offers. */
  datatype Query =
    | ListAll
    | ById(id: string)
    | ByApp(appName: string)
    | ByAppAndId(appName: string, id: string)

  /** The registry, seen from the tool: the instances it answers to each query.
      Transport, matching rules and ordering belong to the registry. */
  type Registry = Query -> seq<Instance>

  /** The `switch` of the `info` action: exactly one query, chosen only by
      which of the two filters is empty. */
  function Dispatch(appName: string, instanceId: string): (q: Query)
    ensures q.ListAll? <==> appName == "" && instanceId == ""
    ensures q.ById? <==> appName == "" && instanceId != ""
    ensures q.ByApp? <==> appName != "" && instanceId == ""
    ensures q.ByAppAndId? <==> appName != "" && instanceId != ""
  {
    if appName == "" && instanceId == "" then ListAll
    else if appName == "" then ById(instanceId)
    else if instanceId == "" then ByApp(appName)
    else ByAppAndId(appName, instanceId)
  }

  /** The filter pair a query stands for; the empty string is "no filter". */
  function Filters(q: Query): (string, string) {
    match q
    case ListAll => ("", "")
    case ById(id) => ("", id)
    case ByApp(app) => (app, "")
    case ByAppAndId(app, id) => (app, id)
  }

  /** A query whose carried strings are filters, i.e. non-empty. */
  predicate Proper(q: Query) {
    match q
    case ListAll => true
    case ById(id) => id != ""
    case ByApp(app) => app != ""
    case ByAppAndId(app, id) => app != "" && id != ""
  }

  /** The chosen query carries exactly the filters given, so no filter is
      dropped or invented. */
  lemma DispatchKeepsFilters(appName: string, instanceId: string)
    ensures Proper(Dispatch(appName, instanceId))
    ensures Filters(Dispatch(appName, instanceId)) == (appName, instanceId)
  {
  }

  /** Every proper query is reachable, from exactly its own filters. */
  lemma DispatchReachesEveryQuery(q: Query)
    requires Proper(q)
    ensures Dispatch(Filters(q).0, Filters(q).1) == q
  {
  }

  /** The `info` action: one query, then the table of its answer. An empty
      answer is not an error: the output is the header line alone. */
  function Info(appName: string, instanceId: string, registry: Registry): (r: Run)
    ensures r.exit == Ok
    ensures |r.stdout| >= |Header| && r.stdout[..|Header|] == Header
    ensures registry(Dispatch(appName, instanceId)) == [] ==> r.stdout == Header
  {
    Run(Render(registry(Dispatch(appName, instanceId))), Ok)
  }

  /** The output depends on the registry only through the one query chosen. */
  lemma InfoAsksOnce(appName: string, instanceId: string, r1: Registry, r2: Registry)
    requires r1(Dispatch(appName, instanceId)) == r2(Dispatch(appName, instanceId))
    ensures Info(appName, instanceId, r1) == Info(appName, instanceId, r2)
  {
  }

  /** Each answered instance has its own line, in the registry's order. */
  lemma {:induction false} InfoListsInOrder(appName: string, instanceId: string, registry: Registry, k: nat)
    requires k < |registry(Dispatch(appName, instanceId))|
    ensures var xs := registry(Dispatch(appName, instanceId));
      Info(appName, instanceId, registry).stdout
        == Header + (Rows(xs[..k]) + (Row(xs[k]) + Rows(xs[k + 1..])))
  {
    var xs := registry(Dispatch(appName, instanceId));
    assert Info(appName, instanceId, registry).stdout == Header + Rows(xs);
    RowAt(xs, k);
  }

}
