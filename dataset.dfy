// The records of `src/data/bills.json` that the scripts and components read
// and write. A JSON field that may be absent or `null` is an `Option`; a
// field every record carries is a plain value.

module Dataset {
  import opened Text

  datatype Category = Category(id: string, name: string)

  /** The `status` object the monitor and the discovery script fill in. */
  datatype Status = Status(
    stage: Option<string>,
    lastAction: Option<string>,
    lastActionDate: Option<string>,
    hasCommitteeHearing: bool,
    hasCommitteeMarkup: bool,
    hasFloorVote: bool,
    cosponsors: int,
    committees: seq<string>)

  /** One tracked bill or rider. `kind` is the JSON field `type`. */
  datatype Bill = Bill(
    id: string,
    billNumbers: seq<string>,
    title: string,
    description: string,
    sponsors: seq<string>,
    category: string,
    position: Option<string>,
    kind: Option<string>,
    priority: Option<string>,
    prioritySource: Option<string>,
    highlight: Option<string>,
    fiscalYear: Option<string>,
    provisional: bool,
    status: Option<Status>,
    autoDiscovered: bool,
    discoveredDate: Option<string>,
    relevanceScore: Option<int>,
    congressGovLink: Option<string>,
    attackType: Option<string>)

  /** The whole file. The three bill arrays may each be missing. */
  datatype Data = Data(
    lastUpdated: string,
    categories: seq<Category>,
    bills: Option<seq<Bill>>,
    riders: Option<seq<Bill>>,
    supportBills: Option<seq<Bill>>)

  /** `xs || []` for an array field that may be missing. */
  function OrEmpty(xs: Option<seq<Bill>>): (r: seq<Bill>)
    ensures xs.Some? ==> r == xs.value
    ensures xs.None? ==> r == []
  {
    if xs.Some? then xs.value else []
  }

  /** `bill.status?.stage`, absent when either the status or its stage is. */
  function StageOf(b: Bill): (r: Option<string>)
    ensures r.Some? <==> b.status.Some? && b.status.value.stage.Some?
    ensures r.Some? ==> r.value == b.status.value.stage.value
  {
    if b.status.Some? then b.status.value.stage else None
  }

  /** `xs[0]`, which is `undefined` on an empty array. */
  function First(xs: seq<string>): (r: Option<string>)
    ensures r.Some? <==> |xs| > 0
    ensures r.Some? ==> r.value == xs[0]
  {
    if |xs| > 0 then Some(xs[0]) else None
  }
}
