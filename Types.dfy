/** The record shapes of the dashboard: a machine, the fields a form submits
    for one, and a partial update addressed by identifier. */
module Types {
  import opened Wrappers

  /** The closed four-value status enumeration. */
  datatype Status = Idle | Running | Maintenance | Error

  /** A monitored machine. Identifiers and timestamps are opaque strings. */
  datatype Machine = Machine(
    id: string,
    companyId: string,
    name: string,
    status: Status,
    progress: int,
    nextProduct: Option<string>,
    createdAt: string,
    updatedAt: string)

  /** A machine without its identifier and timestamps: what the form submits
      and what the store's add operation receives. */
  datatype MachineData = MachineData(
    companyId: string,
    name: string,
    status: Status,
    progress: int,
    nextProduct: Option<string>)

  /** A partial machine with a mandatory identifier. `None` is an absent key;
      for `nextProduct`, `Some(None)` is an explicit null. */
  datatype MachinePatch = MachinePatch(
    id: string,
    companyId: Option<string>,
    name: Option<string>,
    status: Option<Status>,
    progress: Option<int>,
    nextProduct: Option<Option<string>>,
    createdAt: Option<string>,
    updatedAt: Option<string>)

  /** The one company identifier the application uses. */
  const SampleCompany: string := "sample-company"

  /** The identifiers of a list of machines, in order. */
  function Ids(ms: seq<Machine>): seq<string>
  {
    seq(|ms|, i requires 0 <= i < |ms| => ms[i].id)
  }

  /** No two machines of the list share an identifier. */
  predicate UniqueIds(ms: seq<Machine>)
  {
    forall i, j :: 0 <= i < j < |ms| ==> ms[i].id != ms[j].id
  }
}
