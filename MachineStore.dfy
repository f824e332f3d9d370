/** The in-memory machine store: a fixed sample list, a loading flag, an
    error slot and the selected company, with load, update and add. */
module MachineStore {
  import opened Wrappers
  import opened Types

  /** The development sample list. Each of its eight timestamps is a separate
      clock reading taken once when the module loads; they are passed in. */
  function SampleMachines(stamps: seq<string>): (r: seq<Machine>)
    requires |stamps| == 8
    ensures |r| == 4
    ensures Ids(r) == ["1", "2", "3", "4"]
    ensures UniqueIds(r)
    ensures [r[0].status, r[1].status, r[2].status, r[3].status] == [Running, Maintenance, Idle, Error]
    ensures forall i :: 0 <= i < |r| ==> r[i].companyId == SampleCompany
  {
    [ Machine("1", SampleCompany, "Máquina de Corte A", Running, 75, Some("Peça XYZ-123"), stamps[0], stamps[1]),
      Machine("2", SampleCompany, "Prensa Hidráulica B", Maintenance, 30, Some("Componente ABC-456"), stamps[2], stamps[3]),
      Machine("3", SampleCompany, "Torno CNC C", Idle, 0, Some("Peça DEF-789"), stamps[4], stamps[5]),
      Machine("4", SampleCompany, "Fresadora D", Error, 45, None, stamps[6], stamps[7]) ]
  }

  /** The spread `{ ...m, ...p }`: every key the patch supplies overrides the
      machine's, every other key keeps the machine's value. */
  function Merge(m: Machine, p: MachinePatch): (r: Machine)
    ensures r.id == p.id
    ensures r.companyId == (if p.companyId.Some? then p.companyId.value else m.companyId)
    ensures r.name == (if p.name.Some? then p.name.value else m.name)
    ensures r.status == (if p.status.Some? then p.status.value else m.status)
    ensures r.progress == (if p.progress.Some? then p.progress.value else m.progress)
    ensures r.nextProduct == (if p.nextProduct.Some? then p.nextProduct.value else m.nextProduct)
    ensures r.createdAt == (if p.createdAt.Some? then p.createdAt.value else m.createdAt)
    ensures r.updatedAt == (if p.updatedAt.Some? then p.updatedAt.value else m.updatedAt)
  {
    Machine(p.id, p.companyId.GetOr(m.companyId), p.name.GetOr(m.name), p.status.GetOr(m.status),
            p.progress.GetOr(m.progress), p.nextProduct.GetOr(m.nextProduct),
            p.createdAt.GetOr(m.createdAt), p.updatedAt.GetOr(m.updatedAt))
  }

  /** The callback of the update's `map`: merge when the identifiers agree. */
  function UpdateOne(m: Machine, p: MachinePatch): Machine
  {
    if m.id == p.id then Merge(m, p) else m
  }

  /** The list after an update: same length and order, every entry whose
      identifier differs is untouched, every matching entry is merged. */
  function UpdateAll(ms: seq<Machine>, p: MachinePatch): (r: seq<Machine>)
    ensures |r| == |ms|
    ensures forall i :: 0 <= i < |ms| && ms[i].id != p.id ==> r[i] == ms[i]
    ensures forall i :: 0 <= i < |ms| && ms[i].id == p.id ==> r[i] == Merge(ms[i], p)
  {
    if ms == [] then [] else [UpdateOne(ms[0], p)] + UpdateAll(ms[1..], p)
  }

  /** The record the add operation appends: the supplied fields plus the
      generated identifier and the two clock readings. */
  function NewMachine(d: MachineData, id: string, createdAt: string, updatedAt: string): (r: Machine)
    ensures r.id == id && r.createdAt == createdAt && r.updatedAt == updatedAt
    ensures MachineData(r.companyId, r.name, r.status, r.progress, r.nextProduct) == d
  {
    Machine(id, d.companyId, d.name, d.status, d.progress, d.nextProduct, createdAt, updatedAt)
  }

  /** A patch that supplies nothing but the identifier leaves its machine as it is. */
  lemma MergeEmptyIsIdentity(m: Machine)
    ensures Merge(m, MachinePatch(m.id, None, None, None, None, None, None, None)) == m
  {
  }

  /** Applying the same patch twice is the same as applying it once. */
  lemma MergeIdempotent(m: Machine, p: MachinePatch)
    ensures Merge(Merge(m, p), p) == Merge(m, p)
  {
  }

  /** An update never changes the identifiers, so it keeps them unique. */
  lemma UpdateKeepsIds(ms: seq<Machine>, p: MachinePatch)
    ensures Ids(UpdateAll(ms, p)) == Ids(ms)
    ensures UniqueIds(ms) ==> UniqueIds(UpdateAll(ms, p))
  {
  }

  /** Updating an identifier the list does not hold leaves the list identical. */
  lemma UpdateAbsentIsIdentity(ms: seq<Machine>, p: MachinePatch)
    requires p.id !in Ids(ms)
    ensures UpdateAll(ms, p) == ms
  {
    var r := UpdateAll(ms, p);
    forall i | 0 <= i < |ms| ensures r[i] == ms[i] {
      assert Ids(ms)[i] == ms[i].id;
    }
  }

  /** Updating twice with the same patch is the same as updating once. */
  lemma UpdateIdempotent(ms: seq<Machine>, p: MachinePatch)
    ensures UpdateAll(UpdateAll(ms, p), p) == UpdateAll(ms, p)
  {
  }

  /** Appending a record whose identifier is fresh keeps identifiers unique. */
  lemma AddKeepsUniqueIds(ms: seq<Machine>, m: Machine)
    requires UniqueIds(ms)
    requires m.id !in Ids(ms)
    ensures UniqueIds(ms + [m])
  {
    var r := ms + [m];
    forall i, j | 0 <= i < j < |r| ensures r[i].id != r[j].id {
      if j == |ms| {
        assert Ids(ms)[i] == ms[i].id;
      }
    }
  }

  /** The store's state. `stamps` are the clock readings the sample list was
      built with, so every load installs the same list. */
  class Store {
    const stamps: seq<string>
    var machines: seq<Machine>
    var loading: bool
    var error: Option<string>
    var selectedCompanyId: Option<string>

    /** The sample list can be built from the recorded clock readings. */
    predicate Valid()
    {
      |stamps| == 8
    }

    /** The initial state: the sample list, not loading, no error, the sample company. */
    constructor (stamps: seq<string>)
      requires |stamps| == 8
      ensures this.stamps == stamps && Valid() && machines == SampleMachines(stamps)
      ensures !loading && error == None && selectedCompanyId == Some(SampleCompany)
    {
      this.stamps := stamps;
      machines := SampleMachines(stamps);
      loading := false;
      error := None;
      selectedCompanyId := Some(SampleCompany);
    }

    /** Load for a company: whatever the list held, it becomes the sample list;
        the loading flag is raised and lowered again and the error is cleared. */
    method FetchMachines(companyId: string)
      requires Valid()
      modifies this
      ensures machines == SampleMachines(stamps) && selectedCompanyId == Some(companyId)
      ensures !loading && error == None
      ensures UniqueIds(machines)
    {
      loading, error := true, None;
      machines, selectedCompanyId := SampleMachines(stamps), Some(companyId);
      loading := false;
    }

    /** Merge the patch into every entry carrying its identifier. */
    method UpdateMachine(p: MachinePatch)
      modifies this`machines
      ensures machines == UpdateAll(old(machines), p)
      ensures Ids(machines) == Ids(old(machines))
      ensures p.id !in Ids(old(machines)) ==> machines == old(machines)
    {
      UpdateKeepsIds(machines, p);
      if p.id !in Ids(machines) {
        UpdateAbsentIsIdentity(machines, p);
      }
      machines := UpdateAll(machines, p);
    }

    /** Append one new record built from the supplied fields. */
    method AddMachine(d: MachineData, id: string, createdAt: string, updatedAt: string)
      modifies this`machines
      ensures machines == old(machines) + [NewMachine(d, id, createdAt, updatedAt)]
      ensures UniqueIds(old(machines)) && id !in Ids(old(machines)) ==> UniqueIds(machines)
    {
      var m := NewMachine(d, id, createdAt, updatedAt);
      if UniqueIds(machines) && id !in Ids(machines) {
        AddKeepsUniqueIds(machines, m);
      }
      machines := machines + [m];
    }
  }
}
