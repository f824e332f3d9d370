/** The dashboard's logic: the fixed-order status tally behind the chart, the
    summary counters, deletion by identifier, and the save dispatch that
    turns a submitted form into an add or an update in the store. */
module Dashboard {
  import opened Wrappers
  import opened Types
  import opened MachineStore
  import opened MachineModal

  /** The chart colours, by position. */
  const Colors: seq<string> := ["#10B981", "#F59E0B", "#6B7280", "#EF4444"]

  /** The order in which the chart lists the statuses. */
  const StatusOrder: seq<Status> := [Running, Maintenance, Idle, Error]

  /** The display label of a status. */
  function Label(s: Status): string
  {
    match s
    case Running => "Em Operação"
    case Maintenance => "Manutenção"
    case Idle => "Parada"
    case Error => "Erro"
  }

  /** One slice, bar or point of the status chart. */
  datatype ChartEntry = ChartEntry(name: string, value: int, color: string)

  // ---------------------------------------------------------------------
  // Counting by status

  /** A tally lookup where an absent key reads as 0 (`acc[s] || 0`). */
  function Lookup(acc: map<Status, int>, s: Status): (n: int)
    ensures s !in acc ==> n == 0
  {
    if s in acc then acc[s] else 0
  }

  /** One step of the reduce: add one to the machine's status. */
  function Bump(acc: map<Status, int>, s: Status): (r: map<Status, int>)
    ensures Lookup(r, s) == Lookup(acc, s) + 1
    ensures forall t :: t != s ==> Lookup(r, t) == Lookup(acc, t)
  {
    acc[s := Lookup(acc, s) + 1]
  }

  /** The reduce over the list, left to right, from the accumulator `acc`. */
  function TallyFrom(acc: map<Status, int>, ms: seq<Machine>): map<Status, int>
    decreases |ms|
  {
    if ms == [] then acc else TallyFrom(Bump(acc, ms[0].status), ms[1..])
  }

  /** The reduce from the empty record. */
  function Tally(ms: seq<Machine>): (r: map<Status, int>)
    ensures forall s :: Lookup(r, s) == CountStatus(ms, s)
  {
    forall s ensures Lookup(TallyFrom(map[], ms), s) == CountStatus(ms, s) {
      TallyFromCounts(map[], ms, s);
    }
    TallyFrom(map[], ms)
  }

  /** The machines with the given status, in order (the summary's `filter`). */
  function WithStatus(ms: seq<Machine>, s: Status): (r: seq<Machine>)
    ensures |r| <= |ms|
    ensures forall m :: m in r <==> m in ms && m.status == s
    decreases |ms|
  {
    if ms == [] then []
    else if ms[0].status == s then [ms[0]] + WithStatus(ms[1..], s)
    else WithStatus(ms[1..], s)
  }

  /** The number of machines with the given status. */
  function CountStatus(ms: seq<Machine>, s: Status): (n: nat)
    ensures n <= |ms|
  {
    |WithStatus(ms, s)|
  }

  /** Counting over a list with one machine in front. */
  lemma CountStatusCons(m: Machine, rest: seq<Machine>, s: Status)
    ensures CountStatus([m] + rest, s) == (if m.status == s then 1 else 0) + CountStatus(rest, s)
  {
  }

  /** The filter keeps the machines with the status in their order and with
      their multiplicity, and drops every other machine. */
  lemma {:induction false} WithStatusSpec(ms: seq<Machine>, s: Status)
    ensures IsSubsequence(WithStatus(ms, s), ms)
    ensures forall m :: multiset(WithStatus(ms, s))[m] == if m.status == s then multiset(ms)[m] else 0
    decreases |ms|
  {
    if ms != [] {
      WithStatusSpec(ms[1..], s);
      var rest := WithStatus(ms[1..], s);
      assert ms == [ms[0]] + ms[1..];
      if ms[0].status == s {
        assert ([ms[0]] + rest)[1..] == rest;
      } else if rest != [] {
        assert rest[0] in rest;
      }
    }
  }

  /** The reduce adds to each status exactly the number of machines having it. */
  lemma {:induction false} TallyFromCounts(acc: map<Status, int>, ms: seq<Machine>, s: Status)
    ensures Lookup(TallyFrom(acc, ms), s) == Lookup(acc, s) + CountStatus(ms, s)
    decreases |ms|
  {
    if ms != [] {
      TallyFromCounts(Bump(acc, ms[0].status), ms[1..], s);
    }
  }

  /** Every machine has exactly one of the four statuses, so the four counts
      add up to the length of the list. */
  lemma {:induction false} StatusCountsSum(ms: seq<Machine>)
    ensures CountStatus(ms, Running) + CountStatus(ms, Maintenance)
          + CountStatus(ms, Idle) + CountStatus(ms, Error) == |ms|
    decreases |ms|
  {
    if ms != [] {
      StatusCountsSum(ms[1..]);
    }
  }

  // ---------------------------------------------------------------------
  // Chart data

  /** `indexOf`: the first position of `x` in `xs`, or -1 when absent. */
  function IndexOf(xs: seq<Status>, x: Status): (k: int)
    ensures -1 <= k < |xs|
    ensures k == -1 <==> x !in xs
    ensures 0 <= k ==> xs[k] == x && x !in xs[..k]
    decreases |xs|
  {
    if xs == [] then -1
    else if xs[0] == x then 0
    else
      var k := IndexOf(xs[1..], x);
      if k < 0 then -1 else k + 1
  }

  /** The chart entry of one status, read from the tally. */
  function EntryFor(tally: map<Status, int>, s: Status): ChartEntry
  {
    ChartEntry(Label(s), Lookup(tally, s), Colors[IndexOf(StatusOrder, s)])
  }

  /** `getChartData`: four entries, in the order running, maintenance, idle,
      error, each coloured by its position. */
  function ChartData(ms: seq<Machine>): (r: seq<ChartEntry>)
    ensures |r| == 4
    ensures forall i :: 0 <= i < 4 ==> r[i].name == Label(StatusOrder[i]) && r[i].color == Colors[i]
  {
    var tally := Tally(ms);
    assert forall i :: 0 <= i < 4 ==> IndexOf(StatusOrder, StatusOrder[i]) == i;
    seq(|StatusOrder|, i requires 0 <= i < |StatusOrder| => EntryFor(tally, StatusOrder[i]))
  }

  /** Each chart value is the number of machines with that status, 0 when none. */
  lemma ChartValuesAreCounts(ms: seq<Machine>)
    ensures forall i :: 0 <= i < 4 ==> ChartData(ms)[i].value == CountStatus(ms, StatusOrder[i])
    ensures forall i :: 0 <= i < 4 && (forall m :: m in ms ==> m.status != StatusOrder[i]) ==>
      ChartData(ms)[i].value == 0
  {
    forall i | 0 <= i < 4 ensures ChartData(ms)[i].value == CountStatus(ms, StatusOrder[i]) {
      TallyFromCounts(map[], ms, StatusOrder[i]);
    }
    forall i | 0 <= i < 4 && (forall m :: m in ms ==> m.status != StatusOrder[i])
      ensures CountStatus(ms, StatusOrder[i]) == 0
    {
      NoneWithStatus(ms, StatusOrder[i]);
    }
  }

  /** No machine has the status, so its count is 0. */
  lemma {:induction false} NoneWithStatus(ms: seq<Machine>, s: Status)
    requires forall m :: m in ms ==> m.status != s
    ensures CountStatus(ms, s) == 0
    decreases |ms|
  {
    if ms != [] {
      assert ms[0] in ms;
      NoneWithStatus(ms[1..], s);
    }
  }

  /** The four chart values add up to the number of machines. */
  lemma ChartSumIsLength(ms: seq<Machine>)
    ensures ChartData(ms)[0].value + ChartData(ms)[1].value
          + ChartData(ms)[2].value + ChartData(ms)[3].value == |ms|
  {
    ChartValuesAreCounts(ms);
    StatusCountsSum(ms);
  }

  /** The sample list charts as one machine per status. */
  lemma SampleChartOnePerStatus(stamps: seq<string>)
    requires |stamps| == 8
    ensures forall i :: 0 <= i < 4 ==> ChartData(SampleMachines(stamps))[i].value == 1
  {
    var ms := SampleMachines(stamps);
    ChartValuesAreCounts(ms);
    assert ms == [ms[0]] + ([ms[1]] + ([ms[2]] + ([ms[3]] + [])));
    forall s: Status ensures CountStatus(ms, s) == 1 {
      CountStatusCons(ms[3], [], s);
      CountStatusCons(ms[2], [ms[3]] + [], s);
      CountStatusCons(ms[1], [ms[2]] + ([ms[3]] + []), s);
      CountStatusCons(ms[0], [ms[1]] + ([ms[2]] + ([ms[3]] + [])), s);
    }
  }

  // ---------------------------------------------------------------------
  // Summary counters

  /** The four counters above the chart. */
  datatype Summary = Summary(total: int, running: int, maintenance: int, error: int)

  /** The counters: the list length and three status filters. */
  function SummaryOf(ms: seq<Machine>): (c: Summary)
    ensures c.total == |ms|
    ensures c.running + c.maintenance + CountStatus(ms, Idle) + c.error == c.total
  {
    StatusCountsSum(ms);
    Summary(|ms|, |WithStatus(ms, Running)|, |WithStatus(ms, Maintenance)|, |WithStatus(ms, Error)|)
  }

  /** The filter-based counters agree with the reduce-based chart values. */
  lemma SummaryMatchesChart(ms: seq<Machine>)
    ensures SummaryOf(ms).total == |ms|
    ensures SummaryOf(ms).running == ChartData(ms)[0].value
    ensures SummaryOf(ms).maintenance == ChartData(ms)[1].value
    ensures SummaryOf(ms).error == ChartData(ms)[3].value
  {
    ChartValuesAreCounts(ms);
  }

  // ---------------------------------------------------------------------
  // Deletion

  /** The delete handler's `filter(m => m.id !== id)`. */
  function RemoveById(ms: seq<Machine>, id: string): (r: seq<Machine>)
    ensures |r| <= |ms|
    ensures forall m :: m in r ==> m in ms && m.id != id
    decreases |ms|
  {
    if ms == [] then []
    else if ms[0].id != id then [ms[0]] + RemoveById(ms[1..], id)
    else RemoveById(ms[1..], id)
  }

  /** The number of entries carrying the identifier. */
  function Occurrences(ms: seq<Machine>, id: string): nat
    decreases |ms|
  {
    if ms == [] then 0 else (if ms[0].id == id then 1 else 0) + Occurrences(ms[1..], id)
  }

  /** `r` is obtained from `s` by deleting entries, keeping the rest in order
      (matched greedily from the front). */
  predicate IsSubsequence(r: seq<Machine>, s: seq<Machine>)
    decreases |s|
  {
    if r == [] then true
    else if s == [] then false
    else if r[0] == s[0] then IsSubsequence(r[1..], s[1..])
    else IsSubsequence(r, s[1..])
  }

  /** After deletion exactly the entries without the identifier remain, in
      their relative order, and the list shrinks by the number of matches. */
  lemma {:induction false} RemoveByIdSpec(ms: seq<Machine>, id: string)
    ensures forall m :: m in RemoveById(ms, id) <==> m in ms && m.id != id
    ensures IsSubsequence(RemoveById(ms, id), ms)
    ensures |RemoveById(ms, id)| == |ms| - Occurrences(ms, id)
    decreases |ms|
  {
    if ms != [] {
      RemoveByIdSpec(ms[1..], id);
      var rest := RemoveById(ms[1..], id);
      if ms[0].id != id {
        assert ([ms[0]] + rest)[1..] == rest;
      } else if rest != [] {
        assert rest[0] in rest;
      }
    }
  }

  /** The identifiers of a non-empty list start with its first machine's. */
  lemma IdsCons(ms: seq<Machine>)
    requires ms != []
    ensures Ids(ms) == [ms[0].id] + Ids(ms[1..])
  {
  }

  /** An identifier the list does not hold occurs nowhere in it. */
  lemma {:induction false} OccurrencesAbsent(ms: seq<Machine>, id: string)
    requires id !in Ids(ms)
    ensures Occurrences(ms, id) == 0
    decreases |ms|
  {
    if ms != [] {
      IdsCons(ms);
      OccurrencesAbsent(ms[1..], id);
    }
  }

  /** In a list with unique identifiers, a present identifier occurs once. */
  lemma {:induction false} OccurrencesUnique(ms: seq<Machine>, id: string)
    requires UniqueIds(ms) && id in Ids(ms)
    ensures Occurrences(ms, id) == 1
    decreases |ms|
  {
    IdsCons(ms);
    if ms[0].id == id {
      OccurrencesAbsent(ms[1..], id);
    } else {
      OccurrencesUnique(ms[1..], id);
    }
  }

  /** Deleting an absent identifier leaves the list unchanged. */
  lemma {:induction false} RemoveAbsentIsIdentity(ms: seq<Machine>, id: string)
    requires id !in Ids(ms)
    ensures RemoveById(ms, id) == ms
    decreases |ms|
  {
    if ms != [] {
      IdsCons(ms);
      RemoveAbsentIsIdentity(ms[1..], id);
    }
  }

  /** Deleting an identifier that occurs once shrinks the list by exactly one;
      with unique identifiers every present identifier occurs once. */
  lemma RemovePresentShrinksByOne(ms: seq<Machine>, id: string)
    requires UniqueIds(ms) && id in Ids(ms)
    ensures |RemoveById(ms, id)| == |ms| - 1
    ensures id !in Ids(RemoveById(ms, id))
  {
    OccurrencesUnique(ms, id);
    RemoveByIdSpec(ms, id);
  }

  /** Putting a machine in front of a list with unique identifiers, none of
      which is its own, keeps identifiers unique. */
  lemma ConsKeepsUniqueIds(m: Machine, rest: seq<Machine>)
    requires UniqueIds(rest)
    requires forall x :: x in rest ==> x.id != m.id
    ensures UniqueIds([m] + rest)
  {
    var r := [m] + rest;
    forall i, j | 0 <= i < j < |r| ensures r[i].id != r[j].id {
      assert r[j] == rest[j - 1];
      if i > 0 {
        assert r[i] == rest[i - 1];
      }
    }
  }

  /** Deletion keeps identifiers unique. */
  lemma {:induction false} RemoveKeepsUniqueIds(ms: seq<Machine>, id: string)
    requires UniqueIds(ms)
    ensures UniqueIds(RemoveById(ms, id))
    decreases |ms|
  {
    if ms != [] {
      RemoveKeepsUniqueIds(ms[1..], id);
      if ms[0].id != id {
        RemoveByIdSpec(ms[1..], id);
        forall x | x in RemoveById(ms[1..], id) ensures x.id != ms[0].id {
          var k :| 0 <= k < |ms[1..]| && ms[1..][k] == x;
          assert ms[k + 1] == x;
        }
        ConsKeepsUniqueIds(ms[0], RemoveById(ms[1..], id));
      }
    }
  }

  // ---------------------------------------------------------------------
  // Saving

  /** The update the save handler issues for an edit: every submitted field,
      with the edited machine's identifier. */
  function SavePatch(d: MachineData, id: string): (p: MachinePatch)
    ensures p.id == id && p.createdAt.None? && p.updatedAt.None?
  {
    MachinePatch(id, Some(d.companyId), Some(d.name), Some(d.status), Some(d.progress),
                 Some(d.nextProduct), None, None)
  }

  /** Saving an edit replaces the submitted fields and keeps the identifier
      and both timestamps, so `updated_at` is not refreshed. */
  lemma SaveEditReplacesFields(m: Machine, d: MachineData)
    ensures Merge(m, SavePatch(d, m.id))
         == Machine(m.id, d.companyId, d.name, d.status, d.progress, d.nextProduct, m.createdAt, m.updatedAt)
  {
  }

  /** Seeding the form from a listed machine and saving it unchanged
      leaves the list identical, provided identifiers are unique, the machine
      belongs to the sample company, and its next product is not the empty text. */
  lemma UnchangedEditIsNoOp(ms: seq<Machine>, m: Machine)
    requires UniqueIds(ms) && m in ms
    requires m.companyId == SampleCompany && m.nextProduct != Some("")
    ensures UpdateAll(ms, SavePatch(Submit(Seed(Some(m))), m.id)) == ms
  {
    var p := SavePatch(Submit(Seed(Some(m))), m.id);
    SeedSubmitRoundTrip(m);
    SaveEditReplacesFields(m, Submit(Seed(Some(m))));
    var r := UpdateAll(ms, p);
    var k :| 0 <= k < |ms| && ms[k] == m;
    forall i | 0 <= i < |ms| ensures r[i] == ms[i] {
      if ms[i].id == m.id {
        assert i == k;
      }
    }
  }

  /** The dashboard's component state, over the shared store. */
  class View {
    const store: Store
    var selectedMachine: Option<Machine>
    var isModalOpen: bool

    constructor (store: Store)
      ensures this.store == store && selectedMachine == None && !isModalOpen
    {
      this.store := store;
      selectedMachine := None;
      isModalOpen := false;
    }

    /** Reload the sample company's machines (also what mounting does). */
    method HandleRefresh()
      requires store.Valid()
      modifies store
      ensures store.machines == SampleMachines(store.stamps)
      ensures store.selectedCompanyId == Some(SampleCompany)
      ensures !store.loading && store.error == None
    {
      store.FetchMachines(SampleCompany);
    }

    /** Open the form for a new machine. */
    method HandleAddMachine()
      modifies this
      ensures selectedMachine == None && isModalOpen
    {
      selectedMachine := None;
      isModalOpen := true;
    }

    /** Open the form for an existing machine. */
    method HandleEditMachine(m: Machine)
      modifies this
      ensures selectedMachine == Some(m) && isModalOpen
    {
      selectedMachine := Some(m);
      isModalOpen := true;
    }

    /** A selected machine turns the save into an update carrying its
        identifier; no selection turns it into an add. The identifier and
        clock readings are those the add would generate. */
    method HandleSaveMachine(d: MachineData, id: string, createdAt: string, updatedAt: string)
      modifies store`machines
      ensures selectedMachine.Some? ==>
        store.machines == UpdateAll(old(store.machines), SavePatch(d, selectedMachine.value.id))
      ensures selectedMachine.None? ==>
        store.machines == old(store.machines) + [NewMachine(d, id, createdAt, updatedAt)]
    {
      match selectedMachine
      case Some(sel) => store.UpdateMachine(SavePatch(d, sel.id));
      case None => store.AddMachine(d, id, createdAt, updatedAt);
    }

    /** Delete by writing the filtered list straight into the store. */
    method HandleDeleteMachine(id: string)
      modifies store`machines
      ensures store.machines == RemoveById(old(store.machines), id)
      ensures UniqueIds(old(store.machines)) ==> UniqueIds(store.machines)
      ensures id !in Ids(old(store.machines)) ==> store.machines == old(store.machines)
    {
      if UniqueIds(store.machines) {
        RemoveKeepsUniqueIds(store.machines, id);
      }
      if id !in Ids(store.machines) {
        RemoveAbsentIsIdentity(store.machines, id);
      }
      store.machines := RemoveById(store.machines, id);
    }

    /** The form's submit: saves the built record, then closes the form. */
    method SubmitForm(f: FormState, id: string, createdAt: string, updatedAt: string)
      modifies this`isModalOpen, store`machines
      ensures !isModalOpen
      ensures selectedMachine.Some? ==>
        store.machines == UpdateAll(old(store.machines), SavePatch(Submit(f), selectedMachine.value.id))
      ensures selectedMachine.None? ==>
        store.machines == old(store.machines) + [NewMachine(Submit(f), id, createdAt, updatedAt)]
    {
      HandleSaveMachine(Submit(f), id, createdAt, updatedAt);
      isModalOpen := false;
    }
  }
}
