# Machine status dashboard — Dafny model

This project models the logic of a small industrial-monitoring dashboard. The dashboard keeps a list of
machine records in an in-memory store. Each record has an identifier, a company, a name, one of four
statuses (idle, running, maintenance, error), a progress value, an optional next product and two
timestamps. The model covers:

- **the store** (`MachineStore.Store`): a class with the fields `machines`, `loading`, `error` and
  `selectedCompanyId`.
  - Loading for a company installs the fixed sample list.
  - Update merges a partial record into the entries that carry its identifier.
  - Add appends a new record.
- **the dashboard logic** (`Dashboard`):
  - the fixed-order count by status that drives the chart, with positional colours;
  - the summary counters;
  - delete by identifier, which writes the filtered list straight into the store;
  - the save dispatch: an edit becomes an update, a new machine becomes an add.
- **the form** (`MachineModal`): seeding the four form fields from a machine or from defaults, and
  building the submitted record from them.

Modules: `Wrappers` (Option), `Types` (the record shapes), `MachineStore`, `MachineModal`, `Dashboard`.

Values the source generates or reads from outside are parameters:
- the identifier of a new machine (`Math.random()`);
- the two clock readings of a new machine (`new Date()` is read twice, so they are independent values);
- the eight clock readings baked into the sample list when the module loads (`Store` constructor, `stamps`).

`Partial<Machine>` is `MachinePatch`: one `Option` per field, where `None` means the key is absent.
`nextProduct` is `Option<Option<string>>`, so an explicit `null` can be supplied.

Three facts about the code shape the model:
- A new machine's `created_at` and `updated_at` come from two separate clock readings
  (machineStore.ts:115-116), so the model does not claim they are equal.
- On the local path an update does not refresh `updated_at`; `Dashboard.SaveEditReplacesFields`
  states this.
- Deleting is done by the dashboard, not by the store. `Dashboard.View.HandleDeleteMachine` assigns
  `store.machines` directly, as the source does.

## Model

| member | source | states |
|---|---|---|
| `MachineStore.SampleMachines` | project/src/store/machineStore.ts:16-57 | four machines with ids "1" to "4", ids unique, statuses running, maintenance, idle, error in that order, all of the sample company |
| `MachineStore.Merge` | project/src/store/machineStore.ts:91 | the merged record takes every field the patch supplies and keeps the old value of every other field; its id is the patch's |
| `MachineStore.MergeEmptyIsIdentity` | project/src/store/machineStore.ts:91 | a patch supplying only the machine's own id leaves it unchanged |
| `MachineStore.MergeIdempotent` | project/src/store/machineStore.ts:91 | merging the same patch twice equals merging it once |
| `MachineStore.UpdateAll` | project/src/store/machineStore.ts:89-93 | length and order preserved; every entry with a different id is unchanged; every entry with the patch's id is the merge of that entry with the patch |
| `MachineStore.UpdateKeepsIds` | project/src/store/machineStore.ts:89-93 | the id sequence is unchanged by an update, so unique ids stay unique |
| `MachineStore.UpdateAbsentIsIdentity` | project/src/store/machineStore.ts:90-92 | updating an id the list does not hold leaves the list identical |
| `MachineStore.UpdateIdempotent` | project/src/store/machineStore.ts:89-93 | repeating an update changes nothing more |
| `MachineStore.NewMachine` | project/src/store/machineStore.ts:113-118 | the new record carries the generated id, both clock readings and every supplied field |
| `MachineStore.AddKeepsUniqueIds` | project/src/store/machineStore.ts:113-122 | appending a record with a fresh id to a list with unique ids keeps ids unique |
| `MachineStore.Store.constructor` | project/src/store/machineStore.ts:59-63 | initial state: the sample list, not loading, no error, the sample company selected |
| `MachineStore.Store.FetchMachines` | project/src/store/machineStore.ts:65-84 | whatever the list held, it becomes the sample list; the argument becomes the selected company; loading ends false and the error is cleared; ids are unique afterwards |
| `MachineStore.Store.UpdateMachine` | project/src/store/machineStore.ts:86-93 | the list becomes the merge-by-id of the old list; ids unchanged; an absent id leaves the list identical; no other field changes |
| `MachineStore.Store.AddMachine` | project/src/store/machineStore.ts:110-122 | exactly one record is appended at the end and all prior entries stay; with a fresh id, unique ids stay unique; no other field changes |
| `MachineModal.Seed` | project/src/components/MachineModal.tsx:23-35 | from a machine: name, status, progress copied and next product as text, with a null product giving ''; with no machine: '', idle, 0, '' |
| `MachineModal.Submit` | project/src/components/MachineModal.tsx:39-45 | company is always the sample company; name, status, progress pass through; next product is null exactly when the text is empty, else the text |
| `MachineModal.SeedSubmitRoundTrip` | project/src/components/MachineModal.tsx:23-45 | seeding from a machine and submitting unchanged reproduces its name, status, progress and next product, when that product is null or non-empty |
| `MachineModal.SeedSubmitEmptyProduct` | project/src/components/MachineModal.tsx:28-43 | a machine whose next product is the empty text submits back a null next product |
| `MachineModal.SeedDefaultSubmit` | project/src/components/MachineModal.tsx:29-45 | `Submit` applied to the default `Seed` gives the record ('', idle, 0, null, sample company); the browser itself refuses to submit an empty name |
| `MachineModal.SubmitSeedRoundTrip` | project/src/components/MachineModal.tsx:24-45 | any form state, submitted and seeded again from a machine carrying the record, is recovered exactly |
| `MachineStore.UpdateOne` | project/src/store/machineStore.ts:91 | the `map` callback; its effect on the list is stated by `MachineStore.UpdateAll` |
| `Dashboard.Label` | project/src/components/Dashboard.tsx:74-79 | the display label of each status; `Dashboard.ChartData` states that entry i carries the label of the i-th status in the fixed order |
| `Dashboard.Lookup` | project/src/components/Dashboard.tsx:80 | the default of the tally lookup: a status with no key reads as 0 |
| `Dashboard.Bump` | project/src/components/Dashboard.tsx:68 | one reduce step adds one to the machine's status and leaves every other status's count as it was |
| `Dashboard.TallyFrom` | project/src/components/Dashboard.tsx:67-70 | the reduce from a given accumulator; `Dashboard.TallyFromCounts` states that it adds each status's count |
| `Dashboard.Tally` | project/src/components/Dashboard.tsx:67-70 | reading the tally at any status gives the number of machines with that status, 0 when there are none |
| `Dashboard.WithStatus` | project/src/components/Dashboard.tsx:153-155 | the filter keeps exactly the machines with the given status, and no more than the list holds |
| `Dashboard.CountStatus` | project/src/components/Dashboard.tsx:153-155 | the number of machines with a status is at most the list length |
| `Dashboard.WithStatusSpec` | project/src/components/Dashboard.tsx:153-155 | the filter keeps the machines with the status in their order (a subsequence) and with their multiplicity, and drops every other machine |
| `Dashboard.NoneWithStatus` | project/src/components/Dashboard.tsx:80 | when no machine has a status its count is 0 |
| `Dashboard.EntryFor` | project/src/components/Dashboard.tsx:73-82 | one chart entry: label, tally value and positional colour; `Dashboard.ChartData` and `Dashboard.ChartValuesAreCounts` state its properties |
| `Dashboard.SummaryOf` | project/src/components/Dashboard.tsx:152-155 | the total is the list length and running + maintenance + error + the idle count add up to that total |
| `Dashboard.RemoveById` | project/src/components/Dashboard.tsx:58 | the filtered list is no longer than the input, holds only machines of the input, and none with the given id |
| `Dashboard.SavePatch` | project/src/components/Dashboard.tsx:45 | the update carries the selected machine's id and supplies no timestamp; `Dashboard.SaveEditReplacesFields` states its merge |
| `Dashboard.TallyFromCounts` | project/src/components/Dashboard.tsx:67-70 | the reduce adds to each status exactly the number of machines with that status |
| `Dashboard.StatusCountsSum` | project/src/components/Dashboard.tsx:67-80 | the four per-status counts sum to the list length |
| `Dashboard.IndexOf` | project/src/components/Dashboard.tsx:81 | -1 exactly when absent; otherwise the position of the first occurrence |
| `Dashboard.ChartData` | project/src/components/Dashboard.tsx:72-82 | exactly four entries labelled running, maintenance, idle, error in that order; the i-th entry's colour is COLORS[i], the constant `Dashboard.Colors` from Dashboard.tsx:13 |
| `Dashboard.ChartValuesAreCounts` | project/src/components/Dashboard.tsx:67-80 | each entry's value is the number of machines with its status, and it is 0 when no machine has that status |
| `Dashboard.ChartSumIsLength` | project/src/components/Dashboard.tsx:66-83 | the four chart values sum to the number of machines |
| `Dashboard.SampleChartOnePerStatus` | project/src/components/Dashboard.tsx:66-83 | the sample list charts as one machine per status |
| `Dashboard.SummaryMatchesChart` | project/src/components/Dashboard.tsx:152-155 | the total is the list length; the running, maintenance and error counters equal the matching chart values |
| `Dashboard.RemoveByIdSpec` | project/src/components/Dashboard.tsx:58 | after delete a machine remains exactly when it was there and has another id; the rest keep their relative order; the list shrinks by the number of matches |
| `Dashboard.OccurrencesUnique` | project/src/components/Dashboard.tsx:58 | in a list with unique ids a present id occurs exactly once |
| `Dashboard.RemoveAbsentIsIdentity` | project/src/components/Dashboard.tsx:58 | deleting an absent id leaves the list unchanged |
| `Dashboard.RemovePresentShrinksByOne` | project/src/components/Dashboard.tsx:58 | with unique ids, deleting a present id shrinks the list by one and removes that id |
| `Dashboard.RemoveKeepsUniqueIds` | project/src/components/Dashboard.tsx:58 | deletion keeps ids unique |
| `Dashboard.SaveEditReplacesFields` | project/src/components/Dashboard.tsx:45 | saving an edit replaces the submitted fields and keeps the id and both timestamps |
| `Dashboard.UnchangedEditIsNoOp` | project/src/components/Dashboard.tsx:44-45 | seeding the form from a listed machine and saving it unchanged as an update leaves the list identical, given unique ids, the sample company and a next product that is not the empty text |
| `Dashboard.View.constructor` | project/src/components/Dashboard.tsx:19-20 | the form starts closed with no machine selected |
| `Dashboard.View.HandleRefresh` | project/src/components/Dashboard.tsx:22-30 | the mount effect and the refresh handler: the store reloads the sample list for the sample company, with loading ended and no error |
| `Dashboard.View.HandleAddMachine` | project/src/components/Dashboard.tsx:32-35 | no machine is selected and the form is open |
| `Dashboard.View.HandleEditMachine` | project/src/components/Dashboard.tsx:37-40 | the given machine is selected and the form is open |
| `Dashboard.View.HandleSaveMachine` | project/src/components/Dashboard.tsx:42-54 | with a selected machine, the store is updated with the submitted fields under that machine's id; with none, the record is appended |
| `Dashboard.View.HandleDeleteMachine` | project/src/components/Dashboard.tsx:56-64 | the store's list becomes the filtered list; unique ids stay unique; an absent id leaves it unchanged |
| `Dashboard.View.SubmitForm` | project/src/components/MachineModal.tsx:37-47 | the built record is saved through the dispatch, then the form is closed |

## Left out

- All rendering: the cards, the charts, the form markup and the loading screen. `MachineCard.tsx` and `App.tsx` are not part of this model.
- The chart-type switch (`chartType`). The chart data does not depend on it, since `ChartData` takes only the machine list.
- Toast notifications. They are user-interface side effects with no effect on state.
- The refresh indicator flag and its one-second timer. `Dashboard.View.HandleRefresh` models only the reload it triggers.
- The commented-out remote-database calls and the database client. They are dead code calling a foreign client.
- Promise and async behaviour, and the state library's `create`/`set` mechanics. Each operation is modelled as one synchronous method.
- The store's `catch` branches that set `error`. They are unreachable on the local path.
- Random id generation and clock reads. Their results are parameters.
- `Number(...)` parsing of the progress input and the input's HTML `min`/`max`. These involve floating point and NaN, and the range is not enforced in code, so progress is an unconstrained `int`.
- The HTML `required` attribute on the name input (MachineModal.tsx:75). The browser enforces it, not the code, so `MachineModal.Submit` accepts any name, the empty one included.
- MachineModal.Seed: the model seeds the form on every opening, but the source's effect runs only when the `machine` prop changes identity (MachineModal.tsx:35), and the modal stays mounted while closed. So adding twice in a row, or reopening the same machine after a cancelled edit, shows the previous form contents rather than a fresh seed. The form state left over between openings is not modelled.
- Patch keys that are present but hold `undefined`. In JavaScript these would overwrite a field with `undefined`; a `MachinePatch` field is either absent or holds a value.
- Dashboard.View.HandleDeleteMachine: models the captured list as the current store list (see above), so a delete issued from a stale render is not modelled.
- The `Company` record. No operation uses it.
