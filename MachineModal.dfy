/** The create/edit form: its four fields are seeded from the machine being
    edited (or from defaults) and turned into a submitted record. */
module MachineModal {
  import opened Wrappers
  import opened Types

  /** The form's local state. The next-product input holds plain text. */
  datatype FormState = FormState(name: string, status: Status, progress: int, nextProduct: string)

  /** The seeding effect. A machine seeds every field from itself, a missing
      next product (`null`, or the falsy empty text) seeds the empty text;
      no machine seeds the defaults. */
  function Seed(machine: Option<Machine>): (f: FormState)
    ensures machine.Some? ==>
      && f.name == machine.value.name
      && f.status == machine.value.status
      && f.progress == machine.value.progress
      && f.nextProduct == machine.value.nextProduct.GetOr("")
    ensures machine.None? ==> f == FormState("", Idle, 0, "")
  {
    match machine
    case Some(m) => FormState(m.name, m.status, m.progress, m.nextProduct.GetOr(""))
    case None => FormState("", Idle, 0, "")
  }

  /** The record passed to the save callback: name, status and progress pass
      through, empty next-product text becomes null, and the company is always
      the sample company. */
  function Submit(f: FormState): (d: MachineData)
    ensures d.companyId == SampleCompany
    ensures d.name == f.name && d.status == f.status && d.progress == f.progress
    ensures d.nextProduct.None? <==> f.nextProduct == ""
    ensures d.nextProduct.Some? ==> d.nextProduct.value == f.nextProduct
  {
    MachineData(SampleCompany, f.name, f.status, f.progress,
                if f.nextProduct == "" then None else Some(f.nextProduct))
  }

  /** Seeding from a machine and submitting unchanged reproduces its name,
      status, progress and next product, unless that product is the empty text. */
  lemma SeedSubmitRoundTrip(m: Machine)
    requires m.nextProduct != Some("")
    ensures Submit(Seed(Some(m))) == MachineData(SampleCompany, m.name, m.status, m.progress, m.nextProduct)
  {
  }

  /** An empty next-product text on the machine comes back as null. */
  lemma SeedSubmitEmptyProduct(m: Machine)
    requires m.nextProduct == Some("")
    ensures Submit(Seed(Some(m))).nextProduct == None
  {
  }

  /** A form submitted without a machine produces the default record. */
  lemma SeedDefaultSubmit()
    ensures Submit(Seed(None)) == MachineData(SampleCompany, "", Idle, 0, None)
  {
  }

  /** The other direction: any form state, submitted and then seeded again
      from a machine carrying that record, is recovered exactly. */
  lemma SubmitSeedRoundTrip(f: FormState, id: string, createdAt: string, updatedAt: string)
    ensures var d := Submit(f);
      Seed(Some(Machine(id, d.companyId, d.name, d.status, d.progress, d.nextProduct, createdAt, updatedAt))) == f
  {
  }
}
