/** The machine and brand records the admin API and forms exchange. */
module Machines {
  import opened Values

  /** The values the machine `status` enum admits. */
  const Statuses: seq<string> := ["active", "inactive", "maintenance", "sold"]

  /** A machine record as the API returns it and the edit form receives it.
      `status` is kept as the raw text rather than an enum, so that an empty
      one can be represented; a missing status is modelled as "", which the
      form treats the same way. The type declarations
      (types/index.ts:14) declare `status` as one of `Statuses`. */
  datatype Machine = Machine(
    id: string,
    brand_id: Field<string>,
    model_number: string,
    serial_number: string,
    license_plate: Field<string>,
    year: Field<int>,
    machine_type: Field<string>,
    engine_hours: Field<real>,
    status: string,
    description: Field<string>,
    notes: Field<string>,
    customer_id: Field<string>)

  /** A brand as the brand directory resolves it. */
  datatype Brand = Brand(id: string, name: string, code: string)

  /** Something thrown by a collaborator: whether it is an `Error` instance,
      its `message`, and the `type` tag framework errors carry. */
  datatype Thrown = Thrown(isError: bool, message: string, errorType: Option<string>)
}
