/**
 * The one stored entity, a registration, as the `registrations` table of
 * convex/schema.js declares it. Dates are integers: `dateOfBirth` is a day
 * number and `createdAt` a millisecond timestamp.
 */
module Records {
  import opened Wrappers

  datatype Registration = Registration(
    id: string,
    fullName: string,
    gender: string,
    lifeStatus: string,
    dateOfBirth: int,
    whatsappNumber: string,
    emergencyContact: string,
    emailAddress: string,
    address: Option<string>,
    parishName: string,
    paymentMethod: string,
    prayerIntention: Option<string>,
    paymentProof: Option<string>,
    comment: Option<string>,
    createdAt: int,
    // Read by one admin filter but not declared by the schema, so a stored
    // record never carries it.
    travelWithUs: Option<string>
  )

  /** The record is one the schema admits: no undeclared properties. */
  predicate SchemaConforming(r: Registration) {
    r.travelWithUs == None
  }

  /** JavaScript truthiness of an optional string: present and non-empty. */
  predicate Truthy(o: Option<string>) {
    o.Some? && o.value != ""
  }
}
