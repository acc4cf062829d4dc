/**
 * The plain records the handlers and data-access objects pass around
 * (`app.models`): identifiers, timestamps, organizations, users, sessions and
 * the geography rows. They have public fields and no behaviour.
 */
module Records {
  import opened Wrappers

  /** A 128-bit UUID, as its numeric value. */
  type Uuid = n: nat | n < 0x1_0000_0000_0000_0000_0000_0000_0000_0000

  /**
   * A `created` timestamp. Only its text form (PostgreSQL's `to_char(...)`,
   * used by the search filter) matters to the model, so it is kept opaque.
   */
  datatype Timestamp = Timestamp(text: string)

  datatype Organization = Organization(
    id: Uuid,
    name: string,
    description: string,
    active: bool,
    created: Timestamp)

  datatype Name = Name(first: string, last: string)

  datatype PostalAddress = PostalAddress(street: string, postalCode: string, city: string)

  /** `created` and `number` come from the local user-info row and are `None` without one. */
  datatype User = User(
    id: Uuid,
    name: Name,
    email: string,
    phone: string,
    postalAddress: PostalAddress,
    municipality: string,
    country: string,
    verified: bool,
    created: Option<Timestamp>,
    number: Option<int>)

  /** The local enrichment row of a user, looked up by the identity's id. */
  datatype UserInfo = UserInfo(created: Timestamp, number: int)

  datatype Session = Session(
    id: Uuid,
    hash: string,
    issuedAt: string,
    expiresAt: string,
    user: User,
    logoutUrl: string)

  datatype Country = Country(id: Uuid, name: string)

  datatype Municipality = Municipality(id: Uuid, name: string)

  /** A recruitment area; `path` is the dot-separated chain of its ancestors' ids. */
  datatype Area = Area(id: Uuid, name: string, path: string)
}
