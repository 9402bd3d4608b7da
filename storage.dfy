/**
 * The browser's `localStorage` as the front end uses it: one entry holding the session's user
 * record (key `wastewise_user`) and one holding the last contribution
 * (key `wastewise_last_contribution`). Both are JSON text; a slot that holds text
 * `JSON.parse` rejects is `Unreadable`; an empty text, or one that parses to a falsy value, is
 * `HoldsFalsy`.
 */
module Storage {
  import opened Common

  /**
   * The stored user record. `loginTime` is set by login, `registeredTime` by registration;
   * `points` may be missing from a stored record, which readers treat as 0.
   */
  datatype User = User(
    id: string,
    email: string,
    name: string,
    loginTime: Option<string>,
    registeredTime: Option<string>,
    points: Option<real>,
    lastPointsUpdate: Option<string>,
    lastPointsSource: Option<string>)

  /** `user.points || 0`. */
  function PointsOf(u: User): real
  {
    if u.points.Some? then u.points.value else 0.0
  }

  /**
   * The record written after a successful payment (its JSON key for the waste type is
   * `type`); `co2` is kept exact.
   */
  datatype Contribution = Contribution(
    wasteType: string,
    weight: real,
    points: real,
    co2: real,
    timestamp: string,
    location: string)

  /** The two entries of `localStorage` that the pages read and write. */
  class LocalStorage {
    var user: Slot<User>
    var lastContribution: Slot<Contribution>

    constructor (user: Slot<User>, lastContribution: Slot<Contribution>)
      ensures this.user == user && this.lastContribution == lastContribution
    {
      this.user := user;
      this.lastContribution := lastContribution;
    }
  }
}
