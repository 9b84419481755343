/** Shapes shared by the Express controllers: query outcomes and the session user. */
module Backend {
  import opened Wrappers

  newtype byte = x: int | 0 <= x < 256

  /** The outcome of one awaited query: its rows, or the error it was rejected with. */
  datatype Query<T> = Rows(rows: T) | DbError(message: string)

  /**
   * `req.session.user` as `login` stores it: the user row's id, username,
   * email and type (the last three may be NULL in the row).
   */
  datatype SessionUser = SessionUser(id: int, name: Option<string>, email: Option<string>, userType: Option<string>)

  /** JavaScript truthiness of an optional string: present and non-empty. */
  predicate Truthy(v: Option<string>) {
    v.Some? && v.value != ""
  }
}
