/** The client-side routes that the handlers navigate to. */
module Routes {
  /** The user list: where a login or a saved edit ends up. */
  const UsersRoute := "/users"
  /** The entry route, where `logout` goes. */
  const EntryRoute := "/"
}
