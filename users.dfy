/** The local user record (src/lib/user.ts), which the login and profile
    pages read and write. The key's text is modelled by the record it
    parses to, `None` for a missing, empty or unparsable entry. */
module Users {
  import opened Wrappers

  const Key: string := "vininote:user"

  /** `email` and `bio` may be missing; `photoUrl` may be missing or null,
      both modelled as `None`. */
  datatype UserProfile = UserProfile(
    id: string,
    name: string,
    email: Option<string>,
    bio: Option<string>,
    photoUrl: Option<string>)

  /** The stored user: `getUser()` reads `user`, `setUser(u)` replaces it. */
  class UserSlot {
    var user: Option<UserProfile>

    constructor (user: Option<UserProfile>)
      ensures this.user == user
    {
      this.user := user;
    }

    method SetUser(u: UserProfile)
      modifies this
      ensures user == Some(u)
    {
      user := Some(u);
    }
  }
}
