/** The user record of the primary store and what the core does to it. */
module Users {
  import opened Wrappers
  import opened Tokens

  /** A stored user; the password is the stored hash, absent for social sign-ups. */
  datatype User = User(
    id: UserId,
    name: string,
    email: string,
    password: Option<string>,
    role: Option<string>,
    avatar: Option<string>)

  /** The role the user schema gives a new user. */
  const DefaultRole := "user"

  /** A record as `findOne` returns it without `select("+password")`. */
  function WithoutPassword(u: User): (v: User)
    ensures v.password.None?
    ensures v.id == u.id && v.name == u.name && v.email == u.email && v.role == u.role && v.avatar == u.avatar
  {
    u.(password := None)
  }
}
