/** The signed-in user as the authentication hook exposes it. */
module Session {
  import opened Outcomes

  /** A Supabase user: its identity and, when it has one, its e-mail address. */
  datatype User = User(id: string, email: Option<string>)
}
