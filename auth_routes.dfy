/**
 * `POST /login` of the auth routes: the user found by e-mail (an input here) is
 * accepted when it has no stored password or the supplied one equals it; with no
 * such user only the built-in administrator credentials are accepted.
 */
module AuthRoutes {
  import opened Wrappers

  /** A stored user as the login handler sees it; the reply returns the whole document. */
  datatype DbUser = DbUser(id: string, name: string, email: string, password: Option<string>, role: string, walletBalance: real)

  /** The user object of the built-in administrator reply. */
  datatype AdminUser = AdminUser(id: string, name: string, email: string, role: string, walletBalance: real)

  /** 200 with the stored user, 200 with the built-in administrator, or 401. */
  datatype LoginReply = LoggedIn(user: DbUser) | FallbackAdmin(admin: AdminUser) | Unauthorized

  const AdminEmail: string := "admin@dailypay.np"
  const AdminPassword: string := "admin123"
  const BuiltInAdmin: AdminUser := AdminUser("admin-001", "System Admin", AdminEmail, "admin", 0.0)

  /** JavaScript truthiness of the stored password: present and not empty. */
  predicate HasPassword(u: DbUser)
  {
    u.password.Some? && u.password.value != ""
  }

  /** The decision: `found` is the result of looking the e-mail up. */
  function Login(found: Option<DbUser>, email: Option<string>, password: Option<string>): (r: LoginReply)
    ensures r.LoggedIn? ==> found == Some(r.user)
    ensures r.FallbackAdmin? ==> found.None? && r.admin == BuiltInAdmin
  {
    match found
    case None =>
      if email == Some(AdminEmail) && password == Some(AdminPassword) then FallbackAdmin(BuiltInAdmin)
      else Unauthorized
    case Some(u) =>
      if HasPassword(u) && u.password != password then Unauthorized
      else LoggedIn(u)
  }

  // ---------------------------------------------------------------------------
  // Properties

  /** With no stored user, exactly the built-in credentials log in, as the administrator. */
  lemma FallbackIff(email: Option<string>, password: Option<string>)
    ensures Login(None, email, password).FallbackAdmin? <==> email == Some(AdminEmail) && password == Some(AdminPassword)
    ensures Login(None, email, password) == Unauthorized <==> !(email == Some(AdminEmail) && password == Some(AdminPassword))
    ensures Login(None, email, password) != Unauthorized ==>
      Login(None, email, password).admin.id == "admin-001" && Login(None, email, password).admin.role == "admin"
  {
  }

  /** A stored user with a password logs in exactly when the supplied password equals it. */
  lemma PasswordIff(u: DbUser, email: Option<string>, password: Option<string>)
    requires HasPassword(u)
    ensures Login(Some(u), email, password) == LoggedIn(u) <==> password == u.password
    ensures Login(Some(u), email, password) == Unauthorized <==> password != u.password
  {
  }

  /** A stored user without a password, or with an empty one, logs in with any password at all. */
  lemma NoPasswordAcceptsAny(u: DbUser, email: Option<string>, password: Option<string>)
    requires !HasPassword(u)
    ensures Login(Some(u), email, password) == LoggedIn(u)
  {
  }

  /** A stored user shadows the built-in administrator, even when the built-in credentials are given. */
  lemma DatabaseTakesPrecedence(u: DbUser, password: Option<string>)
    requires HasPassword(u) && u.password != Some(AdminPassword)
    ensures Login(Some(u), Some(AdminEmail), Some(AdminPassword)) == Unauthorized
    ensures !Login(Some(u), Some(AdminEmail), password).FallbackAdmin?
  {
  }

  /** The e-mail is not compared again: the reply is determined by the lookup and the password. */
  lemma EmailIgnoredOnceFound(u: DbUser, e1: Option<string>, e2: Option<string>, password: Option<string>)
    ensures Login(Some(u), e1, password) == Login(Some(u), e2, password)
  {
  }

  /** The reply returns the stored document as it is, its plaintext password included. */
  lemma ReplyCarriesPassword(u: DbUser, email: Option<string>)
    requires u.password.Some?
    ensures Login(Some(u), email, u.password) == LoggedIn(u)
    ensures Login(Some(u), email, u.password).user.password == u.password
  {
  }
}
