/** Accounts: registration (app/api/auth/register/route.ts) and login
    (app/api/auth/login/route.ts). Password hashing, hash verification and
    token signing are library calls and enter as function parameters. */
module Auth {
  import opened Common
  import opened Tables

  datatype User = User(name: string, email: string, password: string, role: string)

  datatype RegisterRequest = RegisterRequest(
    name: Option<string>, email: Option<string>, password: Option<string>, role: Option<string>)

  /** The columns `select`ed for the reply: everything but the password. */
  datatype PublicUser = PublicUser(id: int, name: string, email: string, role: string, createdAt: int)

  datatype Registered = Registered(message: string, user: PublicUser)

  const FILL_REQUIRED := "Veuillez remplir tous les champs obligatoires."
  const EMAIL_TAKEN := "Un utilisateur avec cet email existe déjà."
  const ACCOUNT_CREATED := "✅ Compte créé avec succès !"
  const DEFAULT_ROLE := "EMPLOYEE"

  /** `toUpperCase` on ASCII letters; other characters are left as they are. */
  function UpperChar(c: char): char {
    if 'a' <= c <= 'z' then (c as int - 32) as char else c
  }

  function ToUpper(s: string): (r: string)
    ensures |r| == |s|
    ensures forall i :: 0 <= i < |s| ==> r[i] == UpperChar(s[i])
  {
    if |s| == 0 then "" else [UpperChar(s[0])] + ToUpper(s[1..])
  }

  /** The stored role: the requested one upper-cased, or EMPLOYEE when it
      is absent or empty. */
  function NormalizeRole(role: Option<string>): (r: string)
    ensures Given(role) ==> r == ToUpper(role.value)
    ensures !Given(role) ==> r == DEFAULT_ROLE
    ensures r != ""
  {
    match role
    case None => DEFAULT_ROLE
    case Some(s) => var up := ToUpper(s); if up == "" then DEFAULT_ROLE else up
  }

  function WithEmail(email: string): Row<User> -> bool {
    (row: Row<User>) => row.data.email == email
  }

  /** The account registered under `email`, if any (emails are unique). */
  function FindEmail(t: Table<User>, email: string): (r: Option<nat>)
    ensures r.Some? ==> r.value < |t.rows| && t.rows[r.value].data.email == email
    ensures r.None? <==> forall j :: 0 <= j < |t.rows| ==> t.rows[j].data.email != email
  {
    var r := FirstIndex(t.rows, WithEmail(email));
    assert r.Some? ==> WithEmail(email)(t.rows[r.value]);
    assert r.None? ==> forall j :: 0 <= j < |t.rows| ==> !WithEmail(email)(t.rows[j]);
    r
  }

  ghost predicate EmailsUnique(t: Table<User>) {
    forall i, j :: 0 <= i < j < |t.rows| ==> t.rows[i].data.email != t.rows[j].data.email
  }

  predicate RegisterValid(req: RegisterRequest) {
    Given(req.name) && Given(req.email) && Given(req.password)
  }

  /** POST /api/auth/register. */
  function Register(t: Table<User>, req: RegisterRequest, hash: string -> string, now: int): (r: Outcome<Table<User>, Registered>)
    ensures !RegisterValid(req) ==> r == Outcome(t, Fail(400, Text(FILL_REQUIRED)))
    ensures RegisterValid(req) && FindEmail(t, req.email.value).Some? ==>
      r == Outcome(t, Fail(400, Text(EMAIL_TAKEN)))
    ensures RegisterValid(req) && FindEmail(t, req.email.value).None? ==>
      && r.reply.Ok? && r.reply.status == 201
      && r.store.rows == t.rows + [Row(t.nextId, now,
           User(req.name.value, req.email.value, hash(req.password.value), NormalizeRole(req.role)))]
      && r.store.nextId == t.nextId + 1
      && r.reply.value == Registered(ACCOUNT_CREATED,
           PublicUser(t.nextId, req.name.value, req.email.value, NormalizeRole(req.role), now))
  {
    if !RegisterValid(req) then Outcome(t, Fail(400, Text(FILL_REQUIRED)))
    else if FindEmail(t, req.email.value).Some? then Outcome(t, Fail(400, Text(EMAIL_TAKEN)))
    else
      var user := User(req.name.value, req.email.value, hash(req.password.value), NormalizeRole(req.role));
      var t' := Insert(t, now, user);
      var row := Last(t');
      Outcome(t', Ok(201, Registered(ACCOUNT_CREATED, PublicUser(row.id, user.name, user.email, user.role, row.createdAt))))
  }

  /** Registration never lets two accounts share an email. */
  lemma RegisterKeepsEmailsUnique(t: Table<User>, req: RegisterRequest, hash: string -> string, now: int)
    requires EmailsUnique(t)
    ensures EmailsUnique(Register(t, req, hash, now).store)
  {
  }

  // ---------------------------------------------------------------------
  // Login

  /** A `None` field is absent from the JSON body (`undefined`). */
  datatype LoginRequest = LoginRequest(email: Option<string>, password: Option<string>)

  /** The signed token payload. */
  datatype Claims = Claims(id: int, role: string)

  datatype Cookie = Cookie(
    name: string, value: string, httpOnly: bool, secure: bool, sameSite: string, path: string, maxAge: int)

  datatype SessionUser = SessionUser(id: int, name: string, email: string, role: string)

  datatype LoggedIn = LoggedIn(message: string, user: SessionUser, cookie: Cookie)

  /** `process.env.JWT_SECRET` and whether `NODE_ENV` is "production". */
  datatype Env = Env(jwtSecret: Option<string>, production: bool)

  const USER_NOT_FOUND := "Utilisateur introuvable"
  const WRONG_PASSWORD := "Mot de passe incorrect"
  const SERVER_ERROR := "Erreur serveur"
  const LOGIN_OK := "Connexion réussie"
  const DEFAULT_SECRET := "secret123"
  const TOKEN_LIFETIME := "7d"
  const COOKIE_NAME := "token"
  const COOKIE_MAX_AGE := 60 * 60 * 24 * 7

  /** POST /api/auth/login. `verify` is `bcrypt.compare`, `sign(claims,
      secret, expiresIn)` is `jwt.sign`. An absent email makes `findUnique`
      throw, and an absent password makes `compare` throw: both are 500.
      The registry is only read. */
  function Login(users: Table<User>, req: LoginRequest, verify: (string, string) -> bool,
                 sign: (Claims, string, string) -> string, env: Env): (r: Reply<LoggedIn>)
    ensures req.email.None? ==> r == Fail(500, Text(SERVER_ERROR))
    ensures req.email.Some? && FindEmail(users, req.email.value).None? ==> r == Fail(404, Text(USER_NOT_FOUND))
    ensures req.email.Some? && FindEmail(users, req.email.value).Some? ==>
      var u := users.rows[FindEmail(users, req.email.value).value];
      && (req.password.None? ==> r == Fail(500, Text(SERVER_ERROR)))
      && (req.password.Some? && !verify(req.password.value, u.data.password) ==> r == Fail(401, Text(WRONG_PASSWORD)))
      && (req.password.Some? && verify(req.password.value, u.data.password) ==>
            && r.Ok? && r.status == 200 && r.value.message == LOGIN_OK
            && r.value.user == SessionUser(u.id, u.data.name, u.data.email, u.data.role)
            && r.value.cookie == Cookie(COOKIE_NAME,
                 sign(Claims(u.id, u.data.role), OrElse(env.jwtSecret, DEFAULT_SECRET), TOKEN_LIFETIME),
                 true, env.production, "strict", "/", 604800))
  {
    match req.email
    case None => Fail(500, Text(SERVER_ERROR))
    case Some(email) =>
      match FindEmail(users, email)
      case None => Fail(404, Text(USER_NOT_FOUND))
      case Some(i) =>
        var u := users.rows[i];
        match req.password
        case None => Fail(500, Text(SERVER_ERROR))
        case Some(pw) =>
          if !verify(pw, u.data.password) then Fail(401, Text(WRONG_PASSWORD))
          else
            var secret := OrElse(env.jwtSecret, DEFAULT_SECRET);
            var token := sign(Claims(u.id, u.data.role), secret, TOKEN_LIFETIME);
            var cookie := Cookie(COOKIE_NAME, token, true, env.production, "strict", "/", COOKIE_MAX_AGE);
            Ok(200, LoggedIn(LOGIN_OK, SessionUser(u.id, u.data.name, u.data.email, u.data.role), cookie))
  }

  /** With a hash that its verifier accepts, a freshly registered account can
      log in at once, as itself, with the role it was given. */
  lemma RegisterThenLogin(t: Table<User>, req: RegisterRequest, hash: string -> string, now: int,
                          verify: (string, string) -> bool, sign: (Claims, string, string) -> string, env: Env)
    requires RegisterValid(req) && FindEmail(t, req.email.value).None?
    requires verify(req.password.value, hash(req.password.value))
    ensures
      var o := Register(t, req, hash, now);
      var l := Login(o.store, LoginRequest(req.email, req.password), verify, sign, env);
      && l.Ok?
      && l.value.user == SessionUser(t.nextId, req.name.value, req.email.value, NormalizeRole(req.role))
  {
    var t' := Register(t, req, hash, now).store;
    assert forall j :: 0 <= j < |t.rows| ==> t'.rows[j].data.email != req.email.value;
    assert FindEmail(t', req.email.value) == Some(|t.rows|);
  }
}
