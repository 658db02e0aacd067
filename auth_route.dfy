/** The credential store and the `/api/auth` route: one POST handler that
    either signs a user up or logs one in, chosen by the request's `action`. */
module AuthRoute {
  import opened Common
  import opened Seqs

  /** A bcrypt digest. The model keeps the salted input inside an opaque
      constructor so that `Verify` can be stated; no other member reads it,
      and a digest is never a plain string, so a stored password can never
      be the plaintext. */
  datatype PasswordHash = Bcrypt(salt: nat, input: string)

  /** `bcrypt.hash(password, 10)` with the random salt as a parameter. */
  function Hash(password: string, salt: nat): PasswordHash {
    Bcrypt(salt, password)
  }

  /** `bcrypt.compare(password, hash)`. */
  predicate Verify(password: string, hash: PasswordHash) {
    hash.input == password
  }

  /** A hash accepts the password it was made from and no other, whatever
      the salt. */
  lemma VerifyHash(password: string, attempt: string, salt: nat)
    ensures Verify(attempt, Hash(password, salt)) <==> attempt == password
  {
  }

  /** A document of the `users` collection. */
  datatype User = User(
    id: Id,
    email: string,
    username: string,
    name: string,
    password: PasswordHash,
    phone: Option<string>,
    address: Option<string>,
    role: string,
    createdAt: int)

  /** The JSON body of a POST to `/api/auth`; fields a client may leave out
      are optional. */
  datatype AuthRequest = AuthRequest(
    action: string,
    email: string,
    password: string,
    username: string,
    name: Option<string>,
    phone: Option<string>,
    address: Option<string>,
    role: Option<string>,
    secretKey: Option<string>)

  datatype SignupReply = SignupReply(userId: Id, email: string, username: string, name: string, role: string)

  datatype LoginReply = LoginReply(
    userId: Id,
    email: string,
    username: string,
    name: string,
    role: string,
    phone: Option<string>,
    address: Option<string>)

  datatype AuthReply = SignedUp(signup: SignupReply) | LoggedIn(login: LoginReply)

  /** `process.env.ADMIN_SECRET_KEY || "admin123"`. */
  function AdminSecret(env: Option<string>): (key: string)
    ensures key != ""
    ensures !Truthy(env) ==> key == "admin123"
    ensures Truthy(env) ==> key == env.value
  {
    OrElse(env, "admin123")
  }

  /** The admin gate of signup: asking for role "admin" without the
      configured secret. */
  predicate AdminGateFails(req: AuthRequest, env: Option<string>) {
    req.role == Some("admin") && req.secretKey != Some(AdminSecret(env))
  }

  /** The `findOne` filter `{ $or: [{ email }, { username }] }` of signup. */
  function SameEmailOrUsername(email: string, username: string): User -> bool {
    (u: User) => u.email == email || u.username == username
  }

  /** The `findOne` filter `{ $or: [{ email: key }, { username: key }] }` of
      login, which tries the one identifier against both fields. */
  function Identifies(key: string): User -> bool {
    (u: User) => u.email == key || u.username == key
  }

  ghost predicate EmailsUnique(users: seq<User>) {
    forall i, j :: 0 <= i < j < |users| ==> users[i].email != users[j].email
  }

  ghost predicate UsernamesUnique(users: seq<User>) {
    forall i, j :: 0 <= i < j < |users| ==> users[i].username != users[j].username
  }

  /** What a successful login returns for a stored user. */
  function LoginReplyOf(u: User): (r: LoginReply)
    ensures r.userId == u.id && r.email == u.email && r.username == u.username
    ensures r.role != "" && (u.role != "" ==> r.role == u.role)
  {
    LoginReply(u.id, u.email, u.username, u.name, OrElse(Some(u.role), "user"), u.phone, u.address)
  }

  /** The `users` collection. Nothing in the routes enforces uniqueness at
      the store level; `Valid` only says that ids are fresh. */
  class UserStore {
    var users: seq<User>
    var nextId: Id
    const adminSecretEnv: Option<string>

    ghost predicate Valid()
      reads this
    {
      (forall i :: 0 <= i < |users| ==> users[i].id < nextId) &&
      (forall i, j :: 0 <= i < j < |users| ==> users[i].id != users[j].id)
    }

    constructor (env: Option<string>)
      ensures Valid() && users == [] && adminSecretEnv == env
    {
      users := [];
      nextId := 0;
      adminSecretEnv := env;
    }

    /** `usersCollection.insertOne(doc)`: appends the document under a
        fresh id. */
    method InsertOne(email: string, username: string, name: string, password: PasswordHash,
                     phone: Option<string>, address: Option<string>, role: string, createdAt: int)
      returns (id: Id)
      requires Valid()
      modifies this
      ensures Valid()
      ensures id == old(nextId)
      ensures users == old(users) + [User(id, email, username, name, password, phone, address, role, createdAt)]
    {
      id := nextId;
      users := users + [User(id, email, username, name, password, phone, address, role, createdAt)];
      nextId := nextId + 1;
    }

    /** The signup branch: the admin-secret gate, then the duplicate check,
        then one insert with the password hashed and `name` and `role`
        defaulted. */
    method Signup(req: AuthRequest, salt: nat, now: int) returns (resp: Response<SignupReply>)
      requires Valid()
      modifies this
      ensures Valid()
      ensures AdminGateFails(req, adminSecretEnv) ==>
                resp == Fail(400, "Invalid admin secret key") && users == old(users)
      ensures !AdminGateFails(req, adminSecretEnv) && FindFirst(old(users), SameEmailOrUsername(req.email, req.username)).Some? ==>
                resp == Fail(400, "User or username already exists") && users == old(users)
      ensures resp.Ok? <==> !AdminGateFails(req, adminSecretEnv) && FindFirst(old(users), SameEmailOrUsername(req.email, req.username)).None?
      ensures resp.Ok? ==>
                var name := OrElse(req.name, req.username);
                var role := OrElse(req.role, "user");
                && users == old(users) + [User(old(nextId), req.email, req.username, name, Hash(req.password, salt),
                                               req.phone, req.address, role, now)]
                && resp.body == SignupReply(old(nextId), req.email, req.username, name, role)
      ensures resp.Ok? ==> Verify(req.password, users[|users| - 1].password)
      ensures old(EmailsUnique(users)) ==> EmailsUnique(users)
      ensures old(UsernamesUnique(users)) ==> UsernamesUnique(users)
    {
      if req.role == Some("admin") {
        var key := AdminSecret(adminSecretEnv);
        if req.secretKey != Some(key) {
          return Fail(400, "Invalid admin secret key");
        }
      }
      var existing := FindFirst(users, SameEmailOrUsername(req.email, req.username));
      if existing.Some? {
        return Fail(400, "User or username already exists");
      }
      var hashed := Hash(req.password, salt);
      var name := OrElse(req.name, req.username);
      var role := OrElse(req.role, "user");
      var id := InsertOne(req.email, req.username, name, hashed, req.phone, req.address, role, now);
      resp := Ok(SignupReply(id, req.email, req.username, name, role));
    }

    /** The login branch: a read-only lookup of the first user whose email or
        username is the identifier, then a password check. Both failures give
        the same 401 reply. */
    method Login(identifier: string, password: string) returns (resp: Response<LoginReply>)
      ensures resp.Fail? ==> resp == Fail(401, "Invalid credentials")
      ensures resp.Ok? <==> exists i :: FirstMatch(users, Identifies(identifier), i) && Verify(password, users[i].password)
      ensures resp.Ok? ==> exists i :: FirstMatch(users, Identifies(identifier), i)
                                        && Verify(password, users[i].password) && resp.body == LoginReplyOf(users[i])
    {
      var found := FindFirst(users, Identifies(identifier));
      if found.None? {
        return Fail(401, "Invalid credentials");
      }
      var user := users[found.value];
      if !Verify(password, user.password) {
        return Fail(401, "Invalid credentials");
      }
      resp := Ok(LoginReplyOf(user));
    }

    /** `POST /api/auth`, dispatching on `action`. */
    method Post(req: AuthRequest, salt: nat, now: int) returns (resp: Response<AuthReply>)
      requires Valid()
      modifies this
      ensures Valid()
      ensures req.action != "signup" && req.action != "login" ==> resp == Fail(400, "Invalid action")
      ensures req.action != "signup" ==> users == old(users)
      ensures req.action == "signup" ==>
                (resp.Ok? <==> !AdminGateFails(req, adminSecretEnv) && FindFirst(old(users), SameEmailOrUsername(req.email, req.username)).None?)
      ensures req.action == "signup" && AdminGateFails(req, adminSecretEnv) ==> resp == Fail(400, "Invalid admin secret key")
      ensures req.action == "signup" && !AdminGateFails(req, adminSecretEnv) &&
              FindFirst(old(users), SameEmailOrUsername(req.email, req.username)).Some? ==>
                resp == Fail(400, "User or username already exists")
      ensures req.action == "signup" && resp.Ok? ==>
                var name := OrElse(req.name, req.username);
                var role := OrElse(req.role, "user");
                && users == old(users) + [User(old(nextId), req.email, req.username, name, Hash(req.password, salt),
                                               req.phone, req.address, role, now)]
                && resp.body == SignedUp(SignupReply(old(nextId), req.email, req.username, name, role))
      ensures req.action == "login" ==>
                (resp.Ok? <==> exists i :: FirstMatch(old(users), Identifies(req.email), i) && Verify(req.password, old(users)[i].password))
      ensures req.action == "login" && resp.Ok? ==>
                exists i :: FirstMatch(old(users), Identifies(req.email), i) && resp.body == LoggedIn(LoginReplyOf(old(users)[i]))
      ensures req.action == "login" && resp.Fail? ==> resp == Fail(401, "Invalid credentials")
      ensures resp.Fail? ==> users == old(users)
      ensures old(EmailsUnique(users)) ==> EmailsUnique(users)
    {
      if req.action == "signup" {
        var r := Signup(req, salt, now);
        match r {
          case Ok(body) => resp := Ok(SignedUp(body));
          case Fail(code, error) => resp := Fail(code, error);
        }
        return;
      }
      if req.action == "login" {
        var r := Login(req.email, req.password);
        match r {
          case Ok(body) => resp := Ok(LoggedIn(body));
          case Fail(code, error) => resp := Fail(code, error);
        }
        return;
      }
      resp := Fail(400, "Invalid action");
    }
  }
}
