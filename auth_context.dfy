/** The client-side identity of the custom sign-in flow: the current `user`,
    an `isLoading` flag and the browser's local storage, where the user is
    kept as text under "planoraUser" and a marker under "planoraToken". */
module AuthContext {
  import opened Common
  import AuthRoute

  const UserKey := "planoraUser"
  const TokenKey := "planoraToken"

  /** The client's record of the signed-in user. */
  datatype ClientUser = ClientUser(
    userId: string,
    name: string,
    email: string,
    username: string,
    role: string,
    phone: Option<string>,
    address: Option<string>,
    avatar: Option<string>)

  /** The fields of a successful `/api/auth` reply, as the client reads them. */
  datatype AuthPayload = AuthPayload(
    userId: string,
    name: string,
    email: string,
    username: string,
    role: string,
    phone: Option<string>,
    address: Option<string>)

  /** What `fetch("/api/auth")` resolved to: an OK reply, or a failed one
      with the `error` field of its body. */
  datatype AuthResponse = Succeeded(payload: AuthPayload) | Rejected(error: Option<string>)

  // ---------------------------------------------------------------------
  // Text form of a stored user (JSON.stringify / JSON.parse). Each string
  // field is written with "\" and "|" escaped and ends with an unescaped
  // "|"; an optional field is "-" when absent and "+" and the field when
  // present.
  // ---------------------------------------------------------------------

  function EncodeField(s: string): (r: string)
    ensures r != [] && r[|r| - 1] == '|'
  {
    if s == [] then "|"
    else (if s[0] == '|' || s[0] == '\\' then ['\\', s[0]] else [s[0]]) + EncodeField(s[1..])
  }

  /** Reads one field; yields it and the text after its terminator, or
      `None` when the text ends first. */
  function DecodeField(s: string): Option<(string, string)>
    decreases |s|
  {
    if s == [] then None
    else if s[0] == '|' then Some(([], s[1..]))
    else if s[0] == '\\' then
      if |s| < 2 then None
      else match DecodeField(s[2..])
        case None => None
        case Some(p) => Some(([s[1]] + p.0, p.1))
    else match DecodeField(s[1..])
      case None => None
      case Some(p) => Some(([s[0]] + p.0, p.1))
  }

  function EncodeOptional(s: Option<string>): string {
    match s
    case None => "-"
    case Some(v) => "+" + EncodeField(v)
  }

  function DecodeOptional(s: string): Option<(Option<string>, string)> {
    if s == [] then None
    else if s[0] == '-' then Some((None, s[1..]))
    else if s[0] == '+' then
      match DecodeField(s[1..])
      case None => None
      case Some(p) => Some((Some(p.0), p.1))
    else None
  }

  /** `JSON.stringify(user)`. */
  function SerializeUser(u: ClientUser): (r: string)
    ensures r != []
  {
    EncodeField(u.userId) + (EncodeField(u.name) + (EncodeField(u.email) + (EncodeField(u.username) +
    (EncodeField(u.role) + (EncodeOptional(u.phone) + (EncodeOptional(u.address) + EncodeOptional(u.avatar)))))))
  }

  /** `JSON.parse(text)` of a stored user; `None` is the parse error. */
  function ParseUser(s: string): Option<ClientUser> {
    match DecodeField(s)
    case None => None
    case Some(f1) =>
    match DecodeField(f1.1)
    case None => None
    case Some(f2) =>
    match DecodeField(f2.1)
    case None => None
    case Some(f3) =>
    match DecodeField(f3.1)
    case None => None
    case Some(f4) =>
    match DecodeField(f4.1)
    case None => None
    case Some(f5) =>
    match DecodeOptional(f5.1)
    case None => None
    case Some(f6) =>
    match DecodeOptional(f6.1)
    case None => None
    case Some(f7) =>
    match DecodeOptional(f7.1)
    case None => None
    case Some(f8) =>
      if f8.1 != [] then None
      else Some(ClientUser(f1.0, f2.0, f3.0, f4.0, f5.0, f6.0, f7.0, f8.0))
  }

  lemma {:induction false} DecodeEncodeField(f: string, rest: string)
    ensures DecodeField(EncodeField(f) + rest) == Some((f, rest))
  {
    if f == [] {
      assert (EncodeField(f) + rest)[1..] == rest;
    } else {
      var head := if f[0] == '|' || f[0] == '\\' then ['\\', f[0]] else [f[0]];
      var tail := EncodeField(f[1..]) + rest;
      assert EncodeField(f) + rest == head + tail;
      DecodeEncodeField(f[1..], rest);
      assert [f[0]] + f[1..] == f;
      if f[0] == '|' || f[0] == '\\' {
        assert (head + tail)[2..] == tail;
      } else {
        assert (head + tail)[1..] == tail;
      }
    }
  }

  lemma DecodeEncodeOptional(f: Option<string>, rest: string)
    ensures DecodeOptional(EncodeOptional(f) + rest) == Some((f, rest))
  {
    match f
    case None =>
      assert ("-" + rest)[1..] == rest;
    case Some(v) =>
      var s := "+" + (EncodeField(v) + rest);
      assert EncodeOptional(f) + rest == s;
      assert s[1..] == EncodeField(v) + rest;
      DecodeEncodeField(v, rest);
  }

  /** What is stored is read back unchanged: `JSON.parse(JSON.stringify(u))`
      is `u`. */
  lemma ParseSerialize(u: ClientUser)
    ensures ParseUser(SerializeUser(u)) == Some(u)
  {
    var t8 := EncodeOptional(u.avatar);
    var t7 := EncodeOptional(u.address) + t8;
    var t6 := EncodeOptional(u.phone) + t7;
    var t5 := EncodeField(u.role) + t6;
    var t4 := EncodeField(u.username) + t5;
    var t3 := EncodeField(u.email) + t4;
    var t2 := EncodeField(u.name) + t3;
    DecodeEncodeField(u.userId, t2);
    DecodeEncodeField(u.name, t3);
    DecodeEncodeField(u.email, t4);
    DecodeEncodeField(u.username, t5);
    DecodeEncodeField(u.role, t6);
    DecodeEncodeOptional(u.phone, t7);
    DecodeEncodeOptional(u.address, t8);
    DecodeEncodeOptional(u.avatar, []);
    assert t8 + [] == t8;
  }

  // ---------------------------------------------------------------------
  // Storage states
  // ---------------------------------------------------------------------

  /** `localStorage.getItem(key)`. */
  function GetItem(storage: map<string, string>, key: string): (r: Option<string>)
    ensures r.Some? <==> key in storage
    ensures r.Some? ==> r.value == storage[key]
  {
    if key in storage then Some(storage[key]) else None
  }

  /** What the mount effect finds: no saved session, a user it can restore,
      or a saved user it cannot parse. */
  datatype Restore = NoSession | Restored(user: ClientUser) | Corrupt

  /** The mount effect's decision: both keys must hold non-empty text. */
  function RestoreFrom(storage: map<string, string>): (r: Restore)
    ensures r != NoSession <==> Truthy(GetItem(storage, UserKey)) && Truthy(GetItem(storage, TokenKey))
    ensures r.Restored? ==> ParseUser(storage[UserKey]) == Some(r.user)
    ensures r == Corrupt ==> ParseUser(storage[UserKey]).None?
  {
    var savedUser := GetItem(storage, UserKey);
    var savedToken := GetItem(storage, TokenKey);
    if !(Truthy(savedUser) && Truthy(savedToken)) then NoSession
    else match ParseUser(savedUser.value)
      case Some(u) => Restored(u)
      case None => Corrupt
  }

  /** Storage after a successful signup or login. */
  function SignedIn(storage: map<string, string>, u: ClientUser): map<string, string> {
    storage[UserKey := SerializeUser(u)][TokenKey := "token_" + u.userId]
  }

  /** Storage after logout or after a corrupt saved user: both keys gone. */
  function SignedOut(storage: map<string, string>): map<string, string> {
    storage - {UserKey, TokenKey}
  }

  /** A reload after signing in restores the same user. */
  lemma ReloadAfterSignIn(storage: map<string, string>, u: ClientUser)
    ensures RestoreFrom(SignedIn(storage, u)) == Restored(u)
  {
    var s := SignedIn(storage, u);
    assert UserKey != TokenKey;
    assert s[UserKey] == SerializeUser(u);
    assert s[TokenKey] != "";
    ParseSerialize(u);
  }

  /** A reload after signing out, or after a corrupt entry was cleared,
      finds no session, and signing out twice is signing out once. */
  lemma ReloadAfterSignOut(storage: map<string, string>)
    ensures RestoreFrom(SignedOut(storage)) == NoSession
    ensures SignedOut(SignedOut(storage)) == SignedOut(storage)
  {
  }

  /** The user built from a signup reply: phone and address come from the
      signup form, the avatar from the email the form sent. */
  function SignupUser(p: AuthPayload, email: string, phone: string, address: string): (u: ClientUser)
    ensures u.userId == p.userId && u.email == p.email && u.role == p.role
    ensures u.phone == Some(phone) && u.address == Some(address)
    ensures u.avatar == Some("https://avatar.vercel.sh/" + email)
  {
    ClientUser(p.userId, p.name, p.email, p.username, p.role, Some(phone), Some(address),
               Some("https://avatar.vercel.sh/" + email))
  }

  /** The user built from a login reply: everything comes from the reply. */
  function LoginUser(p: AuthPayload): (u: ClientUser)
    ensures u.userId == p.userId && u.email == p.email && u.role == p.role
    ensures u.phone == p.phone && u.address == p.address
    ensures u.avatar == Some("https://avatar.vercel.sh/" + p.email)
  {
    ClientUser(p.userId, p.name, p.email, p.username, p.role, p.phone, p.address,
               Some("https://avatar.vercel.sh/" + p.email))
  }

  /** The JSON body `signup` posts to `/api/auth`: every argument as given,
      with `secretKey` left out when it is undefined. */
  function SignupBody(email: string, password: string, username: string, name: string, phone: string,
                      address: string, role: string, secretKey: Option<string>): (req: AuthRoute.AuthRequest)
    ensures req.action == "signup" && req.email == email && req.password == password && req.username == username
    ensures req.name == Some(name) && req.phone == Some(phone) && req.address == Some(address)
    ensures req.role == Some(role) && req.secretKey == secretKey
  {
    AuthRoute.AuthRequest("signup", email, password, username, Some(name), Some(phone), Some(address),
                          Some(role), secretKey)
  }

  /** The JSON body `login` posts: the one identifier travels as `email`, and
      no other field is sent (the route reads no `username` on login). */
  function LoginBody(emailOrUsername: string, password: string): (req: AuthRoute.AuthRequest)
    ensures req.action == "login" && req.email == emailOrUsername && req.password == password
    ensures req.name.None? && req.phone.None? && req.address.None? && req.role.None? && req.secretKey.None?
  {
    AuthRoute.AuthRequest("login", emailOrUsername, password, "", None, None, None, None, None)
  }

  /** The `AuthProvider` component's state. `signup` and `login` are async:
      each is modelled as `StartRequest` (what runs before the `fetch` is
      awaited) followed by its `Finish` method (what runs once the response
      is in). */
  class AuthProvider {
    var user: Option<ClientUser>
    var isLoading: bool
    var storage: map<string, string>

    /** First render: no user yet, loading, with whatever the browser has
        stored. */
    constructor (saved: map<string, string>)
      ensures user == None && isLoading && storage == saved
    {
      user := None;
      isLoading := true;
      storage := saved;
    }

    /** The mount effect: restore a saved user, or clear a saved user that
        does not parse; loading is over either way. */
    method Mount()
      modifies this
      ensures !isLoading
      ensures RestoreFrom(old(storage)) == NoSession ==> user == old(user) && storage == old(storage)
      ensures RestoreFrom(old(storage)).Restored? ==>
                user == Some(RestoreFrom(old(storage)).user) && storage == old(storage)
      ensures RestoreFrom(old(storage)) == Corrupt ==> user == old(user) && storage == SignedOut(old(storage))
    {
      var savedUser := GetItem(storage, UserKey);
      var savedToken := GetItem(storage, TokenKey);
      if Truthy(savedUser) && Truthy(savedToken) {
        var parsed := ParseUser(savedUser.value);
        if parsed.Some? {
          user := parsed;
        } else {
          storage := storage - {UserKey};
          storage := storage - {TokenKey};
        }
      }
      isLoading := false;
    }

    /** The synchronous start of `signup` and `login`. */
    method StartRequest()
      modifies this
      ensures isLoading
      ensures user == old(user) && storage == old(storage)
    {
      isLoading := true;
    }

    /** The rest of `signup` once the response is in. A failed response is
        thrown as an error (its message, or "Signup failed") and changes
        neither the user nor storage; loading ends in both cases. */
    method FinishSignup(email: string, phone: string, address: string, response: AuthResponse)
      returns (thrown: Option<string>)
      modifies this
      ensures !isLoading
      ensures response.Rejected? ==>
                thrown == Some(OrElse(response.error, "Signup failed")) &&
                user == old(user) && storage == old(storage)
      ensures response.Succeeded? ==>
                var u := SignupUser(response.payload, email, phone, address);
                thrown == None && user == Some(u) && storage == SignedIn(old(storage), u)
    {
      if response.Rejected? {
        thrown := Some(OrElse(response.error, "Signup failed"));
      } else {
        var u := SignupUser(response.payload, email, phone, address);
        user := Some(u);
        storage := storage[UserKey := SerializeUser(u)];
        storage := storage[TokenKey := "token_" + response.payload.userId];
        thrown := None;
      }
      isLoading := false;
    }

    /** The rest of `login` once the response is in; as `FinishSignup`, with
        the fallback message "Login failed". */
    method FinishLogin(response: AuthResponse) returns (thrown: Option<string>)
      modifies this
      ensures !isLoading
      ensures response.Rejected? ==>
                thrown == Some(OrElse(response.error, "Login failed")) &&
                user == old(user) && storage == old(storage)
      ensures response.Succeeded? ==>
                var u := LoginUser(response.payload);
                thrown == None && user == Some(u) && storage == SignedIn(old(storage), u)
    {
      if response.Rejected? {
        thrown := Some(OrElse(response.error, "Login failed"));
      } else {
        var u := LoginUser(response.payload);
        user := Some(u);
        storage := storage[UserKey := SerializeUser(u)];
        storage := storage[TokenKey := "token_" + response.payload.userId];
        thrown := None;
      }
      isLoading := false;
    }

    /** `logout`: no user, both keys removed, everything else kept. */
    method Logout()
      modifies this
      ensures user == None && storage == SignedOut(old(storage)) && isLoading == old(isLoading)
    {
      user := None;
      storage := storage - {UserKey};
      storage := storage - {TokenKey};
    }
  }
}
