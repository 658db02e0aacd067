/** The Google sign-in route: find the user by email, or create one with a
    username taken from the email and a hashed random password. Signing the
    JSON web token of the reply is not part of this model. */
module GoogleAuth {
  import opened Common
  import opened Seqs
  import opened AuthRoute

  /** `email.split("@")[0]`: everything before the first "@", or the whole
      string when it has none. */
  function LocalPart(email: string): (r: string)
    ensures |r| <= |email| && r == email[..|r|]
    ensures '@' !in r
    ensures |r| < |email| ==> email[|r|] == '@'
  {
    if email == [] || email[0] == '@' then [] else [email[0]] + LocalPart(email[1..])
  }

  /** The local part of `name@domain` is `name`. */
  lemma {:induction false} LocalPartOf(name: string, domain: string)
    requires '@' !in name
    ensures LocalPart(name + "@" + domain) == name
  {
    if name != [] {
      assert (name + "@" + domain)[1..] == name[1..] + "@" + domain;
      LocalPartOf(name[1..], domain);
    }
  }

  /** The `findOne({ email })` filter. */
  function HasEmail(email: string): User -> bool {
    (u: User) => u.email == email
  }

  /** The `user` field of the reply: the whole stored document when the user
      already existed (password digest included), or the five fields the
      route assembles for a user it has just created. */
  datatype GoogleUser =
    | Existing(user: User)
    | Created(userId: Id, email: string, name: string, username: string, role: string)

  /** `POST` of the Google route over the shared users collection.
      `generated` stands for the random password `Math.random()` produces. */
  method GoogleSignIn(store: UserStore, email: string, name: string, generated: string, salt: nat, now: int)
    returns (user: GoogleUser)
    requires store.Valid()
    modifies store
    ensures store.Valid()
    ensures FindFirst(old(store.users), HasEmail(email)).Some? ==>
              store.users == old(store.users) &&
              user == Existing(old(store.users)[FindFirst(old(store.users), HasEmail(email)).value])
    ensures FindFirst(old(store.users), HasEmail(email)).None? ==>
              store.users == old(store.users) + [User(old(store.nextId), email, LocalPart(email), name,
                                                      Hash(generated, salt), Some(""), Some(""), "user", now)] &&
              user == Created(old(store.nextId), email, name, LocalPart(email), "user")
    ensures user.Existing? ==> user.user.email == email
    ensures forall i :: 0 <= i < |store.users| ==> store.users[i].email == email ==> user.Existing? || i == |store.users| - 1
    ensures old(EmailsUnique(store.users)) ==> EmailsUnique(store.users)
  {
    var found := FindFirst(store.users, HasEmail(email));
    if found.Some? {
      return Existing(store.users[found.value]);
    }
    var hashed := Hash(generated, salt);
    var username := LocalPart(email);
    var id := store.InsertOne(email, username, name, hashed, Some(""), Some(""), "user", now);
    user := Created(id, email, name, username, "user");
  }

  /** The route looks up the email only, so a new Google user can take a
      username that a signup already holds: in any store with unique emails,
      for any stored user whose username has no "@", a Google sign-in from
      `username@domain`, an email no stored user has, inserts a second user
      with that username. */
  lemma GoogleUsernameMayCollide(users: seq<User>, k: nat, domain: string, id: Id, name: string,
                                 password: PasswordHash, now: int)
    requires k < |users| && '@' !in users[k].username
    requires forall i :: 0 <= i < |users| ==> users[i].email != users[k].username + "@" + domain
    requires EmailsUnique(users)
    ensures var email := users[k].username + "@" + domain;
            var added := User(id, email, LocalPart(email), name, password, Some(""), Some(""), "user", now);
            && FindFirst(users, HasEmail(email)).None?
            && EmailsUnique(users + [added])
            && !UsernamesUnique(users + [added])
  {
    var email := users[k].username + "@" + domain;
    LocalPartOf(users[k].username, domain);
    var added := User(id, email, LocalPart(email), name, password, Some(""), Some(""), "user", now);
    var after := users + [added];
    assert after[k] == users[k] && after[|users|] == added;
    assert after[k].username == after[|users|].username;
    forall i, j | 0 <= i < j < |after|
      ensures after[i].email != after[j].email
    {
      if j < |users| {
        assert after[i] == users[i] && after[j] == users[j];
      } else {
        assert after[i] == users[i];
      }
    }
  }
}
