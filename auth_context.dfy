/**
 * The session and the user list (`context/AuthContext.tsx`): log in by
 * email and password hash, log out, register with a duplicate-email check,
 * and replace a user by id. The module-level user list the source mutates
 * in place is the field `users`; `Date.now()` is the parameter `now`.
 */
module AuthContext {
  import opened Wrappers
  import opened Types
  import Seqs
  import Text

  /** `u.email === email && u.passwordHash === password_hash` */
  function WithCredentials(email: string, passwordHash: string): User -> bool {
    (u: User) => u.email == email && u.passwordHash == passwordHash
  }

  /** `u.email === email` */
  function WithEmail(email: string): User -> bool {
    (u: User) => u.email == email
  }

  /** `u.id === id` */
  function WithId(id: string): User -> bool {
    (u: User) => u.id == id
  }

  /** The first user whose email and password hash both match. */
  function FindByCredentials(users: seq<User>, email: string, passwordHash: string): (r: Option<User>)
    ensures r.Some? ==> exists i :: 0 <= i < |users| && users[i] == r.value
                          && users[i].email == email && users[i].passwordHash == passwordHash
                          && forall j :: 0 <= j < i ==> !(users[j].email == email && users[j].passwordHash == passwordHash)
    ensures r.None? <==> forall i :: 0 <= i < |users| ==> !(users[i].email == email && users[i].passwordHash == passwordHash)
  {
    var p := WithCredentials(email, passwordHash);
    match Seqs.FirstIndex(users, p)
    case None => None
    case Some(i) => assert p(users[i]); Some(users[i])
  }

  /** No two users in the list share an email. */
  predicate EmailsUnique(users: seq<User>) {
    forall i, j :: 0 <= i < j < |users| ==> users[i].email != users[j].email
  }

  predicate EmailTaken(users: seq<User>, email: string) {
    exists i :: 0 <= i < |users| && users[i].email == email
  }

  /** What the registration form supplies (`Omit<User, 'id' | 'isAdmin'>`). */
  datatype RegistrationData = RegistrationData(
    firstName: string,
    lastName: string,
    teamName: string,
    email: string,
    phone: string,
    passwordHash: string)

  /** `user-${Date.now()}` */
  function UserId(now: nat): string {
    "user-" + Text.NatToString(now)
  }

  /** `https://picsum.photos/seed/${Date.now()}/200` */
  function AvatarUrl(now: nat): string {
    "https://picsum.photos/seed/" + Text.NatToString(now) + "/200"
  }

  /** The registered user: the form's fields, a time-based id and avatar, never an admin. */
  function NewUser(data: RegistrationData, now: nat): User {
    User(UserId(now), data.firstName, data.lastName, data.teamName, data.email, data.phone,
         data.passwordHash, Some(AvatarUrl(now)), false)
  }

  /**
   * The list after `register`: `None` when the email is taken (nothing
   * changes), otherwise the list with the new user appended.
   */
  function Registered(users: seq<User>, data: RegistrationData, now: nat): (r: Option<seq<User>>)
    ensures r.None? <==> EmailTaken(users, data.email)
    ensures r.Some? ==> |r.value| == |users| + 1 && r.value[..|users|] == users
    ensures r.Some? ==> var u := r.value[|users|];
      && !u.isAdmin && u.email == data.email && u.passwordHash == data.passwordHash
      && u.firstName == data.firstName && u.teamName == data.teamName
  {
    match Seqs.Find(users, WithEmail(data.email))
    case Some(_) => None
    case None => Some(users + [NewUser(data, now)])
  }

  /** Registration never lets two users share an email. */
  lemma RegisterKeepsEmailsUnique(users: seq<User>, data: RegistrationData, now: nat)
    requires EmailsUnique(users)
    ensures var r := Registered(users, data, now); r.Some? ==> EmailsUnique(r.value)
  {
    var r := Registered(users, data, now);
    if r.Some? {
      var n := |users|;
      forall i, j | 0 <= i < j < |r.value| ensures r.value[i].email != r.value[j].email {
        if j == n {
          assert r.value[i] == users[i];
        } else {
          assert r.value[i] == users[i] && r.value[j] == users[j];
        }
      }
    }
  }

  /** A user who registered can log in with the email and password hash given. */
  lemma RegisteredCanLogIn(users: seq<User>, data: RegistrationData, now: nat)
    requires Registered(users, data, now).Some?
    ensures FindByCredentials(Registered(users, data, now).value, data.email, data.passwordHash)
         == Some(NewUser(data, now))
  {
    var r := Registered(users, data, now).value;
    var n := |users|;
    var p := WithCredentials(data.email, data.passwordHash);
    forall j | 0 <= j < n ensures !p(r[j]) {
      assert r[j] == users[j];
    }
    assert p(r[n]);
  }

  /**
   * `MOCK_USERS[findIndex(u => u.id === updated.id)] = updated` when such an
   * index exists: the first user with the id is replaced, nothing else changes.
   */
  function ReplaceFirstById(users: seq<User>, updated: User): (r: seq<User>)
    ensures |r| == |users|
    ensures forall i :: 0 <= i < |users| ==> r[i].id == users[i].id
    ensures (forall i :: 0 <= i < |users| ==> users[i].id != updated.id) ==> r == users
    ensures forall i :: 0 <= i < |users| && users[i].id == updated.id
                     && (forall k :: 0 <= k < i ==> users[k].id != updated.id)
                     ==> r == users[i := updated]
  {
    match Seqs.FirstIndex(users, WithId(updated.id))
    case None => users
    case Some(i) => users[i := updated]
  }

  /** Replacing the same user twice is replacing it once. */
  lemma ReplaceIdempotent(users: seq<User>, updated: User)
    ensures ReplaceFirstById(ReplaceFirstById(users, updated), updated) == ReplaceFirstById(users, updated)
  {
    var once := ReplaceFirstById(users, updated);
    match Seqs.FirstIndex(users, WithId(updated.id))
    case None =>
    case Some(i) =>
      assert Seqs.FirstIndex(once, WithId(updated.id)) == Some(i) by {
        SameIdsSameIndex(users, once, updated.id);
      }
  }

  /** Lists with the same ids in the same places find an id at the same place. */
  lemma {:induction false} SameIdsSameIndex(us1: seq<User>, us2: seq<User>, id: string)
    requires |us1| == |us2|
    requires forall i :: 0 <= i < |us1| ==> us1[i].id == us2[i].id
    ensures Seqs.FirstIndex(us1, WithId(id)) == Seqs.FirstIndex(us2, WithId(id))
  {
    if us1 != [] && us1[0].id != id {
      SameIdsSameIndex(us1[1..], us2[1..], id);
    }
  }

  /** The provider's state: the current user and the shared user list. */
  class Auth {
    var users: seq<User>
    var user: Option<User>

    constructor (users: seq<User>)
      ensures this.users == users && user == None
    {
      this.users := users;
      user := None;
    }

    /** `login`: the first user with matching credentials becomes current; a failure changes nothing. */
    method Login(email: string, passwordHash: string) returns (ok: bool)
      modifies this`user
      ensures ok <==> exists i :: 0 <= i < |users| && users[i].email == email && users[i].passwordHash == passwordHash
      ensures ok ==> user == FindByCredentials(users, email, passwordHash)
      ensures !ok ==> user == old(user)
    {
      var foundUser := FindByCredentials(users, email, passwordHash);
      if foundUser.Some? {
        user := foundUser;
        return true;
      }
      return false;
    }

    /** `logout` */
    method Logout()
      modifies this`user
      ensures user == None
    {
      user := None;
    }

    /**
     * `register`: refused, with nothing changed, when the email is taken;
     * otherwise the new user is appended and becomes current.
     */
    method Register(data: RegistrationData, now: nat) returns (ok: bool)
      modifies this
      ensures ok <==> !EmailTaken(old(users), data.email)
      ensures !ok ==> users == old(users) && user == old(user)
      ensures ok ==> users == old(users) + [NewUser(data, now)] && user == Some(NewUser(data, now))
      ensures Registered(old(users), data, now) == if ok then Some(users) else None
      ensures EmailsUnique(old(users)) ==> EmailsUnique(users)
    {
      var existingUser := Seqs.Find(users, WithEmail(data.email));
      if existingUser.Some? {
        return false;
      }
      if EmailsUnique(users) {
        RegisterKeepsEmailsUnique(users, data, now);
      }
      var newUser := NewUser(data, now);
      users := users + [newUser];
      user := Some(newUser);
      return true;
    }

    /** `updateUser`: the argument becomes current, and replaces the first user with its id. */
    method UpdateUser(updatedUser: User)
      modifies this
      ensures user == Some(updatedUser)
      ensures users == ReplaceFirstById(old(users), updatedUser)
    {
      user := Some(updatedUser);
      var userIndex := Seqs.FirstIndex(users, WithId(updatedUser.id));
      if userIndex.Some? {
        users := users[userIndex.value := updatedUser];
      }
    }
  }
}
