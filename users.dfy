/** The user accounts behind /api/users: profile read and update, password
    change, registration and login over the users table. */
module Users {
  import opened Common
  import opened Strings
  import opened Crypto

  /** A row of the users table; the password column holds a bcrypt hash. */
  datatype User = User(user_id: int, name: string, email: string, password: Digest)

  /** The body of a successful GET /profile/:userId. */
  datatype Profile = Profile(username: string, email: string, id: int)

  /** The body of a successful POST /login. */
  datatype Session = Session(token: Token, username: string, userId: int)

  /** The minimum password length the change-password route enforces. */
  const MinPasswordLength: nat := 6

  /** `SELECT ... FROM users WHERE user_id = ?`, first row. */
  function FindUser(users: seq<User>, id: int): (r: Option<User>)
    ensures r.Some? ==> r.value in users && r.value.user_id == id
    ensures r.None? ==> forall u :: u in users ==> u.user_id != id
  {
    if users == [] then None
    else if users[0].user_id == id then Some(users[0])
    else FindUser(users[1..], id)
  }

  /** `SELECT ... FROM users WHERE email = ?`, first row. */
  function FindByEmail(users: seq<User>, email: string): (r: Option<User>)
    ensures r.Some? ==> r.value in users && r.value.email == email
    ensures r.None? ==> forall u :: u in users ==> u.email != email
  {
    if users == [] then None
    else if users[0].email == email then Some(users[0])
    else FindByEmail(users[1..], email)
  }

  /** `SELECT user_id FROM users WHERE email = ? AND user_id != ?` finds a row. */
  predicate EmailUsedByOther(users: seq<User>, email: string, callerId: int)
    ensures EmailUsedByOther(users, email, callerId) ==> FindByEmail(users, email).Some?
    ensures !EmailUsedByOther(users, email, callerId) <==>
      forall i :: 0 <= i < |users| && users[i].email == email ==> users[i].user_id == callerId
  {
    exists u :: u in users && u.email == email && u.user_id != callerId
  }

  predicate UniqueIds(users: seq<User>)
  {
    forall i, j :: 0 <= i < j < |users| ==> users[i].user_id != users[j].user_id
  }

  predicate UniqueEmails(users: seq<User>)
  {
    forall i, j :: 0 <= i < j < |users| ==> users[i].email != users[j].email
  }

  /** With distinct emails, the lookup by email finds the one row that has it. */
  lemma FindByUniqueEmail(users: seq<User>, u: User)
    requires UniqueEmails(users)
    requires u in users
    ensures FindByEmail(users, u.email) == Some(u)
  {
    var v := FindByEmail(users, u.email).value;
    var a :| 0 <= a < |users| && users[a] == u;
    var b :| 0 <= b < |users| && users[b] == v;
    if a < b {
      assert users[a].email != users[b].email;
    } else if b < a {
      assert users[b].email != users[a].email;
    }
  }

  /** GET /api/users/profile/:userId for the caller `callerId`. */
  function GetProfile(users: seq<User>, callerId: int, userIdParam: string): (reply: Reply<Profile>)
    ensures ParseInt(userIdParam) != Some(callerId) ==> reply == Err(403, "Unauthorized")
    ensures ParseInt(userIdParam) == Some(callerId) && (forall u :: u in users ==> u.user_id != callerId) ==>
      reply == Err(404, "User not found")
    ensures reply.Ok? ==> reply.status == 200 && reply.value.id == callerId
    ensures reply.Ok? ==> exists u :: u in users && u.user_id == callerId
                                      && reply.value == Profile(u.name, u.email, u.user_id)
    ensures (ParseInt(userIdParam) == Some(callerId) && exists u :: u in users && u.user_id == callerId) ==> reply.Ok?
  {
    if ParseInt(userIdParam) != Some(callerId) then Err(403, "Unauthorized")
    else match FindUser(users, callerId)
      case None => Err(404, "User not found")
      case Some(u) => Ok(200, Profile(u.name, u.email, u.user_id))
  }

  /** POST /api/users/login. `env` is `JWT_SECRET`, from
      which the signing key is taken. */
  function Login(users: seq<User>, email: string, password: string, env: Option<string>): (reply: Reply<Session>)
    ensures (forall u :: u in users ==> u.email != email) ==> reply == Err(400, "User not found")
    ensures reply.Ok? ==> reply.status == 200
    ensures reply.Ok? ==>
      exists u :: u in users && u.email == email && Compare(password, u.password)
                  && reply.value == Session(Sign(Claims(u.user_id, u.email), SigningSecret(env)), u.name, u.user_id)
    ensures reply.Err? ==> reply.status == 400
    ensures reply.Err? && (exists u :: u in users && u.email == email) ==> reply.message == "Invalid credentials"
  {
    match FindByEmail(users, email)
    case None => Err(400, "User not found")
    case Some(u) =>
      if !Compare(password, u.password) then Err(400, "Invalid credentials")
      else Ok(200, Session(Sign(Claims(u.user_id, u.email), SigningSecret(env)), u.name, u.user_id))
  }

  /** With distinct emails, login succeeds exactly for the password the stored
      hash was made from. */
  lemma LoginSucceedsIff(users: seq<User>, u: User, password: string, env: Option<string>)
    requires UniqueEmails(users)
    requires u in users
    ensures Login(users, u.email, password, env).Ok? <==> Compare(password, u.password)
  {
    FindByUniqueEmail(users, u);
  }

  /** `UPDATE users SET name = ?, email = ? WHERE user_id = ?`. */
  function RenameWhere(users: seq<User>, id: int, name: string, email: string): (out: seq<User>)
    ensures |out| == |users|
    ensures forall k :: 0 <= k < |users| && users[k].user_id != id ==> out[k] == users[k]
    ensures forall k :: 0 <= k < |users| && users[k].user_id == id ==>
      out[k] == User(id, name, email, users[k].password)
  {
    if users == [] then []
    else
      var head := if users[0].user_id == id then users[0].(name := name, email := email) else users[0];
      [head] + RenameWhere(users[1..], id, name, email)
  }

  /** `UPDATE users SET password = ? WHERE user_id = ?`. */
  function SetPasswordWhere(users: seq<User>, id: int, d: Digest): (out: seq<User>)
    ensures |out| == |users|
    ensures forall k :: 0 <= k < |users| && users[k].user_id != id ==> out[k] == users[k]
    ensures forall k :: 0 <= k < |users| && users[k].user_id == id ==> out[k] == users[k].(password := d)
  {
    if users == [] then []
    else
      var head := if users[0].user_id == id then users[0].(password := d) else users[0];
      [head] + SetPasswordWhere(users[1..], id, d)
  }

  /** Changing a password keeps the emails distinct. */
  lemma SetPasswordKeepsEmails(users: seq<User>, id: int, d: Digest)
    requires UniqueEmails(users)
    ensures UniqueEmails(SetPasswordWhere(users, id, d))
  {
    var after := SetPasswordWhere(users, id, d);
    forall i, j | 0 <= i < j < |after| ensures after[i].email != after[j].email {
      assert after[i].email == users[i].email && after[j].email == users[j].email;
    }
  }

  /** After a password change, the caller can log in with the new password and
      with no other. */
  lemma PasswordChangeTakesEffect(users: seq<User>, k: int, newPassword: string, salt: nat,
                                  attempt: string, env: Option<string>)
    requires UniqueEmails(users)
    requires 0 <= k < |users|
    ensures var after := SetPasswordWhere(users, users[k].user_id, Hash(newPassword, salt));
            Login(after, users[k].email, attempt, env).Ok? <==> attempt == newPassword
  {
    var after := SetPasswordWhere(users, users[k].user_id, Hash(newPassword, salt));
    SetPasswordKeepsEmails(users, users[k].user_id, Hash(newPassword, salt));
    assert after[k] in after;
    LoginSucceedsIff(after, after[k], attempt, env);
  }

  /** A freshly registered account can log in with its password, and gets a
      token for its own id and email. */
  lemma RegisterThenLogin(users: seq<User>, id: int, name: string, email: string,
                          password: string, salt: nat, env: Option<string>)
    requires UniqueEmails(users)
    requires forall u :: u in users ==> u.email != email
    ensures var after := users + [User(id, name, email, Hash(password, salt))];
            Login(after, email, password, env) == Ok(200, Session(Sign(Claims(id, email), SigningSecret(env)), name, id))
  {
    var added := User(id, name, email, Hash(password, salt));
    var after := users + [added];
    assert UniqueEmails(after) by {
      forall i, j | 0 <= i < j < |after| ensures after[i].email != after[j].email {
        if j == |users| {
          assert after[i] in users;
        }
      }
    }
    FindByUniqueEmail(after, added);
  }

  /** The in-memory users table. */
  class UserTable {
    var users: seq<User>
    /** The next value of the table's auto-increment id. */
    var nextId: int

    ghost predicate Valid()
      reads this
    {
      0 < nextId
      && (forall k :: 0 <= k < |users| ==> 0 < users[k].user_id < nextId)
      && UniqueIds(users)
      && UniqueEmails(users)
    }

    constructor ()
      ensures Valid() && users == [] && nextId == 1
    {
      users := [];
      nextId := 1;
    }

    /** PUT /api/users/profile for the caller `callerId`. */
    method UpdateProfile(callerId: int, username: string, email: string) returns (reply: Reply<string>)
      requires Valid()
      modifies this
      ensures Valid() && nextId == old(nextId)
      ensures (username == "" || email == "") ==>
        reply == Err(400, "Username and email are required.") && users == old(users)
      ensures (username != "" && email != "" && EmailUsedByOther(old(users), email, callerId)) ==>
        reply == Err(400, "This email is already in use by another user.") && users == old(users)
      ensures (username != "" && email != "" && !EmailUsedByOther(old(users), email, callerId)) ==>
        reply == Ok(200, "Profile updated successfully!")
        && users == RenameWhere(old(users), callerId, username, email)
    {
      if username == "" || email == "" {
        return Err(400, "Username and email are required.");
      }
      if EmailUsedByOther(users, email, callerId) {
        return Err(400, "This email is already in use by another user.");
      }
      var out := RenameWhere(users, callerId, username, email);
      forall i, j | 0 <= i < j < |out| ensures out[i].email != out[j].email {
        if users[i].user_id == callerId {
          assert users[j].user_id != callerId;
          assert users[j] in users;
        } else if users[j].user_id == callerId {
          assert users[i] in users;
        }
      }
      users := out;
      reply := Ok(200, "Profile updated successfully!");
    }

    /** PUT /api/users/change-password for the caller `callerId`; `salt` is the
      random salt `bcrypt.hash` would draw. */
    method ChangePassword(callerId: int, currentPassword: string, newPassword: string, salt: nat)
      returns (reply: Reply<string>)
      requires Valid()
      modifies this
      ensures Valid() && nextId == old(nextId)
      ensures (currentPassword == "" || newPassword == "") ==>
        reply == Err(400, "Current and new passwords are required.") && users == old(users)
      ensures (currentPassword != "" && newPassword != "" && |newPassword| < MinPasswordLength) ==>
        reply == Err(400, "New password must be at least 6 characters long.") && users == old(users)
      ensures (currentPassword != "" && |newPassword| >= MinPasswordLength
               && FindUser(old(users), callerId).None?) ==>
        reply == Err(404, "User not found.") && users == old(users)
      ensures (currentPassword != "" && |newPassword| >= MinPasswordLength
               && FindUser(old(users), callerId).Some?
               && !Compare(currentPassword, FindUser(old(users), callerId).value.password)) ==>
        reply == Err(401, "Invalid current password.") && users == old(users)
      ensures (currentPassword != "" && |newPassword| >= MinPasswordLength
               && FindUser(old(users), callerId).Some?
               && Compare(currentPassword, FindUser(old(users), callerId).value.password)) ==>
        reply == Ok(200, "Password changed successfully!")
        && users == SetPasswordWhere(old(users), callerId, Hash(newPassword, salt))
    {
      if currentPassword == "" || newPassword == "" {
        return Err(400, "Current and new passwords are required.");
      }
      if |newPassword| < MinPasswordLength {
        return Err(400, "New password must be at least 6 characters long.");
      }
      var found := FindUser(users, callerId);
      if found.None? {
        return Err(404, "User not found.");
      }
      if !Compare(currentPassword, found.value.password) {
        return Err(401, "Invalid current password.");
      }
      var out := SetPasswordWhere(users, callerId, Hash(newPassword, salt));
      assert forall k :: 0 <= k < |out| ==> out[k].user_id == users[k].user_id && out[k].email == users[k].email;
      users := out;
      reply := Ok(200, "Password changed successfully!");
    }

    /** POST /api/users/register; `salt` is the random salt `bcrypt.hash` would draw. */
    method Register(name: string, email: string, password: string, salt: nat) returns (reply: Reply<string>)
      requires Valid()
      modifies this
      ensures Valid()
      ensures (exists u :: u in old(users) && u.email == email) ==>
        reply == Err(400, "Email already registered.") && users == old(users) && nextId == old(nextId)
      ensures (forall u :: u in old(users) ==> u.email != email) ==>
        reply == Ok(201, "User registered successfully!")
        && users == old(users) + [User(old(nextId), name, email, Hash(password, salt))]
        && nextId == old(nextId) + 1
    {
      var hashed := Hash(password, salt);
      var existing := FindByEmail(users, email);
      if existing.Some? {
        return Err(400, "Email already registered.");
      }
      var added := User(nextId, name, email, hashed);
      forall i, j | 0 <= i < j < |users + [added]|
        ensures (users + [added])[i].email != (users + [added])[j].email
      {
        if j == |users| {
          assert users[i] in users;
        }
      }
      users := users + [added];
      nextId := nextId + 1;
      reply := Ok(201, "User registered successfully!");
    }
  }
}
