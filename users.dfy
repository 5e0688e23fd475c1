/** The `users` table and its handlers (backendExpress/controllers/users.js):
    registration with its duplicate-email check, login, the `me` lookup and
    the role update. Password hashing and comparison (bcrypt) and token
    signing are oracles: the hash is an argument, the comparison a function
    argument, and login returns the claims it would sign. */
module Users {
  import opened JsCore
  import opened Express
  import Rows

  type Id = nat

  /** A row of `users`. */
  datatype User = User(id: Id, name: string, email: string, hash: string, role: string)

  function UserId(u: User): nat
  {
    u.id
  }

  function UserEmail(u: User): string
  {
    u.email
  }

  /** `["USER", "ADMIN"].includes(role)`: exact, case-sensitive membership. */
  predicate ValidRole(role: string)
  {
    role == "USER" || role == "ADMIN"
  }

  const InvalidRole: string := "Invalid role. Only USER or ADMIN are allowed."

  /** The role a registered user starts with: the INSERT gives none, and the
      column is assumed to default to "USER". */
  const DefaultRole: string := "USER"

  /** The role check is case-sensitive: a valid role is already upper case,
      and "admin", which the admin gate would accept after upper-casing, is
      refused here. */
  lemma ValidRoleIsCaseSensitive(role: string)
    ensures ValidRole(role) ==> ToUpper(role) == role
    ensures ToUpper("admin") == "ADMIN" && !ValidRole("admin")
  {
    assert ToUpper("admin") == "ADMIN" by {
      var u := ToUpper("admin");
      assert u[0] == 'A' && u[1] == 'D' && u[2] == 'M' && u[3] == 'I' && u[4] == 'N';
    }
    if role == "USER" {
      var u := ToUpper(role);
      assert u[0] == 'U' && u[1] == 'S' && u[2] == 'E' && u[3] == 'R';
    } else if role == "ADMIN" {
      var u := ToUpper(role);
      assert u[0] == 'A' && u[1] == 'D' && u[2] == 'M' && u[3] == 'I' && u[4] == 'N';
    }
  }

  /** The claims login signs into both tokens: only the id and the role. */
  datatype Claims = Claims(id: Id, role: string)

  /** `SELECT id, name, email, role`: a user without the hash. */
  datatype Profile = Profile(id: Id, name: string, email: string, role: string)

  function ProfileOf(u: User): Profile
  {
    Profile(u.id, u.name, u.email, u.role)
  }

  datatype LoginOutcome = Issued(claims: Claims) | LoginRefused(reply: Reply)

  datatype MeOutcome = Found(profile: Profile) | MeRefused(reply: Reply)

  class UserTable {
    var rows: seq<User>
    /** The id the database generates for the next insert. */
    var nextId: nat

    /** Ids are unique and so are emails (an assumed unique constraint on
        `users.email`). */
    ghost predicate Valid()
      reads this
    {
      Rows.UniqueKeys(rows, UserId) && Rows.KeysBelow(rows, UserId, nextId) &&
      Rows.UniqueKeys(rows, UserEmail)
    }

    constructor ()
      ensures Valid() && rows == []
    {
      rows := [];
      nextId := 0;
    }

    /** `register`. A taken email gets "duplicate email"; with no `return`
        the insert is still attempted, the unique constraint rejects it, and
        the catch block replies "invalid registration". */
    method Register(name: string, email: string, hash: string) returns (replies: seq<Reply>)
      requires Valid()
      modifies this
      ensures Valid()
      ensures Rows.Find(old(rows), UserEmail, email).Some? ==>
                rows == old(rows) &&
                replies == [Reply(400, "duplicate email"), Reply(400, "invalid registration")]
      ensures Rows.Find(old(rows), UserEmail, email).None? ==>
                rows == old(rows) + [User(old(nextId), name, email, hash, DefaultRole)] &&
                replies == [Ok("User registered")]
    {
      if Rows.Find(rows, UserEmail, email).Some? {
        replies := [Reply(400, "duplicate email"), Reply(400, "invalid registration")];
        return;
      }
      var u := User(nextId, name, email, hash, DefaultRole);
      Rows.AppendKeepsUniqueKeys(rows, UserId, u, nextId);
      Rows.AppendNewKeyKeepsUnique(rows, UserEmail, u);
      rows := rows + [u];
      nextId := nextId + 1;
      replies := [Ok("User registered")];
    }

    /** `login`: an unknown email and a wrong password are refused with 401;
        otherwise the claims are the id and role of the user with that email.
        `matches(password, hash)` is bcrypt's comparison. */
    function Login(email: string, password: string, matches: (string, string) -> bool): (r: LoginOutcome)
      reads this
      ensures Rows.Find(rows, UserEmail, email).None? <==> r == LoginRefused(Reply(401, "not authorised"))
      ensures r == LoginRefused(Reply(401, "login failed")) <==>
                exists i :: 0 <= i < |rows| && rows[i].email == email && !matches(password, rows[i].hash)
                         && Rows.Find(rows, UserEmail, email) == Some(i)
      ensures r.Issued? ==>
                exists i :: 0 <= i < |rows| && rows[i].email == email && matches(password, rows[i].hash)
                         && r.claims == Claims(rows[i].id, rows[i].role)
      ensures Rows.Find(rows, UserEmail, email).Some? ==>
                var i := Rows.Find(rows, UserEmail, email).value;
                matches(password, rows[i].hash) ==> r == Issued(Claims(rows[i].id, rows[i].role))
    {
      match Rows.Find(rows, UserEmail, email)
      case None => LoginRefused(Reply(401, "not authorised"))
      case Some(i) =>
        if !matches(password, rows[i].hash) then LoginRefused(Reply(401, "login failed"))
        else Issued(Claims(rows[i].id, rows[i].role))
    }

    /** `me`: the caller's profile, looked up by the id of the verified token. */
    function Me(decodedId: Option<Id>): (r: MeOutcome)
      reads this
      ensures decodedId.None? <==> r == MeRefused(Reply(401, "unauthorised"))
      ensures decodedId.Some? ==>
                (Rows.Find(rows, UserId, decodedId.value).None? <==> r == MeRefused(Reply(404, "user not found")))
      ensures r.Found? ==>
                exists i :: 0 <= i < |rows| && rows[i].id == decodedId.value && r.profile == ProfileOf(rows[i])
      ensures decodedId.Some? && Rows.Find(rows, UserId, decodedId.value).Some? ==>
                r == Found(ProfileOf(rows[Rows.Find(rows, UserId, decodedId.value).value]))
    {
      if decodedId.None? then MeRefused(Reply(401, "unauthorised"))
      else
        match Rows.Find(rows, UserId, decodedId.value)
        case None => MeRefused(Reply(404, "user not found"))
        case Some(i) => Found(ProfileOf(rows[i]))
    }

    /** `setUserRole`. An invalid role is reported, but with no `return` the
        UPDATE still writes it; "User not found" for an unknown id is likewise
        followed by the success reply. The handler's replies stop at the
        second one, whose sending fails. */
    method SetUserRole(id: Id, role: string) returns (replies: seq<Reply>)
      requires Valid()
      modifies this
      ensures Valid() && nextId == old(nextId)
      ensures Rows.Find(old(rows), UserId, id).None? ==> rows == old(rows)
      ensures Rows.Find(old(rows), UserId, id).Some? ==>
                var k := Rows.Find(old(rows), UserId, id).value;
                rows == old(rows)[k := old(rows)[k].(role := role)]
      ensures var found := Rows.Find(old(rows), UserId, id).Some?;
              var done := Ok("User role updated to " + role);
              replies ==
                if ValidRole(role) then
                  (if found then [done] else [Reply(404, "User not found"), done])
                else
                  (if found then [Reply(400, InvalidRole), done] else [Reply(400, InvalidRole), Reply(404, "User not found")])
    {
      replies := [];
      if !ValidRole(role) {
        replies := [Reply(400, InvalidRole)];
      }
      var found := Rows.Find(rows, UserId, id);
      if found.Some? {
        var k := found.value;
        var updated := rows[k].(role := role);
        Rows.ReplaceKeepsUniqueKeys(rows, UserId, k, updated);
        Rows.ReplaceKeepsUniqueKeys(rows, UserEmail, k, updated);
        rows := rows[k := updated];
      } else {
        replies := replies + [Reply(404, "User not found")];
      }
      if |replies| < 2 {
        replies := replies + [Ok("User role updated to " + role)];
      }
    }
  }
}
