/**
 * The `/api/users` routes over the users table: list without passwords,
 * create with a hashed password and UNIQUE username/email, and login.
 */
module UsersRoute {
  import opened Wrappers
  import opened Http
  import Seqs
  import Bcrypt

  datatype UserRow = UserRow(id: nat, username: string, email: string, password: Bcrypt.Hashed,
                             role: string, online: bool, createdAt: int)

  /** A user as the routes send it: every column except the password. */
  datatype PublicUser = PublicUser(id: nat, username: string, email: string, role: string,
                                   online: bool, createdAt: int)

  const EmailTaken := "Email already exists"
  const BadCredentials := "Invalid credentials"

  /** Strips the password column. */
  function Project(row: UserRow): PublicUser {
    PublicUser(row.id, row.username, row.email, row.role, row.online, row.createdAt)
  }

  /** The lookup by email: the first row with that email, if any. */
  function FindByEmail(rows: seq<UserRow>, email: string): (r: Option<UserRow>)
    ensures r.None? <==> forall i :: 0 <= i < |rows| ==> rows[i].email != email
    ensures r.Some? ==> r.value in rows && r.value.email == email
  {
    Seqs.FindFirst(rows, (u: UserRow) => u.email == email)
  }

  /** The re-read by id: the first row with that id, if any. */
  function FindById(rows: seq<UserRow>, id: nat): (r: Option<UserRow>)
    ensures r.None? <==> forall i :: 0 <= i < |rows| ==> rows[i].id != id
    ensures r.Some? ==> r.value in rows && r.value.id == id
  {
    Seqs.FindFirst(rows, (u: UserRow) => u.id == id)
  }

  /** An insert of this username and email would violate a UNIQUE constraint. */
  predicate Clashes(rows: seq<UserRow>, username: string, email: string) {
    exists i :: 0 <= i < |rows| && (rows[i].username == username || rows[i].email == email)
  }

  /** The UPDATE statement: the row with that id is marked online. */
  function SetOnline(rows: seq<UserRow>, id: nat): (r: seq<UserRow>)
    ensures |r| == |rows|
    ensures forall i :: 0 <= i < |rows| ==>
      r[i] == if rows[i].id == id then rows[i].(online := true) else rows[i]
  {
    Seqs.MapWhere(rows, (row: UserRow) => row.id == id, (row: UserRow) => row.(online := true))
  }

  /** Ids, usernames and emails are pairwise distinct. */
  ghost predicate Distinct(rows: seq<UserRow>) {
    forall i, j :: 0 <= i < j < |rows| ==>
      rows[i].id != rows[j].id && rows[i].username != rows[j].username && rows[i].email != rows[j].email
  }

  /** Setting the online flag keeps ids, usernames and emails as they were. */
  lemma SetOnlineKeepsKeys(rows: seq<UserRow>, id: nat, bound: nat)
    requires Distinct(rows) && forall i :: 0 <= i < |rows| ==> rows[i].id < bound
    ensures var r := SetOnline(rows, id);
      Distinct(r) && forall i :: 0 <= i < |r| ==> r[i].id < bound
  {
    var r := SetOnline(rows, id);
    assert forall i :: 0 <= i < |r| ==>
      r[i].id == rows[i].id && r[i].username == rows[i].username && r[i].email == rows[i].email;
  }

  /**
   * After a create that passed the UNIQUE check, a login with the same email
   * finds the new row, and the password given at creation matches it.
   */
  lemma {:induction false} CreatedUserCanLogIn(rows: seq<UserRow>, row: UserRow, password: string, salt: nat)
    requires !Clashes(rows, row.username, row.email)
    requires row.password == Bcrypt.Hash(password, salt)
    ensures FindByEmail(rows + [row], row.email) == Some(row)
    ensures Bcrypt.Compare(password, row.password)
  {
    if rows == [] {
      assert rows + [row] == [row];
    } else {
      assert (rows + [row])[1..] == rows[1..] + [row];
      assert !Clashes(rows[1..], row.username, row.email) by {
        forall i | 0 <= i < |rows[1..]|
          ensures rows[1..][i].username != row.username && rows[1..][i].email != row.email
        {
          assert rows[1..][i] == rows[i + 1];
        }
      }
      CreatedUserCanLogIn(rows[1..], row, password, salt);
    }
    Bcrypt.CompareOwnHash(password, salt);
  }

  /** The users table with its SERIAL id counter. */
  class UsersTable {
    var rows: seq<UserRow>
    var nextId: nat

    ghost predicate Valid()
      reads this
    {
      (forall i :: 0 <= i < |rows| ==> rows[i].id < nextId) && Distinct(rows)
    }

    constructor()
      ensures Valid() && rows == [] && nextId == 1
    {
      rows := [];
      nextId := 1;
    }

    /** `GET /`: every user without the password column, in table order. */
    function List(): (r: seq<PublicUser>)
      reads this
      ensures |r| == |rows|
      ensures forall i :: 0 <= i < |rows| ==> r[i] == Project(rows[i])
    {
      seq(|rows|, i reads this requires 0 <= i < |rows| => Project(rows[i]))
    }

    /** The INSERT statement: refused on a UNIQUE violation, otherwise a new row with the next id. */
    method Insert(username: string, email: string, password: Bcrypt.Hashed, role: string,
                  online: bool, now: int) returns (id: Option<nat>)
      requires Valid()
      modifies this
      ensures Valid()
      ensures id.None? <==> Clashes(old(rows), username, email)
      ensures id.None? ==> rows == old(rows) && nextId == old(nextId)
      ensures id.Some? ==>
        && id.value == old(nextId) && nextId == old(nextId) + 1
        && rows == old(rows) + [UserRow(id.value, username, email, password, role, online, now)]
    {
      if Clashes(rows, username, email) {
        return None;
      }
      id := Some(nextId);
      rows := rows + [UserRow(nextId, username, email, password, role, online, now)];
      nextId := nextId + 1;
    }

    /**
     * `POST /`: hash the password, insert with `online = true`, and answer
     * the stored row without its password; a UNIQUE violation answers 400.
     */
    method Create(username: string, email: string, password: string, role: string,
                  salt: nat, now: int) returns (r: Response<PublicUser>)
      requires Valid()
      modifies this
      ensures Valid()
      ensures Clashes(old(rows), username, email) ==>
        r == Error(400, EmailTaken) && rows == old(rows) && nextId == old(nextId)
      ensures !Clashes(old(rows), username, email) ==>
        var row := UserRow(old(nextId), username, email, Bcrypt.Hash(password, salt), role, true, now);
        rows == old(rows) + [row] && nextId == old(nextId) + 1 &&
        r == Ok(Project(row)) && r.body.online
    {
      var hashed := Bcrypt.Hash(password, salt);
      var id := Insert(username, email, hashed, role, true, now);
      if id.None? {
        return Error(400, EmailTaken);
      }
      var found := FindById(rows, id.value);
      assert rows[|rows| - 1].id == id.value;
      if found.None? {
        assert false;
      } else {
        var k :| 0 <= k < |rows| && rows[k] == found.value;
        assert k == |rows| - 1;
        r := Ok(Project(found.value));
      }
    }

    /**
     * `POST /login`: an unknown email and a wrong password both answer the
     * same 401; otherwise the row is marked online and the row as read
     * before that update is answered without its password.
     */
    method Login(email: string, password: string) returns (r: Response<PublicUser>)
      requires Valid()
      modifies this`rows
      ensures Valid()
      ensures var u := FindByEmail(old(rows), email);
        (u.None? || !Bcrypt.Compare(password, u.value.password)) ==>
          r == Error(401, BadCredentials) && rows == old(rows)
      ensures var u := FindByEmail(old(rows), email);
        (u.Some? && Bcrypt.Compare(password, u.value.password)) ==>
          rows == SetOnline(old(rows), u.value.id) && r == Ok(Project(u.value))
    {
      var user := FindByEmail(rows, email);
      if user.None? {
        return Error(401, BadCredentials);
      }
      var validPassword := Bcrypt.Compare(password, user.value.password);
      if !validPassword {
        return Error(401, BadCredentials);
      }
      SetOnlineKeepsKeys(rows, user.value.id, nextId);
      rows := SetOnline(rows, user.value.id);
      r := Ok(Project(user.value));
    }
  }
}
