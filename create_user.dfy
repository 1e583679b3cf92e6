/**
 * Provisioning of a backend user on sign-in: the request body built from the identity
 * provider's user, and the create-if-absent rule keyed by email. The backend's user
 * table is modelled as an in-memory sequence of rows.
 */
module CreateUser {

  /** The identity provider's user (`UserDataAPI`). */
  datatype SessionUser = SessionUser(id: string, name: string, email: string, image: string)

  /** The body `createUserDB` posts, and the row the backend then holds. */
  datatype UserBody = UserBody(authId: string, name: string, email: string, image: string)

  /** The identity-provider user a body was made from. */
  function SessionUserOf(b: UserBody): SessionUser {
    SessionUser(b.authId, b.name, b.email, b.image)
  }

  /** `createUserDB`'s body: the provider id becomes `auth_id`, the rest is copied; nothing is lost. */
  function CreateUserBody(user: SessionUser): (b: UserBody)
    ensures SessionUserOf(b) == user
    ensures b.email == user.email
  {
    UserBody(user.id, user.name, user.email, user.image)
  }

  /** What the lookup by email (`fetchUserData({ email })`) returns: the rows with that email, in table order. */
  function RowsWithEmail(rows: seq<UserBody>, email: string): (r: seq<UserBody>)
    ensures forall x :: x in r ==> x in rows && x.email == email
    ensures forall x :: x in rows && x.email == email ==> x in r
    ensures |r| <= |rows|
  {
    if rows == [] then []
    else
      var rest := RowsWithEmail(rows[1..], email);
      assert forall x :: x in rows ==> x == rows[0] || x in rows[1..];
      if rows[0].email == email then [rows[0]] + rest else rest
  }

  /** No email appears in two rows. */
  ghost predicate UniqueEmails(rows: seq<UserBody>) {
    forall i, j :: 0 <= i < j < |rows| ==> rows[i].email != rows[j].email
  }

  /** Some row carries the email. */
  ghost predicate HasEmail(rows: seq<UserBody>, email: string) {
    exists i :: 0 <= i < |rows| && rows[i].email == email
  }

  /**
   * The table after `validateUser` for `user`, when the lookup succeeds (`lookupOk`) or
   * throws, and the create request succeeds (`createOk`) or throws: a row is appended
   * only when the lookup found no row for the email and the create went through.
   */
  function ValidateUserStep(rows: seq<UserBody>, user: SessionUser, lookupOk: bool, createOk: bool): (rows': seq<UserBody>)
    ensures rows' == rows || rows' == rows + [CreateUserBody(user)]
    ensures rows' != rows <==> lookupOk && createOk && !HasEmail(rows, user.email)
  {
    if lookupOk && |RowsWithEmail(rows, user.email)| == 0 then
      if createOk then rows + [CreateUserBody(user)] else rows
    else
      assert lookupOk ==> HasEmail(rows, user.email) by {
        if lookupOk {
          var x := RowsWithEmail(rows, user.email)[0];
          assert x in rows;
        }
      }
      rows
  }

  /** Provisioning never puts a second row under an email. */
  lemma {:induction false} ValidateKeepsEmailsUnique(rows: seq<UserBody>, user: SessionUser, lookupOk: bool, createOk: bool)
    requires UniqueEmails(rows)
    ensures UniqueEmails(ValidateUserStep(rows, user, lookupOk, createOk))
  {
    var rows' := ValidateUserStep(rows, user, lookupOk, createOk);
    if rows' != rows {
      forall i, j | 0 <= i < j < |rows'| ensures rows'[i].email != rows'[j].email {
        if j == |rows| {
          assert rows'[i] == rows[i];
          assert rows'[j].email == user.email;
        } else {
          assert rows'[i] == rows[i] && rows'[j] == rows[j];
        }
      }
    }
  }

  /** After a provisioning whose requests went through, the email has a row. */
  lemma ValidateProvidesRow(rows: seq<UserBody>, user: SessionUser)
    ensures HasEmail(ValidateUserStep(rows, user, true, true), user.email)
  {
    var rows' := ValidateUserStep(rows, user, true, true);
    if rows' != rows {
      assert rows'[|rows|].email == user.email;
    }
  }

  /**
   * Repeating provisioning: once a run has added the row, or its requests went through,
   * a second run changes nothing; a second run adds a row only when the first added
   * none, so two runs add at most one row.
   */
  lemma ValidateIsIdempotent(rows: seq<UserBody>, user: SessionUser, lookupOk: bool, createOk: bool,
                             lookupOk': bool, createOk': bool)
    ensures var once := ValidateUserStep(rows, user, lookupOk, createOk);
      (once != rows || (lookupOk && createOk)) ==> ValidateUserStep(once, user, lookupOk', createOk') == once
    ensures var once := ValidateUserStep(rows, user, lookupOk, createOk);
      var twice := ValidateUserStep(once, user, lookupOk', createOk');
      twice != once ==> once == rows && |twice| == |rows| + 1
  {
    if lookupOk && createOk {
      ValidateProvidesRow(rows, user);
    }
  }

  /** Existence is decided by email: a user with a known email is not created again, whatever the provider id. */
  lemma ExistenceKeyedByEmail(rows: seq<UserBody>, user: SessionUser, lookupOk: bool, createOk: bool, i: nat)
    requires i < |rows| && rows[i].email == user.email
    ensures ValidateUserStep(rows, user, lookupOk, createOk) == rows
  {
  }

  /** The backend's user table. */
  class UserStore {
    var rows: seq<UserBody>

    constructor (rows: seq<UserBody>)
      ensures this.rows == rows
    {
      this.rows := rows;
    }

    /** `createUserDB`: a request that goes through adds the body; one that throws is caught and adds nothing. */
    method CreateUserDB(user: SessionUser, requestOk: bool)
      modifies this
      ensures rows == if requestOk then old(rows) + [CreateUserBody(user)] else old(rows)
    {
      if requestOk {
        rows := rows + [CreateUserBody(user)];
      }
    }

    /**
     * `validateUser`: looks the email up and creates the user only when no row came back.
     * The lookup and the create are taken as one step: no other call runs between them.
     */
    method ValidateUser(user: SessionUser, lookupOk: bool, createOk: bool)
      modifies this
      ensures rows == ValidateUserStep(old(rows), user, lookupOk, createOk)
      ensures UniqueEmails(old(rows)) ==> UniqueEmails(rows)
    {
      if UniqueEmails(rows) {
        ValidateKeepsEmailsUnique(rows, user, lookupOk, createOk);
      }
      if lookupOk {
        var found := RowsWithEmail(rows, user.email);
        if |found| == 0 {
          var newUser := SessionUser(user.id, user.name, user.email, user.image);
          CreateUserDB(newUser, createOk);
        }
      }
    }
  }
}
