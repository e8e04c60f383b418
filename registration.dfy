/**
 * The account-creation form: the checks made on the five fields before an
 * account is stored, in their order of precedence, and the store of
 * accounts whose `username` and `email` columns are each declared UNIQUE.
 * Password hashing is a parameter: the model does not look inside it.
 */
module Registration {

  /** One row of the `users` table (the id, creation date and active flag
      are not part of this model). */
  datatype Account = Account(username: string, email: string, passwordHash: string, fullName: string)

  /** The table's two UNIQUE constraints. */
  predicate Unique(users: seq<Account>) {
    forall i, j :: 0 <= i < j < |users| ==>
      users[i].username != users[j].username && users[i].email != users[j].email
  }

  /** No stored account already uses the username or the email. */
  predicate Free(users: seq<Account>, username: string, email: string) {
    forall i :: 0 <= i < |users| ==> users[i].username != username && users[i].email != email
  }

  /** `create_user`: the INSERT succeeds and adds one row, or violates a
      UNIQUE constraint and leaves the table as it was. */
  function CreateUser(users: seq<Account>, username: string, email: string, password: string,
                      fullName: string, hash: string -> string): (r: (bool, seq<Account>))
    ensures r.0 <==> Free(users, username, email)
    ensures r.0 ==> r.1 == users + [Account(username, email, hash(password), fullName)]
    ensures !r.0 ==> r.1 == users
    ensures Unique(users) ==> Unique(r.1)
  {
    if Free(users, username, email) then
      (true, users + [Account(username, email, hash(password), fullName)])
    else
      (false, users)
  }

  /** The message the form shows. */
  datatype Outcome = MissingField | PasswordMismatch | PasswordTooShort | Created | Taken

  const MinPasswordLength: nat := 6

  /** Every field is non-empty; a field of spaces counts as filled. */
  predicate Filled(username: string, email: string, fullName: string, password: string, confirm: string) {
    username != [] && email != [] && fullName != [] && password != [] && confirm != []
  }

  /** All three checks pass, so the form goes on to `create_user`. */
  predicate Acceptable(username: string, email: string, fullName: string, password: string, confirm: string) {
    Filled(username, email, fullName, password, confirm) && password == confirm && |password| >= MinPasswordLength
  }

  /** The submit handler: the three checks in order, then the insert. */
  function Register(users: seq<Account>, username: string, email: string, fullName: string,
                    password: string, confirm: string, hash: string -> string): (r: (Outcome, seq<Account>))
    ensures r.0 == MissingField <==> !Filled(username, email, fullName, password, confirm)
    ensures r.0 == PasswordMismatch <==>
              Filled(username, email, fullName, password, confirm) && password != confirm
    ensures r.0 == PasswordTooShort <==>
              Filled(username, email, fullName, password, confirm) && password == confirm
              && |password| < MinPasswordLength
    ensures r.0 == Created <==>
              Acceptable(username, email, fullName, password, confirm) && Free(users, username, email)
    ensures r.0 == Taken <==>
              Acceptable(username, email, fullName, password, confirm) && !Free(users, username, email)
    ensures r.0 == Created ==> r.1 == users + [Account(username, email, hash(password), fullName)]
    ensures r.0 != Created ==> r.1 == users
  {
    if !Filled(username, email, fullName, password, confirm) then (MissingField, users)
    else if password != confirm then (PasswordMismatch, users)
    else if |password| < MinPasswordLength then (PasswordTooShort, users)
    else
      var (ok, stored) := CreateUser(users, username, email, password, fullName, hash);
      (if ok then Created else Taken, stored)
  }

  /** One registration on a table that meets the UNIQUE constraints keeps
      them, and changes the table only by appending one account whose form
      passed every check (fields filled, passwords equal, at least six
      characters). */
  lemma {:induction false} RegisteredAccountsAcceptable(users: seq<Account>, username: string, email: string,
                                                       fullName: string, password: string, confirm: string,
                                                       hash: string -> string)
    requires Unique(users)
    ensures var r := Register(users, username, email, fullName, password, confirm, hash);
            Unique(r.1) && (r.1 != users ==>
              |r.1| == |users| + 1 && r.1[..|users|] == users
              && Acceptable(username, email, fullName, password, confirm)
              && r.1[|users|].username == username && r.1[|users|].email == email)
  {
    var r := Register(users, username, email, fullName, password, confirm, hash);
    if r.0 == Created {
      var (_, stored) := CreateUser(users, username, email, password, fullName, hash);
      assert Unique(stored);
      assert r.1[..|users|] == users;
    }
  }

  /** Submitting the same username a second time, even with another
      non-empty email, reports that it is taken and stores nothing. */
  lemma SecondRegistrationTaken(users: seq<Account>, username: string, email: string, email2: string,
                                fullName: string, password: string, hash: string -> string)
    requires Register(users, username, email, fullName, password, password, hash).0 == Created
    requires email2 != []
    ensures var after := Register(users, username, email, fullName, password, password, hash).1;
            Register(after, username, email2, fullName, password, password, hash) == (Taken, after)
  {
    var after := Register(users, username, email, fullName, password, password, hash).1;
    assert after[|users|].username == username;
    assert !Free(after, username, email2);
  }
}
