/** The user table as the storefront's password form sees it. Both storefront
    scripts run the same checks in the same order and differ only in what they
    display (messages, console output, the tab shown afterwards). */
module Accounts {
  import opened Wrappers
  import opened Seqs
  import opened Records

  /** No two users share an email (the email is the user's identifier). */
  predicate DistinctEmails(users: seq<User>) {
    forall i, j :: 0 <= i < j < |users| ==> users[i].email != users[j].email
  }

  datatype PasswordOutcome = Mismatch | TooShort | NotLoggedIn | WrongPassword | Changed

  datatype PasswordChange = PasswordChange(outcome: PasswordOutcome, users: seq<User>)

  /** The password form: the new password must equal its confirmation and have
      at least six characters; then the session email must be set, and the
      first user with that email must have `current` as password. Only that
      user's password is replaced. */
  function ChangePassword(users: seq<User>, email: Option<string>,
                          current: string, newPassword: string, confirm: string): PasswordChange
  {
    if newPassword != confirm then PasswordChange(Mismatch, users)
    else if |newPassword| < 6 then PasswordChange(TooShort, users)
    else if !Truthy(email) then PasswordChange(NotLoggedIn, users)
    else
      var k := IndexWhere(users, UserWithEmail(email.value));
      if k > -1 && users[k].password == current then
        PasswordChange(Changed, users[k := users[k].(password := newPassword)])
      else PasswordChange(WrongPassword, users)
  }

  lemma PasswordInputRejected(users: seq<User>, email: Option<string>,
                              current: string, newPassword: string, confirm: string)
    requires newPassword != confirm || |newPassword| < 6
    ensures var c := ChangePassword(users, email, current, newPassword, confirm);
      c.users == users && c.outcome == (if newPassword != confirm then Mismatch else TooShort)
  {
  }

  /** The change goes through exactly when the inputs pass the checks and the
      session user (the first with the session email) has `current` as
      password; whenever it does not, the table is left as it was. */
  lemma PasswordChangeSucceedsIff(users: seq<User>, email: Option<string>,
                                  current: string, newPassword: string, confirm: string)
    ensures var c := ChangePassword(users, email, current, newPassword, confirm);
      (c.outcome == Changed <==>
        newPassword == confirm && |newPassword| >= 6 && Truthy(email) &&
        exists k :: 0 <= k < |users| && users[k].email == email.value && users[k].password == current &&
          forall j :: 0 <= j < k ==> users[j].email != email.value)
    ensures var c := ChangePassword(users, email, current, newPassword, confirm);
      c.outcome != Changed ==> c.users == users
  {
    if newPassword == confirm && |newPassword| >= 6 && Truthy(email) {
      var f := UserWithEmail(email.value);
      var k := IndexWhere(users, f);
      if k > -1 {
        assert f(users[k]);
        forall j | 0 <= j < k ensures users[j].email != email.value {
          assert !f(users[j]);
        }
      }
      if exists k' :: 0 <= k' < |users| && users[k'].email == email.value && users[k'].password == current &&
          forall j :: 0 <= j < k' ==> users[j].email != email.value {
        var k' :| 0 <= k' < |users| && users[k'].email == email.value && users[k'].password == current &&
          forall j :: 0 <= j < k' ==> users[j].email != email.value;
        assert f(users[k']);
      }
    }
  }

  /** With distinct emails, a successful change rewrites the password of the
      session user only; every other user is untouched, and emails stay
      distinct. */
  lemma PasswordChangeOnlyOwner(users: seq<User>, email: Option<string>,
                                current: string, newPassword: string, confirm: string)
    requires DistinctEmails(users)
    requires ChangePassword(users, email, current, newPassword, confirm).outcome == Changed
    ensures var r := ChangePassword(users, email, current, newPassword, confirm).users;
      |r| == |users| && DistinctEmails(r) &&
      forall j :: 0 <= j < |users| ==>
        if users[j].email == email.value then r[j] == users[j].(password := newPassword)
        else r[j] == users[j]
  {
    var f := UserWithEmail(email.value);
    var k := IndexWhere(users, f);
    assert f(users[k]);
  }
}
