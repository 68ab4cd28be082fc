/** The login page: a user table seeded with one admin and one customer,
    a login form that looks a user up by email and password and records the
    session, and a signup form that appends customers. */
module Login {
  import opened Wrappers
  import opened Seqs
  import opened Records
  import opened Accounts

  /** The table used when storage holds none. */
  const SeedUsers: seq<User> := [
    User("admin@bigfoot.com", "adminpassword", "admin", "Big Foot Admin"),
    User("user@example.com", "userpassword", "customer", "Demo User")
  ]

  lemma SeedEmailsDistinct()
    ensures DistinctEmails(SeedUsers)
  {
    assert SeedUsers[0].email[0] != SeedUsers[1].email[0];
  }

  function WithCredentials(email: string, password: string): User -> bool {
    (u: User) => u.email == email && u.password == password
  }

  /** The four session keys a successful login writes. */
  function SessionFor(u: User): Session {
    Session(Some("true"), Some(u.role), Some(u.name), Some(u.email))
  }

  /** Admins go to the admin console, everyone else to the storefront. */
  function Destination(role: string): (page: string)
    ensures page == "admin_side.html" <==> role == "admin"
    ensures page == "client_side.html" <==> role != "admin"
  {
    if role == "admin" then "admin_side.html" else "client_side.html"
  }

  /** Login finds a user exactly when some user has both the email and the
      password. */
  lemma LoginSucceedsIff(users: seq<User>, email: string, password: string)
    ensures IndexWhere(users, WithCredentials(email, password)) >= 0 <==>
      exists u :: u in users && u.email == email && u.password == password
  {
    var f := WithCredentials(email, password);
    if exists u :: u in users && u.email == email && u.password == password {
      var u :| u in users && u.email == email && u.password == password;
      var k :| 0 <= k < |users| && users[k] == u;
      assert f(users[k]);
    }
  }

  datatype SignupOutcome = PasswordMismatch | EmailTaken | Created

  datatype Registration = Registration(outcome: SignupOutcome, users: seq<User>)

  /** The signup form: the password must equal its confirmation, the email
      must be new, and the user is appended as a customer. */
  function Register(users: seq<User>, name: string, email: string,
                    password: string, confirm: string): Registration
  {
    if password != confirm then Registration(PasswordMismatch, users)
    else if IndexWhere(users, UserWithEmail(email)) >= 0 then Registration(EmailTaken, users)
    else Registration(Created, users + [User(email, password, "customer", name)])
  }

  lemma RegisterOutcomes(users: seq<User>, name: string, email: string,
                         password: string, confirm: string)
    ensures var r := Register(users, name, email, password, confirm);
      (r.outcome == PasswordMismatch <==> password != confirm) &&
      (r.outcome == EmailTaken <==>
        password == confirm && exists u :: u in users && u.email == email) &&
      (r.outcome == Created ==> r.users == users + [User(email, password, "customer", name)]) &&
      (r.outcome != Created ==> r.users == users)
  {
    var f := UserWithEmail(email);
    if exists u :: u in users && u.email == email {
      var u :| u in users && u.email == email;
      var k :| 0 <= k < |users| && users[k] == u;
      assert f(users[k]);
    }
  }

  /** Signup keeps emails distinct: the seed table starts that way, and a new
      user is only appended when its email is new. */
  lemma RegisterPreservesDistinct(users: seq<User>, name: string, email: string,
                                  password: string, confirm: string)
    requires DistinctEmails(users)
    ensures DistinctEmails(Register(users, name, email, password, confirm).users)
  {
    var f := UserWithEmail(email);
    if password == confirm && IndexWhere(users, f) < 0 {
      var r := users + [User(email, password, "customer", name)];
      forall i | 0 <= i < |users| ensures users[i].email != email {
        assert !f(users[i]);
      }
      assert forall i :: 0 <= i < |users| ==> r[i] == users[i];
    }
  }

  /** A password changed on the storefront is the one the login form accepts
      next, for the same email. */
  lemma NewPasswordLogsIn(users: seq<User>, email: Option<string>,
                          current: string, newPassword: string, confirm: string)
    requires ChangePassword(users, email, current, newPassword, confirm).outcome == Changed
    ensures var r := ChangePassword(users, email, current, newPassword, confirm).users;
      IndexWhere(r, WithCredentials(email.value, newPassword)) >= 0
  {
    var r := ChangePassword(users, email, current, newPassword, confirm).users;
    var k := IndexWhere(users, UserWithEmail(email.value));
    assert UserWithEmail(email.value)(users[k]);
    assert r[k] in r;
    LoginSucceedsIff(r, email.value, newPassword);
  }

  class LoginPage {
    var users: seq<User>
    var session: Session

    /** Page load: the stored table, or the seed table when none is stored. */
    constructor (stored: Option<seq<User>>, session: Session)
      ensures users == Stored(stored, SeedUsers) && this.session == session
    {
      users := Stored(stored, SeedUsers);
      this.session := session;
    }

    /** Login form submit: on a match the session holds the matched user's
        role, name and email and the page to go to is returned; otherwise
        nothing changes. */
    method Login(email: string, password: string) returns (destination: Option<string>)
      modifies this`session
      ensures destination.Some? <==> exists u :: u in users && u.email == email && u.password == password
      ensures var k := IndexWhere(users, WithCredentials(email, password));
        if k >= 0 then session == SessionFor(users[k]) && destination == Some(Destination(users[k].role))
        else session == old(session)
    {
      LoginSucceedsIff(users, email, password);
      var k := FindIndex(users, WithCredentials(email, password));
      if k >= 0 {
        var user := users[k];
        session := SessionFor(user);
        destination := Some(Destination(user.role));
      } else {
        destination := None;
      }
    }

    /** Signup form submit. */
    method SignUp(name: string, email: string, password: string, confirm: string)
      returns (outcome: SignupOutcome)
      modifies this`users
      ensures Register(old(users), name, email, password, confirm) == Registration(outcome, users)
      ensures DistinctEmails(old(users)) ==> DistinctEmails(users)
    {
      if DistinctEmails(users) {
        RegisterPreservesDistinct(users, name, email, password, confirm);
      }
      if password != confirm {
        return PasswordMismatch;
      }
      var k := FindIndex(users, UserWithEmail(email));
      if k >= 0 {
        return EmailTaken;
      }
      users := users + [User(email, password, "customer", name)];
      outcome := Created;
    }
  }
}
