/** The mock sign-in: three demo accounts, a first-match credential lookup
    that drops the password from the record it returns, and the session's
    current user. */
module AuthContext {
  import opened Seqs
  import opened Types

  /** A demo account: the user record plus its password. */
  datatype Account = Account(user: User, password: string)

  const MockAccounts: seq<Account> := [
    Account(User("1", "finance@company.com", "Sarah Chen", FinanceHead, "Finance", None), "finance123"),
    Account(User("2", "hr@company.com", "Michael Torres", HrAdmin, "Human Resources", None), "hr123"),
    Account(User("3", "employee@company.com", "Alex Johnson", Employee, "Engineering", None), "emp123")
  ]

  predicate Matches(a: Account, email: string, password: string) {
    a.user.email == email && a.password == password
  }

  /** `Array.prototype.find`: the position of the first matching account. */
  function FindAccount(accounts: seq<Account>, email: string, password: string): (r: Option<nat>)
    ensures r.Some? ==> r.value < |accounts| && Matches(accounts[r.value], email, password)
    ensures r.Some? ==> forall j :: 0 <= j < r.value ==> !Matches(accounts[j], email, password)
    ensures r.None? ==> forall j :: 0 <= j < |accounts| ==> !Matches(accounts[j], email, password)
  {
    if accounts == [] then None
    else if Matches(accounts[0], email, password) then Some(0)
    else
      match FindAccount(accounts[1..], email, password)
      case None => None
      case Some(k) => Some(k + 1)
  }

  /** The user a login with these credentials signs in, without the
      password. */
  function Authenticate(email: string, password: string): Option<User> {
    match FindAccount(MockAccounts, email, password)
    case None => None
    case Some(i) => Some(MockAccounts[i].user)
  }

  /** A login succeeds exactly when some demo account has both the email and
      the password, and then signs in the first such account's user. */
  lemma AuthenticateIff(email: string, password: string)
    ensures Authenticate(email, password).Some? <==>
            exists i :: 0 <= i < |MockAccounts| && Matches(MockAccounts[i], email, password)
    ensures Authenticate(email, password).Some? ==>
            exists i :: 0 <= i < |MockAccounts| && Matches(MockAccounts[i], email, password) &&
                        Authenticate(email, password).value == MockAccounts[i].user &&
                        forall j :: 0 <= j < i ==> !Matches(MockAccounts[j], email, password)
  {
    var r := FindAccount(MockAccounts, email, password);
    if r.Some? {
      assert Matches(MockAccounts[r.value], email, password);
    }
  }

  /** Each demo account signs in as its own user, and a wrong password for
      its email does not. */
  lemma DemoAccounts(k: nat, wrong: string)
    requires k < |MockAccounts| && wrong != MockAccounts[k].password
    ensures Authenticate(MockAccounts[k].user.email, MockAccounts[k].password) == Some(MockAccounts[k].user)
    ensures Authenticate(MockAccounts[k].user.email, wrong) == None
  {
    var a := MockAccounts[k];
    var f := FindAccount(MockAccounts, a.user.email, a.password);
    assert f == Some(k);
    var g := FindAccount(MockAccounts, a.user.email, wrong);
    assert g.None?;
  }

  const InvalidCredentials := "Invalid email or password"

  datatype LoginResult = LoginResult(success: bool, error: Option<string>)

  /** The signed-in user. */
  class AuthSession {
    var user: Option<User>

    constructor ()
      ensures user == None
    {
      user := None;
    }

    /** `isAuthenticated`. */
    function IsAuthenticated(): bool
      reads this
    {
      user.Some?
    }

    /** `login`: on a match the user becomes that account's record without
        the password; otherwise the result carries the error and the user is
        left as it was. */
    method Login(email: string, password: string) returns (result: LoginResult)
      modifies this
      ensures result.success <==> Authenticate(email, password).Some?
      ensures result.success ==> user == Authenticate(email, password) && result.error == None && IsAuthenticated()
      ensures !result.success ==> user == old(user) && result.error == Some(InvalidCredentials)
    {
      var found := Authenticate(email, password);
      if found.Some? {
        user := found;
        return LoginResult(true, None);
      }
      return LoginResult(false, Some(InvalidCredentials));
    }

    /** `logout`. */
    method Logout()
      modifies this
      ensures user == None && !IsAuthenticated()
    {
      user := None;
    }
  }
}
