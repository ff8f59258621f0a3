/** The login form: a role guessed from the e-mail text, a display name, and the
    `User` record handed to the root component when the form is submitted. */
module LoginPage {
  import opened Common
  import opened App

  /** `determineRole`: "admin" is checked before "driver"; everything else is a user.
      The tests are case-sensitive substring tests. */
  function DetermineRole(email: string): (r: Role)
    ensures Contains(email, "admin") ==> r == RoleAdmin
    ensures r == RoleAdmin ==> Contains(email, "admin")
    ensures r == RoleDriver <==> !Contains(email, "admin") && Contains(email, "driver")
    ensures r == RoleUser <==> !Contains(email, "admin") && !Contains(email, "driver")
  {
    if Contains(email, "admin") then RoleAdmin
    else if Contains(email, "driver") then RoleDriver
    else RoleUser
  }

  /** `email.split('@')[0]`: the text before the first '@', or all of it. */
  function BeforeAt(email: string): (r: string)
    ensures IsPrefix(r, email)
    ensures '@' !in r
    ensures r == email || email[|r|] == '@'
  {
    if email == [] || email[0] == '@' then []
    else [email[0]] + BeforeAt(email[1..])
  }

  /** `name || email.split('@')[0]`. */
  function UserName(name: string, email: string): (r: string)
    ensures name != "" ==> r == name
    ensures name == "" ==> IsPrefix(r, email) && '@' !in r
  {
    if name != "" then name else BeforeAt(email)
  }

  /** `handleSubmit`: the `User` passed to `onLogin`, or `None` when the guard stops it.
      The password is only checked for being non-empty. */
  function Submit(email: string, password: string, name: string): (r: Option<User>)
    ensures r.None? <==> email == "" || password == ""
    ensures r.Some? ==> r.value.email == email
    ensures r.Some? ==> r.value.role == Some(DetermineRole(email))
    ensures r.Some? ==> r.value.name == UserName(name, email)
  {
    if email != "" && password != "" then
      Some(User(UserName(name, email), email, Some(DetermineRole(email))))
    else None
  }

  /** The role never depends on the password, and no submitted role is null. */
  lemma PasswordIrrelevant(email: string, p1: string, p2: string, name: string)
    requires p1 != "" && p2 != ""
    ensures Submit(email, p1, name) == Submit(email, p2, name)
    ensures email != "" ==> Submit(email, p1, name).Some? && Submit(email, p1, name).value.role.Some?
  {
  }

  /** Matching is case-sensitive: an upper-case "Admin" is not "admin". */
  lemma {:induction false} CapitalisedAdminIsUser()
    ensures DetermineRole("Admin@x") == RoleUser
  {
    var e := "Admin@x";
    forall i | 0 <= i <= |e| ensures !IsPrefix("admin", e[i..]) {
      if i <= 2 {
        assert e[i..][..5] != "admin" by {
          if i == 0 { assert e[i..][0] == 'A'; }
          else if i == 1 { assert e[i..][0] == 'd'; }
          else { assert e[i..][0] == 'm'; }
        }
      }
    }
    forall i | 0 <= i <= |e| ensures !IsPrefix("driver", e[i..]) {
      if i <= 1 {
        assert e[i..][..6] != "driver" by {
          if i == 0 { assert e[i..][0] == 'A'; }
          else { assert e[i..][1] == 'm'; }
        }
      }
    }
  }

  /** An address without '@' is its own local part. */
  lemma {:induction false} BeforeAtWithoutAt(email: string)
    requires '@' !in email
    ensures BeforeAt(email) == email
  {
    if email != [] {
      assert forall c :: c in email[1..] ==> c in email;
      BeforeAtWithoutAt(email[1..]);
    }
  }

  /** The local part is the text before the first '@', whatever follows it. */
  lemma {:induction false} BeforeAtFirstAt(local: string, rest: string)
    requires '@' !in local
    ensures BeforeAt(local + "@" + rest) == local
  {
    if local == [] {
      assert (local + "@" + rest)[0] == '@';
    } else {
      assert (local + "@" + rest)[1..] == local[1..] + "@" + rest;
      BeforeAtFirstAt(local[1..], rest);
    }
  }

  /** The name falls back to the local part of the address. */
  lemma NameFromAddress()
    ensures UserName("", "maria@lakbay.com") == "maria"
    ensures UserName("", "no-at-sign") == "no-at-sign"
  {
    assert "maria@lakbay.com" == "maria" + "@" + "lakbay.com";
    BeforeAtFirstAt("maria", "lakbay.com");
    BeforeAtWithoutAt("no-at-sign");
  }

  /** A successful submit, fed to `handleLogin`, always lands on a dashboard. */
  lemma SubmitLandsOnDashboard(email: string, password: string, name: string)
    requires email != "" && password != ""
    ensures Submit(email, password, name).Some?
    ensures var u := Submit(email, password, name).value;
      LoginTarget(u.role).Some? &&
      RenderPage(LoginTarget(u.role).value) in {UserDashboardView, DriverDashboardView, AdminDashboardView}
  {
  }
}
