/**
 * The demo login form: it derives a display name from the e-mail address
 * (the part before the first '@', first letter upper-cased) and records the
 * user as logged in. The password field is never read.
 */
module Login {
  import opened JsStrings

  /** `email.split('@')[0]`: the part of the address before its first '@'. */
  function Username(email: string): (u: string)
    ensures u == email[..FirstIndexOf(email, '@')]
    ensures '@' !in u
    ensures u <= email
    ensures '@' !in email ==> u == email
  {
    SplitFirstPiece(email, '@');
    Split(email, '@')[0]
  }

  /** `username.charAt(0).toUpperCase() + username.slice(1)`. */
  function DisplayName(username: string): (r: string)
    ensures |r| == |username|
    ensures username == [] ==> r == []
    ensures username != [] ==> r[0] == UpperChar(username[0]) && r[1..] == username[1..]
  {
    if username == [] then [] else [UpperChar(username[0])] + username[1..]
  }

  /** The display name differs from the username at most in the case of its first letter. */
  lemma DisplayNameKeepsLetters(username: string)
    ensures ToLower(DisplayName(username)) == ToLower(username)
  {
    var r := DisplayName(username);
    forall i | 0 <= i < |username| ensures ToLower(r)[i] == ToLower(username)[i] {
      if i == 0 {
        assert LowerChar(UpperChar(username[0])) == LowerChar(username[0]);
      }
    }
  }

  /** Capitalising twice is capitalising once. */
  lemma DisplayNameIdempotent(username: string)
    ensures DisplayName(DisplayName(username)) == DisplayName(username)
  {
  }

  /** What `handleLogin` leaves behind: the two stored values, the greeting and the next page. */
  datatype LoginEffects = LoginEffects(isLoggedIn: string, userName: string, greeting: string, navigateTo: string)

  /** `handleLogin`: the password is a parameter only to show that nothing depends on it. */
  function HandleLogin(email: string, password: string): (r: LoginEffects)
    ensures r.isLoggedIn == "true" && r.navigateTo == "/dashboard"
    ensures r.userName == DisplayName(Username(email))
    ensures r.greeting == "Welcome back, " + r.userName + "!"
  {
    var displayName := DisplayName(Username(email));
    LoginEffects("true", displayName, "Welcome back, " + displayName + "!", "/dashboard")
  }

  /** Any password logs in, and two passwords for the same address have the same effect. */
  lemma PasswordIgnored(email: string, p: string, q: string)
    ensures HandleLogin(email, p) == HandleLogin(email, q)
    ensures HandleLogin(email, p).isLoggedIn == "true"
  {
  }

  /** An address starting with '@' yields an empty display name. */
  lemma EmptyUsernameGivesEmptyName(email: string)
    requires email != [] && email[0] == '@'
    ensures Username(email) == "" && HandleLogin(email, "").userName == ""
  {
  }

  lemma UsernameExample()
    ensures Username("jane.doe@example.com") == "jane.doe"
  {
    var email := "jane.doe@example.com";
    assert email[8] == '@';
    assert forall j :: 0 <= j < 8 ==> email[j] != '@';
    assert email[..8] == "jane.doe";
  }

  lemma DisplayNameExample()
    ensures DisplayName("jane.doe") == "Jane.doe"
  {
    assert UpperChar('j') == 'J';
    assert "jane.doe"[1..] == "ane.doe";
    assert ['J'] + "ane.doe" == "Jane.doe";
  }
}
