/** The sign-in page: its two field validators and what a successful sign-in
    leaves behind. */
module Login {
  import opened Base
  import opened Text
  import opened Entities
  import opened Storage
  import UserReducer
  import opened AppStore

  const InvalidEmail := "Invalid email format"
  const PasswordTooShort := "Password must be at least 6 characters long"

  /** The test `/^\S+@\S+\.\S+$/` performs: no whitespace anywhere, an `@`
      after at least one character, and a later `.` with at least one
      character between them and at least one after it. */
  predicate ValidEmail(s: string) {
    (forall k :: 0 <= k < |s| ==> !IsSpace(s[k])) &&
    exists i, j :: 0 < i && i + 1 < j && j + 1 < |s| && s[i] == '@' && s[j] == '.'
  }

  /** A non-empty run of non-whitespace characters (`\S+`). */
  ghost predicate NonSpaceRun(x: string) {
    |x| >= 1 && forall k :: 0 <= k < |x| ==> !IsSpace(x[k])
  }

  /** The pattern read literally: three non-whitespace runs joined by `@`
      and `.`. */
  ghost predicate MatchesEmailPattern(s: string) {
    exists a, b, c :: NonSpaceRun(a) && NonSpaceRun(b) && NonSpaceRun(c) && s == a + "@" + b + "." + c
  }

  /** The positional test accepts exactly the strings the pattern
      matches. */
  lemma EmailTestMatchesPattern(s: string)
    ensures ValidEmail(s) <==> MatchesEmailPattern(s)
  {
    if ValidEmail(s) {
      var i, j :| 0 < i && i + 1 < j && j + 1 < |s| && s[i] == '@' && s[j] == '.';
      var a, b, c := s[..i], s[i + 1..j], s[j + 1..];
      assert s == a + "@" + b + "." + c;
      assert NonSpaceRun(a) && NonSpaceRun(b) && NonSpaceRun(c);
    }
    if MatchesEmailPattern(s) {
      var a, b, c :| NonSpaceRun(a) && NonSpaceRun(b) && NonSpaceRun(c) && s == a + "@" + b + "." + c;
      var i, j := |a|, |a| + 1 + |b|;
      assert s[i] == '@' && s[j] == '.';
      forall k | 0 <= k < |s|
        ensures !IsSpace(s[k])
      {
        if k < i {
          assert s[k] == a[k];
        } else if i < k < j {
          assert s[k] == b[k - i - 1];
        } else if j < k {
          assert s[k] == c[k - j - 1];
        }
      }
    }
  }

  /** The email validator. */
  function ValidateEmail(value: string): (error: Option<string>)
    ensures error.None? <==> MatchesEmailPattern(value)
    ensures error.Some? ==> error.value == InvalidEmail
  {
    EmailTestMatchesPattern(value);
    if ValidEmail(value) then None else Some(InvalidEmail)
  }

  /** The password validator: a JavaScript length of at least six,
      whitespace included, so that a character outside the Basic
      Multilingual Plane counts twice. */
  function ValidatePassword(value: string): (error: Option<string>)
    ensures error.None? <==> Utf16Length(value) >= 6
    ensures error.Some? ==> error.value == PasswordTooShort
  {
    if Utf16Length(value) >= 6 then None else Some(PasswordTooShort)
  }

  /** The rule counts code units, not characters: three characters above
      the Basic Multilingual Plane (three emoji, say) pass it, three
      ordinary letters do not. */
  lemma PasswordCountsCodeUnits(value: string)
    requires |value| == 3
    ensures (forall k :: 0 <= k < 3 ==> value[k] as int >= 0x10000) ==> ValidatePassword(value).None?
    ensures (forall k :: 0 <= k < 3 ==> value[k] as int < 0x10000) ==> ValidatePassword(value).Some?
  {
    Utf16LengthOfAstral(value);
    Utf16LengthOfBmp(value);
  }

  /** The body of a successful sign-in or sign-up. */
  datatype AuthBody = AuthBody(token: string, user: User)

  /** Where a completed sign-in goes: the `prevUrl` a guarded route left in
      the location state when it is non-empty, else the home page. */
  function AfterSignIn(prevUrl: Option<string>): (target: string)
    ensures Truthy(prevUrl) ==> target == prevUrl.value
    ensures !Truthy(prevUrl) ==> target == "/"
    ensures target != ""
  {
    OrElse(prevUrl, "/")
  }

  /** A sign-in the server accepted stores the token, makes its user the
      store's user and navigates on; a refused one changes nothing. */
  method HandleLogin(storage: LocalStorage, store: Store, prevUrl: Option<string>, reply: Reply<AuthBody>)
    returns (navigateTo: Option<string>)
    modifies storage, store`user
    ensures reply.Ok? ==>
      && storage.data == old(storage.data)[TokenKey := reply.value.token]
      && store.user.user == Some(reply.value.user)
      && navigateTo == Some(AfterSignIn(prevUrl))
    ensures reply.Failed? ==>
      storage.data == old(storage.data) && store.user == old(store.user) && navigateTo.None?
  {
    navigateTo := None;
    if reply.Ok? {
      storage.SetData(TokenKey, reply.value.token);
      store.DispatchUser(UserReducer.SetUserData(Some(reply.value.user)));
      navigateTo := Some(AfterSignIn(prevUrl));
    }
  }
}
