/** The sign-up page: five field validators and the same completion as
    sign-in. The three length rules all report the password message. */
module Signup {
  import opened Base
  import opened Text
  import opened Storage
  import Login
  import opened AppStore

  /** The message every length rule of this form reports. */
  const LengthMessage := Login.PasswordTooShort

  /** A length rule: a JavaScript length (UTF-16 code units) of at least
      `min`, whitespace included. */
  function MinLength(value: string, min: nat): (error: Option<string>)
    ensures error.None? <==> Utf16Length(value) >= min
    ensures error.Some? ==> error.value == LengthMessage
  {
    if Utf16Length(value) >= min then None else Some(LengthMessage)
  }

  function ValidateFirstName(value: string): (error: Option<string>)
    ensures error.None? <==> Utf16Length(value) >= 3
    ensures error.Some? ==> error.value == Login.PasswordTooShort
  {
    MinLength(value, 3)
  }

  function ValidateLastName(value: string): (error: Option<string>)
    ensures error.None? <==> Utf16Length(value) >= 3
    ensures error.Some? ==> error.value == Login.PasswordTooShort
  {
    MinLength(value, 3)
  }

  /** The contact number: a JavaScript length of ten, characters of any
      kind. */
  function ValidatePhone(value: string): (error: Option<string>)
    ensures error.None? <==> Utf16Length(value) >= 10
    ensures error.Some? ==> error.value == Login.PasswordTooShort
  {
    MinLength(value, 10)
  }

  /** The email and password rules are the sign-in page's. */
  function ValidateEmail(value: string): (error: Option<string>)
    ensures error.None? <==> Login.MatchesEmailPattern(value)
    ensures error.Some? ==> error.value == Login.InvalidEmail
  {
    Login.ValidateEmail(value)
  }

  function ValidatePassword(value: string): (error: Option<string>)
    ensures error.None? <==> Utf16Length(value) >= 6
    ensures error.Some? ==> error.value == Login.PasswordTooShort
  {
    Login.ValidatePassword(value)
  }

  /** A sign-up the server accepted completes exactly like a sign-in. */
  method HandleSignup(storage: LocalStorage, store: Store, prevUrl: Option<string>, reply: Reply<Login.AuthBody>)
    returns (navigateTo: Option<string>)
    modifies storage, store`user
    ensures reply.Ok? ==>
      && storage.data == old(storage.data)[TokenKey := reply.value.token]
      && store.user.user == Some(reply.value.user)
      && navigateTo == Some(Login.AfterSignIn(prevUrl))
    ensures reply.Failed? ==>
      storage.data == old(storage.data) && store.user == old(store.user) && navigateTo.None?
  {
    navigateTo := Login.HandleLogin(storage, store, prevUrl, reply);
  }
}
