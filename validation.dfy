/** The field rules shared by the sign-up and forgot-password screens, and
    JavaScript's truthiness of a text field. */
module Validation {
  import opened Text

  /** `!!s` for a string: only the empty string is falsy. No trimming. */
  predicate Filled(s: string): (r: bool)
    ensures r <==> s != []
  {
    |s| > 0
  }

  const MinPasswordLength: nat := 8

  /** The password-too-short flag: raised once something is typed and its
      `length`, in UTF-16 code units, is below eight. */
  function PasswordError(password: string): (r: bool)
    ensures r <==> password != [] && JsLength(password) <= 7
    ensures password == [] ==> !r
    ensures |password| >= MinPasswordLength ==> !r
  {
    password != [] && JsLength(password) < MinPasswordLength
  }

  /** Four characters past U+FFFF are eight code units: the password is long
      enough although it has only four characters. */
  lemma AstralPasswordLongEnough()
    ensures var password := "\U{1F600}\U{1F600}\U{1F600}\U{1F600}";
      |password| == 4 && JsLength(password) == 8 && !PasswordError(password)
  {
    var e := "\U{1F600}";
    assert JsLength(e) == 2 by { assert e[1..] == []; }
    JsLengthConcat(e, e);
    assert "\U{1F600}\U{1F600}\U{1F600}\U{1F600}" == (e + e) + (e + e);
    JsLengthConcat(e + e, e + e);
  }

  /** A password of at most seven characters, all within U+FFFF, is flagged. */
  lemma ShortBmpPasswordFlagged(password: string)
    requires 1 <= |password| <= 7
    requires forall i :: 0 <= i < |password| ==> InBmp(password[i])
    ensures PasswordError(password)
  {
    JsLengthBmp(password);
  }

  /** The confirm-mismatch flag: raised once a confirmation is typed that is not,
      character for character, the password. */
  function ConfirmError(password: string, confirmedPassword: string): (r: bool)
    ensures r <==> confirmedPassword != [] && confirmedPassword != password
    ensures confirmedPassword == password ==> !r
  {
    |confirmedPassword| > 0 && confirmedPassword != password
  }
}
