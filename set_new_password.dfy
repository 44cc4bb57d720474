/**
 * frontend/src/pages/SetNewPassword.tsx: the checks `handleSubmit` runs, in
 * order, before it asks the backend to reset the password.
 */
module SetNewPasswordPage {

  const FillIn := "Please fill in all fields."
  const Mismatch := "Passwords do not match."
  const TooShort := "Password must be at least 6 characters long."
  const MinLength: nat := 6

  /** `s.length`: UTF-16 code units, so a character outside the Basic Multilingual Plane counts twice. */
  function Utf16Length(s: string): (n: nat)
    ensures |s| <= n <= 2 * |s|
  {
    if s == [] then 0 else (if s[0] as int > 0xFFFF then 2 else 1) + Utf16Length(s[1..])
  }

  /** What a submit does: show the first failed check, or call `resetPassword(email, code, password)`. */
  datatype Submit = Rejected(message: string) | ResetRequested(email: string, code: string, password: string)

  /** `handleSubmit`; `email` and `code` are the `location.state` values, `""` when absent. */
  function HandleSubmit(password: string, confirm: string, email: string, code: string): (r: Submit)
    ensures r == Rejected(FillIn) <==> (password == "" || confirm == "")
    ensures r == Rejected(Mismatch) <==> (password != "" && confirm != "" && password != confirm)
    ensures r == Rejected(TooShort) <==> (password != "" && password == confirm && Utf16Length(password) < MinLength)
    ensures r.Rejected? || r == ResetRequested(email, code, password)
  {
    if password == "" || confirm == "" then Rejected(FillIn)
    else if password != confirm then Rejected(Mismatch)
    else if Utf16Length(password) < MinLength then Rejected(TooShort)
    else ResetRequested(email, code, password)
  }

  /** The rule a new password must meet, stated without the order of the checks. */
  predicate Acceptable(password: string, confirm: string) {
    password == confirm && Utf16Length(password) >= MinLength
  }

  /** The backend is called exactly for acceptable passwords, and with the password typed. */
  lemma ResetOnlyWhenAcceptable(password: string, confirm: string, email: string, code: string)
    ensures HandleSubmit(password, confirm, email, code).ResetRequested? <==> Acceptable(password, confirm)
    ensures HandleSubmit(password, confirm, email, code).ResetRequested? ==>
      HandleSubmit(password, confirm, email, code).password == password
  {
    if password == "" {
      assert Utf16Length(password) == 0;
    }
  }

  /** Only the first failure is reported: an empty confirmation hides a short password, a mismatch hides a short one. */
  lemma FirstFailureWins()
    ensures HandleSubmit("abc", "", "", "") == Rejected(FillIn)
    ensures HandleSubmit("abc", "abd", "", "") == Rejected(Mismatch)
  {
  }

  /** Three characters outside the Basic Multilingual Plane pass the length check although only three are typed. */
  lemma AstralCharactersCountTwice()
    ensures Utf16Length("\U{1F600}\U{1F600}\U{1F600}") == 6
    ensures HandleSubmit("\U{1F600}\U{1F600}\U{1F600}", "\U{1F600}\U{1F600}\U{1F600}", "", "").ResetRequested?
  {
  }
}
