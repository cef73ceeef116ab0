/** The signup screen of src/components/auth/Signup.tsx: the password
    strength meter and the submit handler. */
module Signup {
  import opened Types
  import JsText
  import Storage
  import CsvUtils
  import AuthContext

  /** The four conditions the meter counts. */
  predicate LongEnough(p: string) { JsText.Length(p) >= 6 }
  predicate MixedCase(p: string) { JsText.HasLower(p) && JsText.HasUpper(p) }
  predicate HasDigit(p: string) { JsText.HasDigit(p) }
  predicate HasSymbol(p: string) { JsText.HasSymbol(p) }

  function Count(b: bool): nat { if b then 1 else 0 }

  /** How many of the four conditions hold. */
  function Score(p: string): (score: nat)
    ensures score <= 4
  {
    Count(LongEnough(p)) + Count(MixedCase(p)) + Count(HasDigit(p)) + Count(HasSymbol(p))
  }

  /** `getPasswordStrength(password)`: four tests, each adding one. */
  method GetPasswordStrength(password: string) returns (strength: nat)
    ensures strength == Score(password)
    ensures strength <= 4
    ensures strength == 4 <==>
              LongEnough(password) && MixedCase(password) && HasDigit(password) && HasSymbol(password)
    ensures strength == 0 <==>
              !LongEnough(password) && !MixedCase(password) && !HasDigit(password) && !HasSymbol(password)
  {
    strength := 0;
    if JsText.Length(password) >= 6 {
      strength := strength + 1;
    }
    if JsText.HasLower(password) && JsText.HasUpper(password) {
      strength := strength + 1;
    }
    if JsText.HasDigit(password) {
      strength := strength + 1;
    }
    if JsText.HasSymbol(password) {
      strength := strength + 1;
    }
  }

  /** Typing more characters never lowers the score. */
  lemma ScoreMonotone(p: string, q: string)
    ensures Score(p) <= Score(p + q)
  {
    JsText.LengthAppend(p, q);
    var pq := p + q;
    assert forall i :: 0 <= i < |p| ==> pq[i] == p[i];
    if JsText.HasLower(p) {
      var i :| 0 <= i < |p| && JsText.IsLower(p[i]);
      assert JsText.IsLower(pq[i]);
    }
    if JsText.HasUpper(p) {
      var i :| 0 <= i < |p| && JsText.IsUpper(p[i]);
      assert JsText.IsUpper(pq[i]);
    }
    if JsText.HasDigit(p) {
      var i :| 0 <= i < |p| && JsText.IsDigit(p[i]);
      assert JsText.IsDigit(pq[i]);
    }
    if JsText.HasSymbol(p) {
      var i :| 0 <= i < |p| && !JsText.IsLower(p[i]) && !JsText.IsUpper(p[i]) && !JsText.IsDigit(p[i]);
      assert !JsText.IsLower(pq[i]) && !JsText.IsUpper(pq[i]) && !JsText.IsDigit(pq[i]);
    }
  }

  const StrengthLabels: seq<string> := ["Very Weak", "Weak", "Fair", "Good", "Strong"]
  const StrengthColors: seq<string> := ["bg-red-500", "bg-orange-500", "bg-yellow-500", "bg-blue-500", "bg-green-500"]
  const TooShort := "Too Short"
  const NoColor := "bg-gray-300"

  /** `strengthLabels[score - 1] || 'Too Short'`: an index outside the list
      reads `undefined`. */
  function StrengthLabel(score: int): (l: string)
    ensures 1 <= score <= |StrengthLabels| ==> l == StrengthLabels[score - 1]
    ensures !(1 <= score <= |StrengthLabels|) ==> l == TooShort
  {
    if 1 <= score <= |StrengthLabels| then StrengthLabels[score - 1] else TooShort
  }

  /** `strengthColors[score - 1] || 'bg-gray-300'`. */
  function StrengthColor(score: int): (c: string)
    ensures 1 <= score <= |StrengthColors| ==> c == StrengthColors[score - 1]
    ensures !(1 <= score <= |StrengthColors|) ==> c == NoColor
  {
    if 1 <= score <= |StrengthColors| then StrengthColors[score - 1] else NoColor
  }

  /** The meter under the password field: shown only for a non-empty
      password, as a label and a bar colour. */
  datatype Meter = Meter(text: string, color: string)

  function Indicator(password: string): (m: Option<Meter>)
    ensures m.Some? <==> password != ""
    ensures m.Some? ==> m.value == Meter(StrengthLabel(Score(password)), StrengthColor(Score(password)))
  {
    if password == "" then None
    else Some(Meter(StrengthLabel(Score(password)), StrengthColor(Score(password))))
  }

  /** 'Too Short' is shown exactly for a score of 0, and then the password
      is shorter than six units; otherwise the k-th label is shown. */
  lemma LabelOfScore(p: string)
    ensures StrengthLabel(Score(p)) == TooShort <==> Score(p) == 0
    ensures Score(p) >= 1 ==> StrengthLabel(Score(p)) == StrengthLabels[Score(p) - 1]
    ensures StrengthLabel(Score(p)) == TooShort ==> JsText.Length(p) < 6
  {
  }

  /** The score stops at 4, so the fifth label and colour never show: the
      strongest password reads 'Good' in blue. */
  lemma StrongNeverShown(p: string)
    ensures StrengthLabel(Score(p)) != "Strong"
    ensures StrengthColor(Score(p)) != "bg-green-500"
  {
    assert Score(p) <= 4;
  }

  /** `result.error || 'Signup failed'`. */
  function ShownError(e: string): (shown: string)
    ensures shown != ""
    ensures e != "" ==> shown == e
  {
    if e != "" then e else "Signup failed"
  }

  /** Every rejection the provider reports carries its own text, so the
      fallback text is never the one shown. */
  lemma RejectionTextShown(data: SignupData, users: seq<User>)
    requires AuthContext.SignupRejection(data, users).Some?
    ensures ShownError(AuthContext.SignupRejection(data, users).value)
            == AuthContext.SignupRejection(data, users).value
  {
  }

  datatype Field = Username | Password | ConfirmPassword

  class SignupForm {
    var formData: SignupData
    var error: string
    var isLoading: bool
    const auth: AuthContext.AuthProvider

    constructor (auth: AuthContext.AuthProvider)
      ensures formData == SignupData("", "", "") && error == "" && !isLoading
      ensures this.auth == auth
    {
      formData := SignupData("", "", "");
      error := "";
      isLoading := false;
      this.auth := auth;
    }

    /** `handleInputChange`: only the edited field changes. */
    method HandleInputChange(field: Field, value: string)
      modifies this
      ensures formData == match field
                          case Username => old(formData).(username := value)
                          case Password => old(formData).(password := value)
                          case ConfirmPassword => old(formData).(confirmPassword := value)
      ensures error == old(error) && isLoading == old(isLoading)
    {
      match field
      case Username => formData := formData.(username := value);
      case Password => formData := formData.(password := value);
      case ConfirmPassword => formData := formData.(confirmPassword := value);
    }

    /** `handleSubmit`: the error is cleared, the provider's signup runs, a
        failure shows its text, and loading ends false. */
    method HandleSubmit(id: string, createdAt: string) returns (r: Outcome)
      modifies this, auth, auth.storage
      ensures formData == old(formData)
      ensures var e := AuthContext.SignupRejection(old(formData),
                         CsvUtils.LoadedUsers(old(auth.storage.items), auth.loadedAt));
              (e.None? ==> r == Success && error == "")
              && (e.Some? ==> r == Failure(e.value) && error == e.value)
      ensures var users := CsvUtils.LoadedUsers(old(auth.storage.items), auth.loadedAt);
              var e := AuthContext.SignupRejection(old(formData), users);
              e.Some? ==> auth.state == old(auth.state)
      ensures var d := old(formData);
              (d.password != d.confirmPassword || JsText.Length(d.password) < 6) ==>
                auth.storage.items == old(auth.storage.items)
      ensures var d := old(formData);
              var users := CsvUtils.LoadedUsers(old(auth.storage.items), auth.loadedAt);
              var loaded := CsvUtils.AfterLoadUsers(old(auth.storage.items), auth.loadedAt);
              (d.password == d.confirmPassword && JsText.Length(d.password) >= 6
               && AuthContext.Taken(users, d.username)) ==> auth.storage.items == loaded
      ensures var users := CsvUtils.LoadedUsers(old(auth.storage.items), auth.loadedAt);
              var loaded := CsvUtils.AfterLoadUsers(old(auth.storage.items), auth.loadedAt);
              var u := AuthContext.NewUser(old(formData), id, createdAt);
              AuthContext.SignupRejection(old(formData), users) == None ==>
                auth.state == AuthState(Some(u), true, false)
                && auth.storage.items == CsvUtils.SavedUsers(loaded, users + [u])[Storage.SessionKey := Storage.Json(Storage.UserRecord(u))]
      ensures !isLoading
    {
      error := "";
      isLoading := true;
      r := auth.Signup(formData, id, createdAt);
      if r.Failure? {
        error := ShownError(r.error);
      }
      isLoading := false;
    }
  }
}
