/** The registration form of src/pages/RegisterPage.tsx: the five password
    strength criteria, the score and its text and colour, the form state, and
    the order of the checks made on submit. */
module RegisterPage {
  import opened Wrappers
  import opened Text
  import opened Navigation
  import Auth

  /** The strength flags, in the order the page declares them. */
  datatype Strength = Strength(length: bool, hasLower: bool, hasUpper: bool, hasNumber: bool, hasSpecial: bool)

  const NoStrength := Strength(false, false, false, false, false)

  /** The character class `[!@#$%^&*()_+\-=[\]{};':"\\|,.<>/?]`. */
  predicate IsSpecial(c: char) {
    c in {'!', '@', '#', '$', '%', '^', '&', '*', '(', ')', '_', '+', '-', '=', '[', ']', '{', '}',
          ';', '\'', ':', '"', '\\', '|', ',', '.', '<', '>', '/', '?'}
  }

  predicate HasLower(s: string) { exists i :: 0 <= i < |s| && IsAsciiLower(s[i]) }
  predicate HasUpper(s: string) { exists i :: 0 <= i < |s| && IsAsciiUpper(s[i]) }
  predicate HasDigit(s: string) { exists i :: 0 <= i < |s| && IsDigit(s[i]) }
  predicate HasSpecial(s: string) { exists i :: 0 <= i < |s| && IsSpecial(s[i]) }

  /** The flags computed for a password. */
  function Criteria(password: string): Strength {
    Strength(|password| >= 8, HasLower(password), HasUpper(password), HasDigit(password), HasSpecial(password))
  }

  function Count(b: bool): nat { if b then 1 else 0 }

  /** `getPasswordScore`: how many flags are set. */
  function Score(s: Strength): (n: nat)
    ensures n <= 5
    ensures n == 0 <==> s == NoStrength
    ensures n == 5 <==> s.length && s.hasLower && s.hasUpper && s.hasNumber && s.hasSpecial
  {
    Count(s.length) + Count(s.hasLower) + Count(s.hasUpper) + Count(s.hasNumber) + Count(s.hasSpecial)
  }

  /** `getPasswordStrengthText`. */
  function StrengthText(score: nat): string {
    if score == 0 then "" else if score < 3 then "Weak" else if score < 5 then "Moderate" else "Strong"
  }

  /** `getPasswordStrengthColor`. */
  function StrengthColor(score: nat): string {
    if score < 3 then "bg-red-500" else if score < 5 then "bg-yellow-500" else "bg-green-500"
  }

  /** The text and the colour agree on every score: red for no text and for
      "Weak", yellow for "Moderate", green for "Strong". */
  lemma TextMatchesColor(score: nat)
    ensures StrengthColor(score) == "bg-red-500" <==> StrengthText(score) in {"", "Weak"}
    ensures StrengthColor(score) == "bg-yellow-500" <==> StrengthText(score) == "Moderate"
    ensures StrengthColor(score) == "bg-green-500" <==> StrengthText(score) == "Strong"
  {
  }

  /** The empty password scores 0 and shows no text. */
  lemma EmptyPasswordExample()
    ensures Score(Criteria("")) == 0 && StrengthText(Score(Criteria(""))) == ""
  {
  }

  /** A password with every kind of character and eight or more of them is "Strong". */
  lemma StrongPasswordExample()
    ensures Score(Criteria("Passw0rd!")) == 5 && StrengthText(Score(Criteria("Passw0rd!"))) == "Strong"
  {
    var strong := "Passw0rd!";
    assert IsAsciiUpper(strong[0]) && IsAsciiLower(strong[1]) && IsDigit(strong[5]) && IsSpecial(strong[8]);
  }

  /** Eight lower-case letters meet only two criteria: "Weak". */
  lemma LowerCasePasswordExample()
    ensures Score(Criteria("password")) == 2 && StrengthText(Score(Criteria("password"))) == "Weak"
  {
    var weak := "password";
    assert IsAsciiLower(weak[0]);
    assert forall i | 0 <= i < |weak| :: IsAsciiLower(weak[i]);
  }

  /** The outcome of `handleSubmit`'s checks, before `register` is called. */
  function SubmitError(password: string, confirmPassword: string, strength: Strength): (r: Option<string>)
    ensures password != confirmPassword ==> r == Some("Passwords don't match")
    ensures r.None? <==> password == confirmPassword && StrengthText(Score(strength)) in {"Moderate", "Strong"}
    ensures r == Some("Please use a stronger password")
            <==> password == confirmPassword && StrengthText(Score(strength)) in {"", "Weak"}
  {
    if password != confirmPassword then Some("Passwords don't match")
    else if Score(strength) < 3 then Some("Please use a stronger password")
    else None
  }

  const InitialForm: map<string, string> := map["name" := "", "email" := "", "password" := "", "confirmPassword" := ""]

  /** The page's state. */
  class RegisterForm {
    var formData: map<string, string>
    var strength: Strength
    var error: string
    var loading: bool

    constructor ()
      ensures formData == InitialForm && strength == NoStrength && error == "" && !loading
      ensures StrengthCurrent()
    {
      formData := InitialForm;
      strength := NoStrength;
      error := "";
      loading := false;
      assert !HasLower("") && !HasUpper("") && !HasDigit("") && !HasSpecial("");
    }

    /** The value of a field, `""` when it was never set. */
    function Field(name: string): string
      reads this
    {
      if name in formData then formData[name] else ""
    }

    /** The flags describe the password currently in the form. */
    predicate StrengthCurrent()
      reads this
    {
      strength == Criteria(Field("password"))
    }

    /** `handleChange`: the named field takes the value; the flags are
        recomputed only when that field is the password. */
    method HandleChange(name: string, value: string)
      modifies this
      ensures formData == old(formData)[name := value]
      ensures name == "password" ==> strength == Criteria(value)
      ensures name != "password" ==> strength == old(strength)
      ensures error == old(error) && loading == old(loading)
      ensures old(StrengthCurrent()) ==> StrengthCurrent()
    {
      formData := formData[name := value];
      if name == "password" {
        strength := Criteria(value);
      }
    }

    /** `handleSubmit`: the error is cleared; mismatched passwords are reported
        first, then a score below 3; only then is the account registered (with
        `id` standing for `Date.now()`) and the page moves on to the dashboard. */
    method HandleSubmit(auth: Auth.AuthState, id: string) returns (route: Option<Route>)
      modifies this, auth
      ensures var err := SubmitError(old(Field("password")), old(Field("confirmPassword")), old(strength));
        (err.Some? ==> error == err.value && route.None? && auth.user == old(auth.user) && auth.store == old(auth.store)
                       && auth.isLoading == old(auth.isLoading) && loading == old(loading))
        && (err.None? ==> error == "" && route == Some(Route("/dashboard", None)) && !loading
                          && auth.user == Some(Auth.User(id, old(Field("name")), old(Field("email")), None))
                          && auth.store == old(auth.store)[Auth.UserKey := Auth.User(id, old(Field("name")), old(Field("email")), None)]
                          && !auth.isLoading && auth.Consistent())
      ensures formData == old(formData) && strength == old(strength)
    {
      error := "";
      if Field("password") != Field("confirmPassword") {
        error := "Passwords don't match";
        return None;
      }
      if Score(strength) < 3 {
        error := "Please use a stronger password";
        return None;
      }
      loading := true;
      var outcome := auth.Register(Field("name"), Field("email"), Field("password"), id);
      route := Some(Route("/dashboard", None));
      loading := false;
    }
  }
}
