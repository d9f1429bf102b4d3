/**
 * The login/sign-up form of `LoginScreen` (frontend/App.tsx) and the profile its submit button
 * hands to `App`.
 */
module LoginForm {
  import opened Screens

  datatype AuthMode = SignIn | SignUp

  /** The form's state fields. The name and location inputs are only displayed in sign-up
      mode, but the fields keep their values in both modes. */
  datatype Form = Form(
    lang: Language, authMode: AuthMode, name: string, phone: string,
    location: string, password: string, showForm: bool)

  /** The form as the screen first mounts it. */
  const InitialForm := Form(En, SignIn, "", "", "", "", false)

  const DefaultName := "Farmer"
  const DefaultLocation := "Punjab, India"

  /** `name || 'Farmer'`, `location || 'Punjab, India'`: only the empty string is falsy. */
  function Submit(f: Form): (u: User)
    ensures u.language == f.lang
    ensures u.name != "" && u.location != ""
    ensures f.name != "" ==> u.name == f.name
    ensures f.location != "" ==> u.location == f.location
  {
    User(if f.name == "" then DefaultName else f.name,
         f.lang,
         if f.location == "" then DefaultLocation else f.location)
  }

  /** An empty name or location is replaced by its default; anything else, including text that
      is only spaces, is kept as entered; the selected language is passed through. */
  lemma SubmitDefaults(f: Form)
    ensures Submit(f).name == (if f.name == "" then "Farmer" else f.name)
    ensures Submit(f).location == (if f.location == "" then "Punjab, India" else f.location)
    ensures Submit(f).language == f.lang
    ensures Submit(f).name != "" && Submit(f).location != ""
  {
  }

  /** Submitting the untouched form gives the default profile in English. */
  lemma SubmitInitialForm()
    ensures Submit(InitialForm) == User("Farmer", En, "Punjab, India")
  {
  }

  /** The phone number, the password and the login/sign-up mode play no part in the profile:
      there is no authentication. */
  lemma SubmitIgnoresCredentials(f: Form, g: Form)
    requires f.name == g.name && f.lang == g.lang && f.location == g.location
    ensures Submit(f) == Submit(g)
  {
  }

  /** The profiles the form can submit: those with a non-empty name and location. */
  predicate Submittable(u: User) {
    u.name != "" && u.location != ""
  }

  /** `Submittable` describes exactly the results of `Submit`. */
  lemma SubmittableIff(u: User)
    ensures Submittable(u) <==> exists f :: Submit(f) == u
  {
    if Submittable(u) {
      var f := Form(u.language, SignUp, u.name, "", u.location, "", true);
      assert Submit(f) == u;
    }
  }
}
