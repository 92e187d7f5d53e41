/** The sign-up form: its fields, the account-type choice limited to customer (role
    'user') and vendor, and the submit handler with its terms gate, the full name it
    composes and the loading flag it clears. */
module SignUp {
  import opened Common
  import opened Strings
  import opened Enums

  /** `` `${firstName} ${lastName}`.trim() ``. */
  function FullName(firstName: string, lastName: string): string {
    Trim(firstName + " " + lastName)
  }

  /** No white space at either end; what remains is the joined name with only white
      space cut from its ends. */
  lemma FullNameSpec(firstName: string, lastName: string)
    ensures var n := FullName(firstName, lastName);
            n == [] || (!IsSpace(n[0]) && !IsSpace(n[|n| - 1]))
    ensures var s, n := firstName + " " + lastName, FullName(firstName, lastName);
            var a := |s| - |TrimStart(s)|;
            0 <= a && a + |n| <= |s| && n == s[a..a + |n|] &&
            (forall i :: 0 <= i < a ==> IsSpace(s[i])) &&
            (forall i :: a + |n| <= i < |s| ==> IsSpace(s[i]))
  {
    TrimSpec(firstName + " " + lastName);
  }

  /** Tidy first and last names are joined by exactly one space. */
  lemma FullNameOfTidy(firstName: string, lastName: string)
    requires Tidy(firstName) && Tidy(lastName)
    ensures FullName(firstName, lastName) == firstName + " " + lastName
  {
    var s := firstName + " " + lastName;
    assert s[0] == firstName[0] && s[|s| - 1] == lastName[|lastName| - 1];
    TrimOfTrimmed(s);
  }

  /** A first or last name typed as white space only (which passes the `required`
      check) leaves just the other, tidy name: no stray space is left over. */
  lemma FullNameOfOne(name: string, blank: string)
    requires Tidy(name) && AllSpace(blank)
    ensures FullName(name, blank) == name
    ensures FullName(blank, name) == name
  {
    assert IsSpace(' ');
    assert AllSpace(" " + blank);
    assert name + " " + blank == name + (" " + blank);
    assert TrimStart(name + (" " + blank)) == name + (" " + blank);
    TrimEndSpaces(name, " " + blank);
    assert TrimEnd(name) == name;
    assert AllSpace(blank + " ");
    assert blank + " " + name == (blank + " ") + name;
    TrimStartSpaces(blank + " ", name);
    assert TrimStart(name) == name;
  }

  /** The backend call `signUp(email, password, fullName, role)`. */
  datatype SignUpCall = SignUpCall(email: string, password: string, name: string, role: AppRole)

  /** The toast a submit shows. */
  datatype Notice = TermsReminder | AccountCreated | SignUpError

  /** The two account types the form offers. */
  predicate Offered(role: AppRole) {
    role == User || role == Vendor
  }

  class SignUpForm {
    var email: string
    var password: string
    var firstName: string
    var lastName: string
    var role: AppRole
    var loading: bool
    var agreeToTerms: bool

    /** The account type is one the form offers. */
    ghost predicate Valid()
      reads this
    {
      Offered(role)
    }

    /** An empty form: customer account, terms not agreed, not loading. */
    constructor ()
      ensures Valid()
      ensures email == "" && password == "" && firstName == "" && lastName == ""
      ensures role == User && !loading && !agreeToTerms
    {
      email, password, firstName, lastName := "", "", "", "";
      role := User;
      loading := false;
      agreeToTerms := false;
    }

    /** The account-type select, whose items are Customer ('user') and Vendor. */
    method SetRole(value: AppRole)
      requires Valid() && Offered(value)
      modifies this`role
      ensures Valid() && role == value
    {
      role := value;
    }

    /** The terms checkbox. */
    method SetAgreeToTerms(checked: bool)
      modifies this`agreeToTerms
      ensures agreeToTerms == checked
    {
      agreeToTerms := checked;
    }

    /** The four inputs the form marks `required` all hold something. */
    predicate Filled()
      reads this`email, this`password, this`firstName, this`lastName
    {
      firstName != "" && lastName != "" && email != "" && password != ""
    }

    /** Pressing the submit button. The button is disabled while loading, and the
        browser holds back a form with an empty required input; a held-back press
        calls nothing and changes nothing. Otherwise the browser runs `handleSubmit`. */
    method PressSubmit(signUpFails: bool) returns (call: Option<SignUpCall>, notice: Option<Notice>)
      requires Valid()
      modifies this`loading
      ensures Valid()
      ensures old(loading) || !Filled() ==> call.None? && notice.None? && loading == old(loading)
      ensures !old(loading) && Filled() && !agreeToTerms ==> call.None? && notice == Some(TermsReminder) && !loading
      ensures !old(loading) && Filled() && agreeToTerms ==>
                call == Some(SignUpCall(email, password, FullName(firstName, lastName), role)) &&
                notice == Some(if signUpFails then SignUpError else AccountCreated) &&
                !loading
      ensures call.Some? ==> firstName != "" && lastName != "" && call.value.email != "" && call.value.role != Admin
    {
      if loading || !Filled() {
        return None, None;
      }
      var n;
      call, n := Submit(signUpFails);
      notice := Some(n);
    }

    /** `handleSubmit`. Without agreement to the terms it shows a reminder and changes
        nothing: no sign-up call and no loading. Otherwise it calls `signUp` with the
        trimmed full name and the chosen role (never admin), shows the outcome, and
        leaves loading false whether the call failed or not. */
    method Submit(signUpFails: bool) returns (call: Option<SignUpCall>, notice: Notice)
      requires Valid()
      modifies this`loading
      ensures Valid()
      ensures !agreeToTerms ==> call.None? && notice == TermsReminder && loading == old(loading)
      ensures agreeToTerms ==>
                call == Some(SignUpCall(email, password, FullName(firstName, lastName), role)) &&
                notice == (if signUpFails then SignUpError else AccountCreated) &&
                !loading
      ensures call.Some? ==> call.value.role != Admin
    {
      if !agreeToTerms {
        return None, TermsReminder;
      }
      loading := true;
      var fullName := Trim(firstName + " " + lastName);
      call := Some(SignUpCall(email, password, fullName, role));
      if signUpFails {
        notice := SignUpError;
      } else {
        notice := AccountCreated;
      }
      loading := false;
    }
  }
}
