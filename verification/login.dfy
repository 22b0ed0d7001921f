/** The login / sign-up form: the local display-name check, the choice of
    backend call, the translation of the backend's error code into a
    message, the heading and hints shown above that message, and the tab
    switches that reset the form. */
module Login {
  import opened Common
  import opened Text

  // Messages the form can show. They are written word by word, which keeps
  // the proofs about their characters small.
  const NameTooShort: string := "El nombre" + " debe" + " tener al" + " menos 3" + " caracteres"
  const EmailInUse: string := "Este email " + "ya está registrado"
  const WeakPassword: string := "La " + "contraseña" + " debe" + " tener al" + " menos 6" + " caracteres"
  const UserNotFound: string := "Usuario no" + " encontrado"
  const WrongPassword: string := "Contraseña" + " incorrecta"
  const InvalidEmail: string := "Email" + " inválido"
  const TooManyRequests: string := "Demasiados" + " intentos" + " fallidos." + " Intenta" + " más tarde"
  const GenericAuthError: string := "Error de" + " autenticación." + " Intenta" + " nuevamente"

  /** The shortest display name sign-up accepts. */
  const MinNameLength: nat := 3

  // Error codes of the auth service that get a message of their own.
  const CodeEmailInUse: string := "auth/email-already-in-use"
  const CodeWeakPassword: string := "auth/weak-password"
  const CodeUserNotFound: string := "auth/user-not-found"
  const CodeWrongPassword: string := "auth/wrong-password"
  const CodeInvalidEmail: string := "auth/invalid-email"
  const CodeTooManyRequests: string := "auth/too-many-requests"

  predicate KnownCode(code: string)
  {
    code in {CodeEmailInUse, CodeWeakPassword, CodeUserNotFound, CodeWrongPassword, CodeInvalidEmail, CodeTooManyRequests}
  }

  /** The `switch (error.code)` of the submit handler. */
  function ErrorMessage(code: string): (msg: string)
    ensures !KnownCode(code) ==> msg == GenericAuthError
    ensures KnownCode(code) ==> msg != GenericAuthError && msg != NameTooShort
  {
    if code == CodeEmailInUse then EmailInUse
    else if code == CodeWeakPassword then WeakPassword
    else if code == CodeUserNotFound then UserNotFound
    else if code == CodeWrongPassword then WrongPassword
    else if code == CodeInvalidEmail then InvalidEmail
    else if code == CodeTooManyRequests then TooManyRequests
    else GenericAuthError
  }

  /** Each known code gets its own message: two different known codes never
      share one, so the visitor can tell the failures apart. */
  lemma ErrorMessagesDistinct(c1: string, c2: string)
    requires KnownCode(c1) && KnownCode(c2) && c1 != c2
    ensures ErrorMessage(c1) != ErrorMessage(c2)
  {
    var m1, m2 := ErrorMessage(c1), ErrorMessage(c2);
    assert |m1| != |m2| || m1[0] != m2[0];
  }

  // Headings of the error box.
  const AccessHeading: string := "Error de acceso"
  const ExistingUserHeading: string := "Usuario existente"
  const ValidationHeading: string := "Error de validación"

  // The fragment the already-registered test looks for.
  const AlreadyRegistered: string := "ya está registrado"

  /** The credentials hint is shown for the not-found and wrong-password
      messages. */
  predicate ShowsCredentialsHint(error: string)
  {
    Contains(error, UserNotFound) || Contains(error, WrongPassword)
  }

  /** The "log in instead" button is shown for the already-registered
      message. */
  predicate OffersSwitchToLogin(error: string)
  {
    Contains(error, AlreadyRegistered)
  }

  /** The heading of the error box, classified by what the message
      contains, credentials first. */
  function Heading(error: string): (h: string)
    ensures h == AccessHeading <==> ShowsCredentialsHint(error)
    ensures h == ExistingUserHeading <==> !ShowsCredentialsHint(error) && OffersSwitchToLogin(error)
    ensures h == ValidationHeading <==> !ShowsCredentialsHint(error) && !OffersSwitchToLogin(error)
  {
    if ShowsCredentialsHint(error) then AccessHeading
    else if OffersSwitchToLogin(error) then ExistingUserHeading
    else ValidationHeading
  }

  /** None of the three fragments the classification looks for occurs in
      `msg`. */
  predicate Unclassified(msg: string)
  {
    !Contains(msg, UserNotFound) && !Contains(msg, WrongPassword) && !Contains(msg, AlreadyRegistered)
  }

  /** No character of `s` is in `cs`. */
  predicate Avoids(s: string, cs: set<char>)
  {
    forall i :: 0 <= i < |s| ==> s[i] !in cs
  }

  lemma AvoidsAppend(a: string, b: string, cs: set<char>)
    requires Avoids(a, cs) && Avoids(b, cs)
    ensures Avoids(a + b, cs)
  {
    forall i | 0 <= i < |a + b|
      ensures (a + b)[i] !in cs
    {
      if i < |a| {
        assert (a + b)[i] == a[i];
      } else {
        assert (a + b)[i] == b[i - |a|];
      }
    }
  }

  /** The first characters of the three fragments. */
  const Initials: set<char> := {'U', 'C', 'y'}

  /** A message that avoids the three initials contains none of the
      fragments. */
  lemma NoFragment(msg: string)
    requires Avoids(msg, Initials)
    ensures Unclassified(msg)
  {
    assert UserNotFound[0] == 'U' && WrongPassword[0] == 'C' && AlreadyRegistered[0] == 'y';
    NotContainsByFirst(msg, UserNotFound);
    NotContainsByFirst(msg, WrongPassword);
    NotContainsByFirst(msg, AlreadyRegistered);
  }

  /** The five messages other than the three that the classification
      singles out contain none of its fragments. */
  lemma OtherMessagesUnclassified()
    ensures Unclassified(NameTooShort)
    ensures Unclassified(WeakPassword)
    ensures Unclassified(InvalidEmail)
    ensures Unclassified(TooManyRequests)
    ensures Unclassified(GenericAuthError)
  {
    NameTooShortAvoids();
    WeakPasswordAvoids();
    AvoidsAppend("Email", " inválido", Initials);
    TooManyRequestsAvoids();
    GenericAuthErrorAvoids();
    NoFragment(NameTooShort);
    NoFragment(WeakPassword);
    NoFragment(InvalidEmail);
    NoFragment(TooManyRequests);
    NoFragment(GenericAuthError);
  }

  lemma NameTooShortAvoids()
    ensures Avoids(NameTooShort, Initials)
  {
    AvoidsAppend("El nombre", " debe", Initials);
    AvoidsAppend("El nombre" + " debe", " tener al", Initials);
    AvoidsAppend("El nombre" + " debe" + " tener al", " menos 3", Initials);
    AvoidsAppend("El nombre" + " debe" + " tener al" + " menos 3", " caracteres", Initials);
  }

  lemma WeakPasswordAvoids()
    ensures Avoids(WeakPassword, Initials)
  {
    AvoidsAppend("La ", "contraseña", Initials);
    AvoidsAppend("La " + "contraseña", " debe", Initials);
    AvoidsAppend("La " + "contraseña" + " debe", " tener al", Initials);
    AvoidsAppend("La " + "contraseña" + " debe" + " tener al", " menos 6", Initials);
    AvoidsAppend("La " + "contraseña" + " debe" + " tener al" + " menos 6", " caracteres", Initials);
  }

  lemma TooManyRequestsAvoids()
    ensures Avoids(TooManyRequests, Initials)
  {
    AvoidsAppend("Demasiados", " intentos", Initials);
    AvoidsAppend("Demasiados" + " intentos", " fallidos.", Initials);
    AvoidsAppend("Demasiados" + " intentos" + " fallidos.", " Intenta", Initials);
    AvoidsAppend("Demasiados" + " intentos" + " fallidos." + " Intenta", " más tarde", Initials);
  }

  lemma GenericAuthErrorAvoids()
    ensures Avoids(GenericAuthError, Initials)
  {
    AvoidsAppend("Error de", " autenticación.", Initials);
    AvoidsAppend("Error de" + " autenticación.", " Intenta", Initials);
    AvoidsAppend("Error de" + " autenticación." + " Intenta", " nuevamente", Initials);
  }

  /** The heading, the credentials hint and the "log in instead" button for
      every message the submit handler can set. */
  lemma HeadingOfEachMessage(code: string)
    ensures Heading(NameTooShort) == ValidationHeading
    ensures (code == CodeUserNotFound || code == CodeWrongPassword) ==>
                Heading(ErrorMessage(code)) == AccessHeading &&
                  ShowsCredentialsHint(ErrorMessage(code)) && !OffersSwitchToLogin(ErrorMessage(code))
    ensures code == CodeEmailInUse ==>
                Heading(ErrorMessage(code)) == ExistingUserHeading &&
                  !ShowsCredentialsHint(ErrorMessage(code)) && OffersSwitchToLogin(ErrorMessage(code))
    ensures code !in {CodeUserNotFound, CodeWrongPassword, CodeEmailInUse} ==>
                Heading(ErrorMessage(code)) == ValidationHeading &&
                  !ShowsCredentialsHint(ErrorMessage(code)) && !OffersSwitchToLogin(ErrorMessage(code))
  {
    OtherMessagesUnclassified();
    if code == CodeUserNotFound {
      UserNotFoundClassified();
    } else if code == CodeWrongPassword {
      WrongPasswordClassified();
    } else if code == CodeEmailInUse {
      EmailInUseClassified();
    }
  }

  lemma UserNotFoundClassified()
    ensures ShowsCredentialsHint(UserNotFound) && !OffersSwitchToLogin(UserNotFound)
  {
    ContainsSelf(UserNotFound);
    AvoidsAppend("Usuario no", " encontrado", {'y'});
    assert AlreadyRegistered[0] == 'y';
    NotContainsByFirst(UserNotFound, AlreadyRegistered);
  }

  lemma WrongPasswordClassified()
    ensures ShowsCredentialsHint(WrongPassword) && !OffersSwitchToLogin(WrongPassword)
  {
    ContainsSelf(WrongPassword);
    AvoidsAppend("Contraseña", " incorrecta", {'y'});
    assert AlreadyRegistered[0] == 'y';
    NotContainsByFirst(WrongPassword, AlreadyRegistered);
  }

  lemma EmailInUseClassified()
    ensures !ShowsCredentialsHint(EmailInUse) && OffersSwitchToLogin(EmailInUse)
  {
    EmailInUseOffersSwitch();
    AvoidsAppend("Este email ", "ya está registrado", {'U', 'C'});
    assert UserNotFound[0] == 'U' && WrongPassword[0] == 'C';
    NotContainsByFirst(EmailInUse, UserNotFound);
    NotContainsByFirst(EmailInUse, WrongPassword);
  }

  lemma EmailInUseOffersSwitch()
    ensures OffersSwitchToLogin(EmailInUse)
  {
    assert EmailInUse[11..|EmailInUse|] == AlreadyRegistered;
    ContainsSlice(EmailInUse, 11, |EmailInUse|);
  }

  /** The backend call a submit makes, if any. */
  datatype AuthCall =
    | NoCall
    | LoginCall(email: string, password: string)
    | SignupCall(email: string, password: string, displayName: string)

  /** The call the submit handler makes: log-in mode always logs in and
      never looks at the display name; sign-up mode signs up only when the
      display name has at least three characters. */
  function SubmitCall(isLogin: bool, email: string, password: string, displayName: string): (call: AuthCall)
    ensures isLogin ==> call == LoginCall(email, password)
    ensures !isLogin ==> (call == NoCall <==> |displayName| < MinNameLength)
    ensures !isLogin && call != NoCall ==> call == SignupCall(email, password, displayName)
  {
    if isLogin then LoginCall(email, password)
    else if |displayName| < MinNameLength then NoCall
    else SignupCall(email, password, displayName)
  }

  /** The error left on screen once the submit handler has finished, given
      the call it made and the backend's failure code (None on success). */
  function SubmitError(call: AuthCall, failure: Option<string>): (error: string)
    ensures call == NoCall ==> error == NameTooShort
    ensures call != NoCall && failure.None? ==> error == ""
    ensures call != NoCall && failure.Some? ==> error == ErrorMessage(failure.value)
  {
    if call == NoCall then NameTooShort
    else if failure.None? then ""
    else ErrorMessage(failure.value)
  }

  /** The two sign-up scenarios: "Jo" is rejected locally, "John" reaches
      the backend. */
  lemma SignupScenarios()
    ensures SubmitCall(false, "a@b.com", "secret123", "Jo") == NoCall
    ensures SubmitError(SubmitCall(false, "a@b.com", "secret123", "Jo"), None) == NameTooShort
    ensures SubmitCall(false, "a@b.com", "secret123", "John") == SignupCall("a@b.com", "secret123", "John")
  {
  }

  /** The state of the `Login` component. */
  class LoginForm {
    var isLogin: bool
    var email: string
    var password: string
    var displayName: string
    var error: string
    var loading: bool
    var showPassword: bool

    /** The initial state: log-in tab, empty fields, no error, not loading. */
    constructor ()
      ensures isLogin && email == "" && password == "" && displayName == ""
      ensures error == "" && !loading && !showPassword
    {
      isLogin := true;
      email := "";
      password := "";
      displayName := "";
      error := "";
      loading := false;
      showPassword := false;
    }

    /** `handleSubmit`, with the backend's answer as `failure` (None when
        the call succeeds, the error code otherwise). It clears the error
        and sets `loading`, makes the call `SubmitCall` names (no call when
        the display name is too short), then shows the error that
        `SubmitError` names and clears `loading` on every path. The ghost
        results are the error and the loading flag as they stand once the
        handler has cleared and set them, before the name check and the
        call. */
    method HandleSubmit(failure: Option<string>) returns (call: AuthCall, ghost errorInFlight: string, ghost loadingInFlight: bool)
      modifies this
      ensures call == SubmitCall(old(isLogin), old(email), old(password), old(displayName))
      ensures errorInFlight == "" && loadingInFlight
      ensures error == SubmitError(call, failure)
      ensures !loading
      ensures isLogin == old(isLogin) && email == old(email) && password == old(password)
      ensures displayName == old(displayName) && showPassword == old(showPassword)
    {
      error := "";
      loading := true;
      errorInFlight, loadingInFlight := error, loading;
      if isLogin {
        call := LoginCall(email, password);
      } else {
        if |displayName| < MinNameLength {
          call := NoCall;
          error := NameTooShort;
          loading := false;
          return;
        }
        call := SignupCall(email, password, displayName);
      }
      if failure.Some? {
        error := ErrorMessage(failure.value);
      }
      loading := false;
    }

    /** The two tab buttons: set the mode and clear the error and the
        three fields. */
    method SelectTab(toLogin: bool)
      modifies this
      ensures isLogin == toLogin
      ensures error == "" && email == "" && password == "" && displayName == ""
      ensures loading == old(loading) && showPassword == old(showPassword)
    {
      isLogin := toLogin;
      error := "";
      email := "";
      password := "";
      displayName := "";
    }

    /** The "log in instead" button, which exists only while the
        already-registered message is shown: back to log-in mode with the
        error cleared, the fields kept. */
    method SwitchToLogin()
      requires OffersSwitchToLogin(error)
      modifies this
      ensures isLogin && error == ""
      ensures email == old(email) && password == old(password) && displayName == old(displayName)
      ensures loading == old(loading) && showPassword == old(showPassword)
    {
      isLogin := true;
      error := "";
    }

    /** The close button of the error box. */
    method DismissError()
      modifies this
      ensures error == ""
      ensures isLogin == old(isLogin) && email == old(email) && password == old(password)
      ensures displayName == old(displayName) && loading == old(loading) && showPassword == old(showPassword)
    {
      error := "";
    }

    /** The eye button beside the password field. */
    method TogglePasswordVisibility()
      modifies this
      ensures showPassword == !old(showPassword)
      ensures isLogin == old(isLogin) && email == old(email) && password == old(password)
      ensures displayName == old(displayName) && error == old(error) && loading == old(loading)
    {
      showPassword := !showPassword;
    }

    /** The submit button is disabled while a call is in flight. */
    predicate SubmitDisabled()
      reads this
    {
      loading
    }
  }
}
