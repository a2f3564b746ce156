/** The authentication modal shared by the pages: the user icon opens the
    profile when a session is stored and the modal otherwise; the modal shows
    the login form or the register form; the forms are checked in the page
    before anything is sent; a successful reply stores the session and puts
    the user's initial on the icon. Replies of /api/auth/register and
    /api/auth/login are parameters (None when the request or the reading of
    its body fails). The 300 ms closing animation, the 1.5 s delay before the
    modal closes after a success and the 1 s delay before the logout
    redirect are collapsed: their callbacks run at once. */
module AuthModal {
  import opened Text
  import opened Session

  const ProfileUrl: string := "/perfil/index.html"
  const HomeUrl: string := "/"
  const GuestTitle: string := "Iniciar Sesión / Registrarse"
  const ProfileTitleSuffix: string := " - Mi Perfil"

  const FillAllFields: string := "Por favor completa todos los campos"
  const PasswordsDiffer: string := "Las contraseñas no coinciden"
  const PasswordTooShort: string := "La contraseña debe tener al menos 6 caracteres"
  const ConnectionError: string := "Error de conexión. Intenta nuevamente."
  const RegisterFailed: string := "Error al registrar usuario"
  const LoginFailed: string := "Error al iniciar sesión"
  const LoggedOut: string := "Sesión cerrada exitosamente"

  /** The style of a message: the second argument of mostrarMensaje. An
      error shown through window.customModal carries the same text. */
  datatype MessageKind = ErrorMessage | SuccessRegister | SuccessLogin | SuccessMessage

  datatype Message = Message(text: string, kind: MessageKind)

  /** The bodies posted to /api/auth/register and /api/auth/login. */
  datatype AuthRequest =
    | RegisterRequest(nombreCompleto: string, email: string, password: string, confirmPassword: string)
    | LoginRequest(email: string, password: string)

  /** The JSON reply of the server: `success`, `token`, `user`, `message`. */
  datatype AuthReply = AuthReply(success: bool, token: Option<string>, user: Option<User>, message: Option<string>)

  /** The text of a form error. */
  function FormErrorText(e: FormError): string {
    match e
    case MissingFields => FillAllFields
    case Mismatch => PasswordsDiffer
    case TooShort => PasswordTooShort
  }

  // ---------------------------------------------------------------------
  // Form checks

  /** The checks of the register button, in order: every field filled (name
      and email after trimming, the passwords as typed), then the two
      passwords equal, then at least six characters. */
  function CheckRegister(nombre: string, email: string, password: string, confirm: string): (r: Option<FormError>)
    ensures r == Some(MissingFields) <==> Blank(nombre) || Blank(email) || password == "" || confirm == ""
    ensures r == Some(Mismatch) <==> !Blank(nombre) && !Blank(email) && password != "" && confirm != "" && password != confirm
    ensures r == None <==> !Blank(nombre) && !Blank(email) && password == confirm && |password| >= MinPasswordLength
  {
    TrimEmptyIff(nombre);
    TrimEmptyIff(email);
    CheckPasswords(Trim(nombre) != "" && Trim(email) != "" && password != "" && confirm != "", password, confirm)
  }

  /** White space around the name and the email never changes the outcome. */
  lemma RegisterIgnoresSurroundingSpace(nombre: string, email: string, password: string, confirm: string)
    ensures CheckRegister(nombre, email, password, confirm) == CheckRegister(Trim(nombre), Trim(email), password, confirm)
  {
    TrimIdempotent(nombre);
    TrimIdempotent(email);
  }

  /** White space in a password does count: a confirmation without the
      leading space of the password is a mismatch. */
  lemma RegisterKeepsPasswordSpace(nombre: string, email: string, password: string)
    requires !Blank(nombre) && !Blank(email) && password != ""
    ensures CheckRegister(nombre, email, " " + password, password) == Some(Mismatch)
  {
    assert |" " + password| != |password|;
  }

  /** The check of the login button: an email that is not blank and a
      password that is not empty. */
  function CheckLogin(email: string, password: string): (ok: bool)
    ensures ok <==> !Blank(email) && password != ""
  {
    TrimEmptyIff(email);
    Trim(email) != "" && password != ""
  }

  // ---------------------------------------------------------------------
  // Which form is shown

  /** The `style.display` of the two forms (flex or none) and their
      'active' classes. */
  datatype Forms = Forms(loginShown: bool, registerShown: bool, loginActive: bool, registerActive: bool)

  /** Show the login form: what openModal, the end of closeModal and the
      show-login link do. The 'active' classes are only moved when the
      checked form has the 'auth-form' class. */
  function ShowLoginForms(f: Forms, authForm: bool): (r: Forms)
    ensures r.loginShown && !r.registerShown
    ensures authForm ==> r.loginActive && !r.registerActive
    ensures !authForm ==> r.loginActive == f.loginActive && r.registerActive == f.registerActive
  {
    Forms(true, false, if authForm then true else f.loginActive, if authForm then false else f.registerActive)
  }

  /** Show the register form: the show-register link. */
  function ShowRegisterForms(f: Forms, authForm: bool): (r: Forms)
    ensures !r.loginShown && r.registerShown
    ensures authForm ==> !r.loginActive && r.registerActive
    ensures !authForm ==> r.loginActive == f.loginActive && r.registerActive == f.registerActive
  {
    Forms(false, true, if authForm then false else f.loginActive, if authForm then true else f.registerActive)
  }

  /** Going to the register form and back gives the state that showing the
      login form directly gives, and showing the login form twice is
      showing it once. */
  lemma SwitchFormsBack(f: Forms, authForm: bool)
    ensures ShowLoginForms(ShowRegisterForms(f, authForm), authForm) == ShowLoginForms(f, authForm)
    ensures ShowLoginForms(ShowLoginForms(f, authForm), authForm) == ShowLoginForms(f, authForm)
    ensures ShowRegisterForms(ShowLoginForms(f, authForm), authForm) == ShowRegisterForms(f, authForm)
  {
  }

  // ---------------------------------------------------------------------
  // Replies

  /** `localStorage.setItem(key, value)` turns an undefined value into the
      text "undefined". */
  function SetItemText(value: Option<string>): (t: string)
    ensures t == "" <==> value == Some("")
    ensures value.Some? ==> t == value.value
  {
    if value.Some? then value.value else UndefinedText
  }

  /** The storage after a reply with `success`: the token and the
      stringified user are stored whatever they are. */
  function StoreReply(storage: Storage, d: AuthReply, json: Json): Storage {
    SaveSession(storage, SetItemText(d.token),
                if d.user.Some? then json.stringify(d.user.value) else UndefinedText)
  }

  /** A successful reply always opens a session, even one without a token
      (which stores "undefined"); only a reply that carries the user stores
      a record that can be read back. */
  lemma SuccessOpensSession(storage: Storage, d: AuthReply, json: Json)
    requires RoundTrips(json)
    requires d.token.Some? ==> d.token.value != ""
    ensures HasSession(StoreReply(storage, d, json))
    ensures json.parse(StoreReply(storage, d, json)[UserKey]) == d.user
  {
    if d.user.Some? {
      assert json.stringify(d.user.value) != "";
    }
  }

  /** Which form a reply answers. */
  datatype Form = Register | Login

  /** The greeting after a success: '¡Registro exitoso! Bienvenido <name>'
      or '¡Bienvenido de nuevo, <name>!'. */
  function Greeting(form: Form, nombre: string): Message {
    match form
    case Register => Message("¡Registro exitoso! Bienvenido " + nombre, SuccessRegister)
    case Login => Message("¡Bienvenido de nuevo, " + nombre + "!", SuccessLogin)
  }

  /** The greeting has the style of the form and ends with the user's name
      (followed by the closing '!' after a login). */
  lemma GreetingNamesUser(form: Form, nombre: string)
    ensures var m := Greeting(form, nombre);
            && m.kind == (if form == Register then SuccessRegister else SuccessLogin)
            && |m.text| > |nombre|
            && (form == Register ==> m.text[|m.text| - |nombre|..] == nombre)
            && (form == Login ==> m.text[|m.text| - |nombre| - 1..|m.text| - 1] == nombre)
  {
  }

  /** The message shown for a reply: a connection error when there is no
      reply or when a success lacks the user (reading its name throws), the
      server's message or the form's fallback for a failure, the greeting
      for a success. */
  function ReplyMessage(form: Form, reply: Option<AuthReply>): (m: Message)
    ensures m.kind == ErrorMessage <==> !(reply.Some? && reply.value.success && reply.value.user.Some?)
    ensures reply.Some? && !reply.value.success && Truthy(reply.value.message) ==> m.text == reply.value.message.value
  {
    if reply.None? then Message(ConnectionError, ErrorMessage)
    else if !reply.value.success then
      Message(if Truthy(reply.value.message) then reply.value.message.value
              else if form == Register then RegisterFailed else LoginFailed, ErrorMessage)
    else if reply.value.user.None? then Message(ConnectionError, ErrorMessage)
    else Greeting(form, reply.value.user.value.nombreCompleto)
  }

  /** The storage after a reply: only a success writes to it. */
  function ReplyStorage(storage: Storage, reply: Option<AuthReply>, json: Json): (r: Storage)
    ensures !(reply.Some? && reply.value.success) ==> r == storage
  {
    if reply.Some? && reply.value.success then StoreReply(storage, reply.value, json) else storage
  }

  /** Only a success that carries the user completes the sign-in: the
      greeting, the badge, the modal closed and the forms cleared. */
  predicate Welcomed(reply: Option<AuthReply>) {
    reply.Some? && reply.value.success && reply.value.user.Some?
  }

  // ---------------------------------------------------------------------
  // The page

  class AuthPage {
    /** JSON.parse / JSON.stringify. */
    const json: Json
    /** Whether the login (register) form has the 'auth-form' class. */
    const loginIsAuthForm: bool
    const registerIsAuthForm: bool

    var storage: Storage
    /** The page window.location.href was set to, if any. */
    var location: Option<string>
    /** The 'active' class of the modal overlay. */
    var modalActive: bool
    var forms: Forms
    /** The text of the '.user-badge' span in the user icon, if there is one. */
    var badge: Option<string>
    /** The title of the user icon; None while it is the one of the markup. */
    var iconTitle: Option<string>
    /** Every message shown, in order. */
    var messages: seq<Message>
    /** Every request sent, in order. */
    var requests: seq<AuthRequest>

    var registerName: string
    var registerEmail: string
    var registerPassword: string
    var registerConfirm: string
    var loginEmail: string
    var loginPassword: string

    /** The page as loaded, before verificarSesion runs. */
    constructor (json: Json, storage: Storage, loginIsAuthForm: bool, registerIsAuthForm: bool, forms: Forms)
      ensures this.json == json && this.storage == storage
      ensures this.loginIsAuthForm == loginIsAuthForm && this.registerIsAuthForm == registerIsAuthForm
      ensures this.forms == forms && !modalActive && location == None
      ensures badge == None && iconTitle == None && messages == [] && requests == []
      ensures registerName == registerEmail == registerPassword == registerConfirm == ""
      ensures loginEmail == loginPassword == ""
    {
      this.json := json;
      this.storage := storage;
      this.loginIsAuthForm := loginIsAuthForm;
      this.registerIsAuthForm := registerIsAuthForm;
      this.forms := forms;
      modalActive := false;
      location := None;
      badge := None;
      iconTitle := None;
      messages := [];
      requests := [];
      registerName, registerEmail, registerPassword, registerConfirm := "", "", "", "";
      loginEmail, loginPassword := "", "";
    }

    /** actualizarUIUsuario: the icon's title names the user and a badge
        with the initial is added unless one is already there. */
    method ActualizarUIUsuario(u: User)
      modifies this`iconTitle, this`badge
      ensures iconTitle == Some(u.nombreCompleto + ProfileTitleSuffix)
      ensures old(badge).Some? ==> badge == old(badge)
      ensures old(badge).None? ==> badge == Some(Initial(u.nombreCompleto))
    {
      iconTitle := Some(u.nombreCompleto + ProfileTitleSuffix);
      if badge.None? {
        badge := Some(Initial(u.nombreCompleto));
      }
    }

    /** verificarSesion: with a session stored, the user record is parsed;
        a record that does not parse removes both keys, one that does
        updates the icon. Without a session nothing happens. */
    method VerificarSesion()
      modifies this`storage, this`iconTitle, this`badge
      ensures !HasSession(old(storage)) ==>
                storage == old(storage) && iconTitle == old(iconTitle) && badge == old(badge)
      ensures HasSession(old(storage)) && json.parse(old(storage)[UserKey]).None? ==>
                storage == ClearSession(old(storage)) && iconTitle == old(iconTitle) && badge == old(badge)
      ensures HasSession(old(storage)) && json.parse(old(storage)[UserKey]).Some? ==>
                var u := json.parse(old(storage)[UserKey]).value;
                && storage == old(storage)
                && iconTitle == Some(u.nombreCompleto + ProfileTitleSuffix)
                && badge == (if old(badge).Some? then old(badge) else Some(Initial(u.nombreCompleto)))
    {
      var token := GetItem(storage, TokenKey);
      var userData := GetItem(storage, UserKey);
      if Truthy(token) && Truthy(userData) {
        var user := json.parse(userData.value);
        if user.Some? {
          ActualizarUIUsuario(user.value);
        } else {
          storage := ClearSession(storage);
        }
      }
    }

    /** openModal. */
    method OpenModal()
      modifies this`modalActive, this`forms
      ensures modalActive && forms == ShowLoginForms(old(forms), loginIsAuthForm)
    {
      modalActive := true;
      forms := ShowLoginForms(forms, loginIsAuthForm);
    }

    /** closeModal, with its 300 ms timeout run at once. */
    method CloseModal()
      modifies this`modalActive, this`forms
      ensures !modalActive && forms == ShowLoginForms(old(forms), loginIsAuthForm)
    {
      modalActive := false;
      forms := ShowLoginForms(forms, loginIsAuthForm);
    }

    /** The Escape key closes the modal only while it is open. */
    method PressEscape()
      modifies this`modalActive, this`forms
      ensures !modalActive
      ensures old(modalActive) ==> forms == ShowLoginForms(old(forms), loginIsAuthForm)
      ensures !old(modalActive) ==> forms == old(forms)
    {
      if modalActive {
        CloseModal();
      }
    }

    /** The click on the user icon: the profile page when both keys are
        stored, the modal otherwise. */
    method ClickUserIcon()
      modifies this`location, this`modalActive, this`forms
      ensures HasSession(storage) ==>
                location == Some(ProfileUrl) && modalActive == old(modalActive) && forms == old(forms)
      ensures !HasSession(storage) ==>
                location == old(location) && modalActive && forms == ShowLoginForms(old(forms), loginIsAuthForm)
    {
      var token := GetItem(storage, TokenKey);
      var userData := GetItem(storage, UserKey);
      if Truthy(token) && Truthy(userData) {
        location := Some(ProfileUrl);
      } else {
        OpenModal();
      }
    }

    /** The show-register link. */
    method ShowRegister()
      modifies this`forms
      ensures forms == ShowRegisterForms(old(forms), loginIsAuthForm)
    {
      forms := ShowRegisterForms(forms, loginIsAuthForm);
    }

    /** The show-login link; this one looks at the register form's class. */
    method ShowLogin()
      modifies this`forms
      ensures forms == ShowLoginForms(old(forms), registerIsAuthForm)
    {
      forms := ShowLoginForms(forms, registerIsAuthForm);
    }

    /** The user typing into the register form. */
    method FillRegister(nombre: string, email: string, password: string, confirm: string)
      modifies this`registerName, this`registerEmail, this`registerPassword, this`registerConfirm
      ensures registerName == nombre && registerEmail == email
      ensures registerPassword == password && registerConfirm == confirm
    {
      registerName, registerEmail, registerPassword, registerConfirm := nombre, email, password, confirm;
    }

    /** The user typing into the login form. */
    method FillLogin(email: string, password: string)
      modifies this`loginEmail, this`loginPassword
      ensures loginEmail == email && loginPassword == password
    {
      loginEmail, loginPassword := email, password;
    }

    /** limpiarFormularios. */
    method LimpiarFormularios()
      modifies this`registerName, this`registerEmail, this`registerPassword, this`registerConfirm,
               this`loginEmail, this`loginPassword
      ensures registerName == registerEmail == registerPassword == registerConfirm == ""
      ensures loginEmail == loginPassword == ""
    {
      registerName, registerEmail, registerPassword, registerConfirm := "", "", "", "";
      loginEmail, loginPassword := "", "";
    }

    /** What both forms do once their checks pass: the request is posted,
        then the reply handled. A success stores the session, then greets
        the user by name, updates the icon and closes the modal with both
        forms cleared; a success without a user stores the session but fails
        on the greeting, which is reported as a connection error. */
    method PostAndHandle(request: AuthRequest, form: Form, reply: Option<AuthReply>)
      modifies this`storage, this`messages, this`iconTitle, this`badge, this`modalActive, this`forms
      modifies this`registerName, this`registerEmail, this`registerPassword, this`registerConfirm
      modifies this`loginEmail, this`loginPassword, this`requests
      ensures Answered(request, form, reply)
    {
      requests := requests + [request];
      StoreReplySession(reply);
      ShowMessage(ReplyMessage(form, reply));
      if Welcomed(reply) {
        SignIn(reply.value.user.value);
      }
    }

    /** A success writes the token and the user record; any other reply
        leaves the storage alone. */
    method StoreReplySession(reply: Option<AuthReply>)
      modifies this`storage
      ensures storage == ReplyStorage(old(storage), reply, json)
    {
      if reply.Some? && reply.value.success {
        storage := StoreReply(storage, reply.value, json);
      }
    }

    /** mostrarMensaje. */
    method ShowMessage(m: Message)
      modifies this`messages
      ensures messages == old(messages) + [m]
    {
      messages := messages + [m];
    }

    /** The request recorded, the storage and the message following the
        reply, and then either the sign-in of the reply's user or the icon,
        the modal and the inputs left as they were. */
    twostate predicate Answered(request: AuthRequest, form: Form, reply: Option<AuthReply>)
      reads this
    {
      && requests == old(requests) + [request]
      && storage == ReplyStorage(old(storage), reply, json)
      && messages == old(messages) + [ReplyMessage(form, reply)]
      && (Welcomed(reply) ==> Welcome(old(badge), old(forms), reply.value.user.value))
      && (!Welcomed(reply) ==> Unwelcomed(old(badge), old(iconTitle), old(modalActive), old(forms),
                                          old(registerName), old(registerEmail), old(registerPassword),
                                          old(registerConfirm), old(loginEmail), old(loginPassword)))
    }

    /** The end of a welcomed reply: the icon updated, the modal closed and
        both forms cleared. */
    method SignIn(u: User)
      modifies this`iconTitle, this`badge, this`modalActive, this`forms
      modifies this`registerName, this`registerEmail, this`registerPassword, this`registerConfirm
      modifies this`loginEmail, this`loginPassword
      ensures Welcome(old(badge), old(forms), u)
    {
      ActualizarUIUsuario(u);
      CloseModal();
      LimpiarFormularios();
    }

    /** The page after a completed sign-in of `u`. */
    ghost predicate Welcome(badgeBefore: Option<string>, formsBefore: Forms, u: User)
      reads this
    {
      && iconTitle == Some(u.nombreCompleto + ProfileTitleSuffix)
      && badge == (if badgeBefore.Some? then badgeBefore else Some(Initial(u.nombreCompleto)))
      && !modalActive && forms == ShowLoginForms(formsBefore, loginIsAuthForm)
      && registerName == registerEmail == registerPassword == registerConfirm == ""
      && loginEmail == loginPassword == ""
    }

    /** The icon, the modal and the inputs as they were. */
    ghost predicate Unwelcomed(badge0: Option<string>, title0: Option<string>, active0: bool, forms0: Forms,
                               name0: string, email0: string, pw0: string, confirm0: string,
                               loginEmail0: string, loginPw0: string)
      reads this
    {
      && badge == badge0 && iconTitle == title0 && modalActive == active0 && forms == forms0
      && registerName == name0 && registerEmail == email0 && registerPassword == pw0 && registerConfirm == confirm0
      && loginEmail == loginEmail0 && loginPassword == loginPw0
    }

    /** The register button. A failed check shows its message and sends
        nothing; otherwise the trimmed name and email and the passwords as
        typed are posted and the reply handled; a reply that does not sign
        the user in only adds its message, leaving the modal and the typed
        inputs as they were. */
    method SubmitRegister(reply: Option<AuthReply>)
      modifies this`storage, this`messages, this`iconTitle, this`badge, this`modalActive, this`forms
      modifies this`registerName, this`registerEmail, this`registerPassword, this`registerConfirm
      modifies this`loginEmail, this`loginPassword, this`requests
      ensures CheckRegister(old(registerName), old(registerEmail), old(registerPassword), old(registerConfirm)).Some? ==>
                && requests == old(requests) && storage == old(storage)
                && messages == old(messages) + [Message(FormErrorText(CheckRegister(old(registerName), old(registerEmail),
                                                          old(registerPassword), old(registerConfirm)).value), ErrorMessage)]
                && Unwelcomed(old(badge), old(iconTitle), old(modalActive), old(forms),
                              old(registerName), old(registerEmail), old(registerPassword),
                              old(registerConfirm), old(loginEmail), old(loginPassword))
      ensures CheckRegister(old(registerName), old(registerEmail), old(registerPassword), old(registerConfirm)).None? ==>
                Answered(RegisterRequest(Trim(old(registerName)), Trim(old(registerEmail)),
                                         old(registerPassword), old(registerConfirm)), Register, reply)
    {
      var nombreCompleto := Trim(registerName);
      var email := Trim(registerEmail);
      var password := registerPassword;
      var confirmPassword := registerConfirm;
      var check := CheckRegister(registerName, registerEmail, password, confirmPassword);
      if check.Some? {
        ShowMessage(Message(FormErrorText(check.value), ErrorMessage));
        return;
      }
      PostAndHandle(RegisterRequest(nombreCompleto, email, password, confirmPassword), Register, reply);
    }

    /** The login button: a blank email or an empty password shows the
        message and sends nothing; otherwise the trimmed email and the
        password are posted and the reply handled, with the page left as it
        was when the reply does not sign the user in. */
    method SubmitLogin(reply: Option<AuthReply>)
      modifies this`storage, this`messages, this`iconTitle, this`badge, this`modalActive, this`forms
      modifies this`registerName, this`registerEmail, this`registerPassword, this`registerConfirm
      modifies this`loginEmail, this`loginPassword, this`requests
      ensures !CheckLogin(old(loginEmail), old(loginPassword)) ==>
                && requests == old(requests) && storage == old(storage)
                && messages == old(messages) + [Message(FillAllFields, ErrorMessage)]
                && Unwelcomed(old(badge), old(iconTitle), old(modalActive), old(forms),
                              old(registerName), old(registerEmail), old(registerPassword),
                              old(registerConfirm), old(loginEmail), old(loginPassword))
      ensures CheckLogin(old(loginEmail), old(loginPassword)) ==>
                Answered(LoginRequest(Trim(old(loginEmail)), old(loginPassword)), Login, reply)
    {
      var email := Trim(loginEmail);
      var password := loginPassword;
      if !CheckLogin(loginEmail, password) {
        ShowMessage(Message(FillAllFields, ErrorMessage));
        return;
      }
      PostAndHandle(LoginRequest(email, password), Login, reply);
    }

    /** window.cerrarSesion: both keys removed, the badge removed, the icon
        back to its guest title, a message, and the home page. */
    method CerrarSesion()
      modifies this`storage, this`badge, this`iconTitle, this`messages, this`location
      ensures storage == ClearSession(old(storage)) && !HasSession(storage)
      ensures badge == None && iconTitle == Some(GuestTitle)
      ensures messages == old(messages) + [Message(LoggedOut, SuccessMessage)]
      ensures location == Some(HomeUrl)
    {
      storage := ClearSession(storage);
      badge := None;
      iconTitle := Some(GuestTitle);
      messages := messages + [Message(LoggedOut, SuccessMessage)];
      location := Some(HomeUrl);
    }
  }

  /** A success reply that lacks the user leaves a session whose record
      does not parse; the next page load removes both keys again. */
  method BrokenSessionIsCleared(json: Json, storage: Storage, d: AuthReply, forms: Forms)
    returns (after: Storage)
    requires RoundTrips(json) && d.success && d.user.None?
    requires d.token.Some? ==> d.token.value != ""
    ensures HasSession(StoreReply(storage, d, json))
    ensures after == ClearSession(StoreReply(storage, d, json)) && !HasSession(after)
  {
    var stored := StoreReply(storage, d, json);
    SuccessOpensSession(storage, d, json);
    var page := new AuthPage(json, stored, true, true, forms);
    page.VerificarSesion();
    after := page.storage;
  }
}
