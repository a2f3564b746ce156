/** The profile page. Without a stored session it sends the visitor home;
    with one it asks /api/auth/me for fresh user data (falling back to the
    stored record), lets the user edit the name and email kept in
    localStorage, and checks the password-change form, which sends nothing.
    The constructor is the synchronous part of DOMContentLoaded; ReceiveMe is
    the rest of cargarDatosUsuario once the reply (a parameter) arrives. */
module Perfil {
  import opened Text
  import opened Session

  const LoginRequired: string := "Debes iniciar sesión para acceder a tu perfil"
  const HomePage: string := "../index.html"
  const MeEndpoint: string := "/api/auth/me"
  const FillAllFields: string := "Por favor completa todos los campos"
  const ProfileUpdated: string := "Información actualizada correctamente"
  const FillAllPasswords: string := "Por favor completa todos los campos de contraseña"
  const NewPasswordsDiffer: string := "Las nuevas contraseñas no coinciden"
  const NewPasswordTooShort: string := "La nueva contraseña debe tener al menos 6 caracteres"
  const PasswordChangePending: string := "Función de cambio de contraseña en desarrollo"

  /** A message of the page's mostrarMensaje: green for 'success', red
      otherwise. */
  datatype Notice = Notice(text: string, success: bool)

  /** The reply of /api/auth/me: `success` and `user`. */
  datatype MeReply = MeReply(success: bool, user: Option<User>)

  /** The GET of /api/auth/me with `Authorization: Bearer <token>`. */
  datatype MeRequest = MeRequest(url: string, bearer: string)

  /** The user record stored in localStorage, if it is there and parses:
      what cargarDatosDesdeLocalStorage and mostrarBadgeEnHeader read. */
  function StoredUser(storage: Storage, json: Json): (r: Option<User>)
    ensures r.Some? ==> UserKey in storage && storage[UserKey] != "" && json.parse(storage[UserKey]) == r
  {
    var userData := GetItem(storage, UserKey);
    if Truthy(userData) then json.parse(userData.value) else None
  }

  /** Storing a record and reading it back gives the record: after a
      successful /me the page and the store agree. */
  lemma StoredUserAfterStore(storage: Storage, json: Json, u: User)
    requires RoundTrips(json)
    ensures StoredUser(storage[UserKey := json.stringify(u)], json) == Some(u)
  {
    assert json.stringify(u) != "";
  }

  /** What Save writes: the stored record with the new name and email and
      every other field (id, fecha_registro, ...) kept. */
  function Edited(u: User, nombre: string, email: string): (r: User)
    ensures r.nombreCompleto == nombre && r.email == email && r.rest == u.rest
  {
    u.(nombreCompleto := nombre, email := email)
  }

  /** Saving writes back a record that reads as the edited one, and saving
      the same values again changes nothing more. */
  lemma SaveRoundTrip(storage: Storage, json: Json, u: User, nombre: string, email: string)
    requires RoundTrips(json)
    ensures StoredUser(storage[UserKey := json.stringify(Edited(u, nombre, email))], json) == Some(Edited(u, nombre, email))
    ensures Edited(Edited(u, nombre, email), nombre, email) == Edited(u, nombre, email)
  {
    StoredUserAfterStore(storage, json, Edited(u, nombre, email));
  }

  /** The check of the save button: both trimmed values non-empty. */
  function CheckProfile(nombre: string, email: string): (ok: bool)
    ensures ok <==> !Blank(nombre) && !Blank(email)
  {
    TrimEmptyIff(nombre);
    TrimEmptyIff(email);
    Trim(nombre) != "" && Trim(email) != ""
  }

  /** The message of the password form: its own texts for the three
      failures of the shared check, and the not-yet-available notice when
      every check passes. All of them are shown as errors. */
  function PasswordNotice(actual: string, nueva: string, confirmar: string): (n: Notice)
    ensures !n.success
    ensures n.text == PasswordChangePending <==> CheckPasswords(actual != "" && nueva != "" && confirmar != "", nueva, confirmar).None?
  {
    match CheckPasswords(actual != "" && nueva != "" && confirmar != "", nueva, confirmar)
    case None => Notice(PasswordChangePending, false)
    case Some(MissingFields) => Notice(FillAllPasswords, false)
    case Some(Mismatch) => Notice(NewPasswordsDiffer, false)
    case Some(TooShort) => Notice(NewPasswordTooShort, false)
  }

  /** The current password only has to be present: it plays no part in the
      outcome otherwise. */
  lemma CurrentPasswordOnlyPresent(a1: string, a2: string, nueva: string, confirmar: string)
    requires a1 != "" && a2 != ""
    ensures PasswordNotice(a1, nueva, confirmar) == PasswordNotice(a2, nueva, confirmar)
  {
  }

  class ProfilePage {
    const json: Json
    var storage: Storage
    /** Whether the session check passed and the page set itself up. Only
        then are the button listeners installed, so every handler below
        requires it. */
    var active: bool
    var location: Option<string>
    var notices: seq<Notice>
    var requests: seq<MeRequest>
    /** #avatarInitial, #nombreUsuario, #emailUsuario. */
    var avatarInitial: string
    var nombreUsuario: string
    var emailUsuario: string
    /** The #editNombre and #editEmail inputs. */
    var editNombre: string
    var editEmail: string
    /** The inputs are editable and the save/cancel buttons shown. */
    var editing: bool
    /** `datosOriginales`. */
    var originalNombre: string
    var originalEmail: string
    /** The save button is disabled. */
    var saveBusy: bool
    var passwordActual: string
    var passwordNueva: string
    var passwordConfirmar: string
    /** The text of the '.user-badge' in the header, if there is one. */
    var badge: Option<string>

    /** DOMContentLoaded, up to the request for fresh data. `nombre0` and
        `email0` are the inputs as in the markup, `badge0` a badge another
        script may have added already. Without a session: the message and
        the way home (after 1.5 s). With one: the request, the originals for
        Cancel taken from the inputs as they are before the reply, and the
        badge from the stored record if none is there. */
    constructor (json: Json, storage: Storage, nombre0: string, email0: string, badge0: Option<string>)
      ensures this.json == json && this.storage == storage
      ensures active <==> HasSession(storage)
      ensures !active ==> notices == [Notice(LoginRequired, false)] && location == Some(HomePage) && requests == []
      ensures active ==> notices == [] && location == None && requests == [MeRequest(MeEndpoint, storage[TokenKey])]
      ensures editNombre == originalNombre == nombre0 && editEmail == originalEmail == email0
      ensures !editing && !saveBusy
      ensures active && badge0.None? && StoredUser(storage, json).Some? ==>
                badge == Some(Initial(StoredUser(storage, json).value.nombreCompleto))
      ensures !(active && badge0.None? && StoredUser(storage, json).Some?) ==> badge == badge0
    {
      this.json := json;
      this.storage := storage;
      avatarInitial, nombreUsuario, emailUsuario := "", "", "";
      editNombre, editEmail := nombre0, email0;
      originalNombre, originalEmail := nombre0, email0;
      editing, saveBusy := false, false;
      passwordActual, passwordNueva, passwordConfirmar := "", "", "";
      badge := badge0;
      location := None;
      notices := [];
      requests := [];
      var ok := VerificarSesionActiva(storage);
      active := ok;
      new;
      if !active {
        notices := [Notice(LoginRequired, false)];
        location := Some(HomePage);
        return;
      }
      requests := [MeRequest(MeEndpoint, storage[TokenKey])];
      MostrarBadgeEnHeader();
    }

    /** mostrarBadgeEnHeader: the initial of the stored user, unless a badge
        is already there. */
    method MostrarBadgeEnHeader()
      modifies this`badge
      ensures old(badge).None? && StoredUser(storage, json).Some? ==>
                badge == Some(Initial(StoredUser(storage, json).value.nombreCompleto))
      ensures !(old(badge).None? && StoredUser(storage, json).Some?) ==> badge == old(badge)
    {
      var user := StoredUser(storage, json);
      if user.Some? && badge.None? {
        badge := Some(Initial(user.value.nombreCompleto));
      }
    }

    /** Fills the header and the inputs with a user record. */
    method ShowUser(u: User)
      modifies this`avatarInitial, this`nombreUsuario, this`emailUsuario, this`editNombre, this`editEmail
      ensures avatarInitial == Initial(u.nombreCompleto)
      ensures nombreUsuario == editNombre == u.nombreCompleto
      ensures emailUsuario == editEmail == u.email
    {
      avatarInitial := Initial(u.nombreCompleto);
      nombreUsuario, emailUsuario := u.nombreCompleto, u.email;
      editNombre, editEmail := u.nombreCompleto, u.email;
    }

    /** The rest of cargarDatosUsuario. A reply with success and a user
        replaces the stored record and is shown; anything else (no reply,
        an unreadable body, a failure) shows the stored record if it parses,
        and nothing otherwise. */
    method ReceiveMe(reply: Option<MeReply>)
      requires active
      modifies this`storage, this`avatarInitial, this`nombreUsuario, this`emailUsuario, this`editNombre, this`editEmail
      ensures reply.Some? && reply.value.success && reply.value.user.Some? ==>
                && storage == old(storage)[UserKey := json.stringify(reply.value.user.value)]
                && nombreUsuario == editNombre == reply.value.user.value.nombreCompleto
                && emailUsuario == editEmail == reply.value.user.value.email
                && avatarInitial == Initial(reply.value.user.value.nombreCompleto)
      ensures !(reply.Some? && reply.value.success && reply.value.user.Some?) ==>
                && storage == old(storage)
                && (StoredUser(storage, json).Some? ==>
                      var u := StoredUser(storage, json).value;
                      nombreUsuario == editNombre == u.nombreCompleto && emailUsuario == editEmail == u.email
                      && avatarInitial == Initial(u.nombreCompleto))
                && (StoredUser(storage, json).None? ==>
                      nombreUsuario == old(nombreUsuario) && emailUsuario == old(emailUsuario)
                      && editNombre == old(editNombre) && editEmail == old(editEmail)
                      && avatarInitial == old(avatarInitial))
    {
      if reply.Some? && reply.value.success && reply.value.user.Some? {
        var user := reply.value.user.value;
        storage := storage[UserKey := json.stringify(user)];
        ShowUser(user);
      } else {
        var user := StoredUser(storage, json);
        if user.Some? {
          ShowUser(user.value);
        }
      }
    }

    /** The edit button: the current inputs become the originals and the
        inputs editable. */
    method Edit()
      requires active
      modifies this`originalNombre, this`originalEmail, this`editing
      ensures originalNombre == editNombre && originalEmail == editEmail && editing
    {
      originalNombre, originalEmail := editNombre, editEmail;
      editing := true;
    }

    /** The user typing into the editable inputs. */
    method TypeProfile(nombre: string, email: string)
      requires active && editing
      modifies this`editNombre, this`editEmail
      ensures editNombre == nombre && editEmail == email
    {
      editNombre, editEmail := nombre, email;
    }

    /** mostrarMensaje: the notice is added to the page. */
    method MostrarMensaje(n: Notice)
      modifies this`notices
      ensures notices == old(notices) + [n]
    {
      notices := notices + [n];
    }

    /** The save button (ignored while it is disabled). Blank values: a
        message and nothing else. Otherwise the button is disabled and the
        stored record read; when it is missing or does not parse, the
        handler throws and the button stays disabled. When it parses, the
        trimmed name and email are written into it, shown in the header and
        the badge (if there is one), the inputs are locked again (still
        holding the untrimmed text) and the button re-enabled. */
    method Save()
      requires active
      modifies this`storage, this`notices, this`nombreUsuario, this`emailUsuario, this`avatarInitial,
               this`badge, this`editing, this`saveBusy
      ensures old(saveBusy) ==>
                && storage == old(storage) && nombreUsuario == old(nombreUsuario) && emailUsuario == old(emailUsuario)
                && avatarInitial == old(avatarInitial) && badge == old(badge) && editing == old(editing)
                && notices == old(notices) && saveBusy
      ensures !old(saveBusy) && !CheckProfile(editNombre, editEmail) ==>
                && storage == old(storage) && nombreUsuario == old(nombreUsuario) && emailUsuario == old(emailUsuario)
                && avatarInitial == old(avatarInitial) && badge == old(badge) && editing == old(editing)
                && notices == old(notices) + [Notice(FillAllFields, false)] && !saveBusy
      ensures !old(saveBusy) && CheckProfile(editNombre, editEmail) ==>
                SavedAs(old(storage), old(nombreUsuario), old(emailUsuario), old(avatarInitial), old(badge),
                        old(editing), old(notices), Trim(editNombre), Trim(editEmail))
    {
      if saveBusy {
        return;
      }
      if !CheckProfile(editNombre, editEmail) {
        notices := notices + [Notice(FillAllFields, false)];
        return;
      }
      SaveChecked(Trim(editNombre), Trim(editEmail));
    }

    /** The page after a save of `nombre` and `email` that passed the
        check: without a readable stored record only the button is
        disabled; with one the record is written back edited, the header and
        the badge show the new values, the inputs are locked and the button
        enabled again. */
    ghost predicate SavedAs(storage0: Storage, nombre0: string, email0: string, initial0: string,
                            badge0: Option<string>, editing0: bool, notices0: seq<Notice>,
                            nombre: string, email: string)
      reads this
    {
      && (StoredUser(storage0, json).None? ==>
            && storage == storage0 && nombreUsuario == nombre0 && emailUsuario == email0
            && avatarInitial == initial0 && badge == badge0 && editing == editing0
            && notices == notices0 && saveBusy)
      && (StoredUser(storage0, json).Some? ==>
            && storage == storage0[UserKey := json.stringify(Edited(StoredUser(storage0, json).value, nombre, email))]
            && nombreUsuario == nombre && emailUsuario == email && avatarInitial == Initial(nombre)
            && badge == (if badge0.Some? then Some(Initial(nombre)) else None)
            && !editing && !saveBusy
            && notices == notices0 + [Notice(ProfileUpdated, true)])
    }

    /** The save once the inputs passed the check: the button disabled, then
        the stored record read; without one nothing more happens, otherwise
        it is edited and written back. */
    method SaveChecked(nombre: string, email: string)
      modifies this`storage, this`notices, this`nombreUsuario, this`emailUsuario, this`avatarInitial,
               this`badge, this`editing, this`saveBusy
      ensures SavedAs(old(storage), old(nombreUsuario), old(emailUsuario), old(avatarInitial), old(badge),
                      old(editing), old(notices), nombre, email)
    {
      saveBusy := true;
      var userData := StoredUser(storage, json);
      if userData.None? {
        return;
      }
      WriteProfile(userData.value, nombre, email);
    }

    /** The end of a save: the record written back, the header and the
        badge updated, the inputs locked and the button re-enabled. */
    method WriteProfile(u: User, nombre: string, email: string)
      modifies this`storage, this`notices, this`nombreUsuario, this`emailUsuario, this`avatarInitial,
               this`badge, this`editing, this`saveBusy
      ensures storage == old(storage)[UserKey := json.stringify(Edited(u, nombre, email))]
      ensures nombreUsuario == nombre && emailUsuario == email && avatarInitial == Initial(nombre)
      ensures badge == (if old(badge).Some? then Some(Initial(nombre)) else None)
      ensures !editing && !saveBusy
      ensures notices == old(notices) + [Notice(ProfileUpdated, true)]
    {
      storage := storage[UserKey := json.stringify(Edited(u, nombre, email))];
      nombreUsuario, emailUsuario := nombre, email;
      avatarInitial := Initial(nombre);
      if badge.Some? {
        badge := Some(Initial(nombre));
      }
      editing := false;
      saveBusy := false;
      MostrarMensaje(Notice(ProfileUpdated, true));
    }

    /** The cancel button: the inputs get back the originals and are locked. */
    method Cancel()
      requires active
      modifies this`editNombre, this`editEmail, this`editing
      ensures editNombre == originalNombre && editEmail == originalEmail && !editing
    {
      editNombre, editEmail := originalNombre, originalEmail;
      editing := false;
    }

    /** The user typing into the password form. */
    method TypePasswords(actual: string, nueva: string, confirmar: string)
      requires active
      modifies this`passwordActual, this`passwordNueva, this`passwordConfirmar
      ensures passwordActual == actual && passwordNueva == nueva && passwordConfirmar == confirmar
    {
      passwordActual, passwordNueva, passwordConfirmar := actual, nueva, confirmar;
    }

    /** The change-password button: the message of the checks; the fields
        are cleared only when every check passes. No request is sent. */
    method ChangePassword()
      requires active
      modifies this`notices, this`passwordActual, this`passwordNueva, this`passwordConfirmar
      ensures notices == old(notices) + [PasswordNotice(old(passwordActual), old(passwordNueva), old(passwordConfirmar))]
      ensures CheckPasswords(old(passwordActual) != "" && old(passwordNueva) != "" && old(passwordConfirmar) != "",
                             old(passwordNueva), old(passwordConfirmar)).None? ==>
                passwordActual == passwordNueva == passwordConfirmar == ""
      ensures CheckPasswords(old(passwordActual) != "" && old(passwordNueva) != "" && old(passwordConfirmar) != "",
                             old(passwordNueva), old(passwordConfirmar)).Some? ==>
                passwordActual == old(passwordActual) && passwordNueva == old(passwordNueva)
                && passwordConfirmar == old(passwordConfirmar)
    {
      var actual, nueva, confirmar := passwordActual, passwordNueva, passwordConfirmar;
      var check := CheckPasswords(actual != "" && nueva != "" && confirmar != "", nueva, confirmar);
      MostrarMensaje(PasswordNotice(actual, nueva, confirmar));
      if check.None? {
        passwordActual, passwordNueva, passwordConfirmar := "", "", "";
      }
    }
  }

  /** verificarSesionActiva: both keys present and non-empty. */
  method VerificarSesionActiva(storage: Storage) returns (ok: bool)
    ensures ok <==> TokenKey in storage && storage[TokenKey] != "" && UserKey in storage && storage[UserKey] != ""
    ensures ok == HasSession(storage)
  {
    var token := GetItem(storage, TokenKey);
    var userData := GetItem(storage, UserKey);
    ok := Truthy(token) && Truthy(userData);
  }

  /** Edit, typing, Cancel: the inputs are back to what they were. */
  method EditThenCancel(p: ProfilePage, nombre: string, email: string)
    requires p.active
    modifies p
    ensures p.editNombre == old(p.editNombre) && p.editEmail == old(p.editEmail) && !p.editing
    ensures p.storage == old(p.storage)
  {
    p.Edit();
    p.TypeProfile(nombre, email);
    p.Cancel();
  }
}
