/** The browser-side session shared by the authentication modal and the
    profile page: localStorage as a map from key to string, the two keys the
    scripts use, what counts as an open session, and the password form check
    that register and password change share. */
module Session {
  import opened Text

  /** window.localStorage: key to string. */
  type Storage = map<string, string>

  const TokenKey: string := "auth_token"
  const UserKey: string := "user_data"

  /** The user record the server returns and the page stores as JSON. The
      scripts read only `nombre_completo` and `email`; every other field
      (id, fecha_registro, ...) is carried along untouched in `rest`. */
  datatype User = User(nombreCompleto: string, email: string, rest: map<string, string>)

  /** JSON.parse and JSON.stringify on the stored user record. They are
      library calls, so the model takes them as a pair of functions. */
  datatype Json = Json(parse: string -> Option<User>, stringify: User -> string)

  /** The text localStorage.setItem stores for `undefined`. */
  const UndefinedText: string := "undefined"

  /** What the scripts rely on: parsing what was stringified gives the record
      back, the text of an object is never empty, and "undefined" is not
      JSON. */
  ghost predicate RoundTrips(json: Json) {
    && (forall u :: json.parse(json.stringify(u)) == Some(u) && json.stringify(u) != "")
    && json.parse(UndefinedText) == None
  }

  /** localStorage.getItem: null (None) for a missing key. */
  function GetItem(storage: Storage, key: string): (r: Option<string>)
    ensures r.Some? <==> key in storage
    ensures r.Some? ==> r.value == storage[key]
  {
    if key in storage then Some(storage[key]) else None
  }

  /** `token && userData`: both entries present and non-empty. */
  predicate HasSession(storage: Storage) {
    Truthy(GetItem(storage, TokenKey)) && Truthy(GetItem(storage, UserKey))
  }

  /** removeItem('auth_token'); removeItem('user_data'). */
  function ClearSession(storage: Storage): (r: Storage)
    ensures TokenKey !in r && UserKey !in r
    ensures forall k :: k in storage && k != TokenKey && k != UserKey ==> k in r && r[k] == storage[k]
    ensures r.Keys <= storage.Keys
    ensures !HasSession(r)
  {
    storage - {TokenKey} - {UserKey}
  }

  /** setItem('auth_token', token); setItem('user_data', userJson). */
  function SaveSession(storage: Storage, token: string, userJson: string): (r: Storage)
    ensures TokenKey in r && r[TokenKey] == token
    ensures UserKey in r && r[UserKey] == userJson
    ensures forall k :: k in storage && k != TokenKey && k != UserKey ==> k in r && r[k] == storage[k]
    ensures r.Keys == storage.Keys + {TokenKey, UserKey}
  {
    storage[TokenKey := token][UserKey := userJson]
  }

  /** Storing a non-empty token with a stringified user opens a session, and
      clearing afterwards closes it again without touching any other key. */
  lemma SaveThenClear(storage: Storage, token: string, json: Json, u: User)
    requires RoundTrips(json)
    ensures HasSession(SaveSession(storage, token, json.stringify(u))) <==> token != ""
    ensures ClearSession(SaveSession(storage, token, json.stringify(u))) == ClearSession(storage)
  {
    assert json.stringify(u) != "";
    var saved := SaveSession(storage, token, json.stringify(u));
    assert ClearSession(saved).Keys == ClearSession(storage).Keys;
  }

  /** The three failures of a password form, in the order they are checked. */
  datatype FormError = MissingFields | Mismatch | TooShort

  const MinPasswordLength: nat := 6

  /** The check shared by registration and password change: every field
      present, then the password equal to its confirmation, then at least six
      characters long. The first failing step is reported. */
  function CheckPasswords(allPresent: bool, password: string, confirm: string): (r: Option<FormError>)
    ensures r == None <==> allPresent && password == confirm && |password| >= MinPasswordLength
    ensures !allPresent ==> r == Some(MissingFields)
    ensures r == Some(Mismatch) <==> allPresent && password != confirm
    ensures r == Some(TooShort) <==> allPresent && password == confirm && |password| < MinPasswordLength
  {
    if !allPresent then Some(MissingFields)
    else if password != confirm then Some(Mismatch)
    else if |password| < MinPasswordLength then Some(TooShort)
    else None
  }
}
