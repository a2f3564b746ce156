# Prestige Barbers — browser-side core in Dafny

This project models the scripts that run in the browser on the Prestige
Barbers site, and proves properties about them:

- **Home-page carousel** (`carousel.dfy`, module `Carousel`). The featured
  cuts sit on a track that holds a clone of the last cut, the real cuts, and
  a clone of the first cut. The index moves on that track, guarded by
  "transitioning" and "dragging" flags. When a transition ends on a clone,
  the carousel jumps to the real slide the clone copies. The dots show the
  cut on screen. The listeners are live before the cuts arrive and the
  reply does not reset the index, so a swipe made while the cuts load can
  leave the carousel on a clone with no jump pending; the model shows this.
- **Barbers page** (`barbero.dfy`, module `Barberos`). Each barber's card
  has a dark or light layout (odd or even id), a type label and a schedule
  text. Its gallery comes from the four cut slots and four beard slots
  looked up in the catalogues. 'Ambos' barbers show two random cuts
  interleaved with two random beards.
- **Reservation page** (`reserva.dfy`, module `Reserva`). The page checks the
  URL parameters, then loads the service, then the barbers who can do it.
  It shows one button per barber, and at most one button is selected.
- **Authentication modal** (`auth_modal.dfy`, module `AuthModal`). The user
  icon opens the profile or the modal. The modal has a login form and a
  register form. Each form is checked in order before anything is sent. A
  successful reply is stored as the session, and the user's badge appears
  on the icon. Logout and the check of the session on page load are here
  too.
- **Profile page** (`perfil.dfy`, module `Perfil`). The page sends visitors
  without a session home. It refreshes the stored user from `/api/auth/me`,
  falling back to the stored record. It lets the user edit the name and
  email in the stored record, with Cancel restoring the previous values. It
  checks the password-change form.

Two shared modules support them. `Text` holds optional values, JavaScript
truthiness, `String.prototype.trim` and the upper-cased initial. `Session`
holds localStorage as a map, the `auth_token`/`user_data` keys, what counts
as a session, and the password check shared by registration and password
change.

How the model is built:

- Every response of the server is a parameter: `fetch`, `response.json()`
  and `JSON.parse`/`JSON.stringify` are given as values or functions.
- `Math.random` is a stream of numbers chosen by the caller.
- Timers are explicit methods (`FinishTransition`), or their callbacks run
  at once.
- Objects whose fields the scripts update are Dafny classes. Each method
  states the new state outright. The pure decisions (filters, labels,
  lookups, checks) are functions, with lemmas about them.

## Model

| member | source | states |
|---|---|---|
| Text.Truthy | Frontend/public/js/auth-modal.js:34 | a string is truthy in JavaScript iff it is present and not empty |
| Text.IsSpace | Frontend/public/js/auth-modal.js:101-102 | the characters `trim` removes: JavaScript's WhiteSpace and LineTerminator sets |
| Text.TrimStart | Frontend/public/js/auth-modal.js:101-102 | the result is the suffix of the input left after its leading white space, and starts with a non-space |
| Text.TrimEnd | Frontend/public/js/auth-modal.js:101-102 | the result is the prefix of the input left before its trailing white space, and ends with a non-space |
| Text.Trim | Frontend/public/js/auth-modal.js:101-102 | `trim()` never lengthens its input, and the result neither starts nor ends with white space |
| Text.TrimEmptyIff | Frontend/public/js/auth-modal.js:101-107 | a trimmed field is empty, so falsy, exactly when the input was blank |
| Text.TrimIdempotent | Frontend/public/js/auth-modal.js:101-102 | trimming twice is trimming once |
| Text.Blank | Frontend/public/js/auth-modal.js:101-107 | a value is blank iff every character of it is white space |
| Text.UpperChar | Frontend/public/js/auth-modal.js:400 | `toUpperCase` of one character gives one or two characters, and maps a-z to A-Z |
| Text.Initial | Frontend/public/js/auth-modal.js:400 | `charAt(0).toUpperCase()` is empty exactly for an empty name, has at most two characters, and keeps an upper-case first letter |
| Session.GetItem | Frontend/public/js/auth-modal.js:31-32 | `getItem` is present exactly for a stored key, and then holds its value |
| Session.HasSession | Frontend/public/js/auth-modal.js:31-34 | a session exists iff both the token and the user record are stored and non-empty |
| Session.ClearSession | Frontend/public/js/auth-modal.js:431-432 | removing both keys leaves no session and every other key unchanged |
| Session.SaveSession | Frontend/public/js/auth-modal.js:157-158 | storing the token and user text sets exactly those two keys and keeps the others |
| Session.SaveThenClear | Frontend/public/js/auth-modal.js:155-158 | storing a stringified user opens a session iff the token is non-empty; clearing afterwards gives the storage from before minus the two keys |
| Session.CheckPasswords | Frontend/public/js/auth-modal.js:107-132 | the first failing step among: all present, equal, at least 6 characters; it passes iff all three hold |
| Carousel.Track | Frontend/public/js/carousel.js:78-86 | the track has n+2 slides: the last cut's clone, cut i at index i+1, the first cut's clone |
| Carousel.LogicalIndex | Frontend/public/js/carousel.js:110-115 | any track index in [0, n+1] maps to a dot in [0, n) |
| Carousel.ActiveDots | Frontend/public/js/carousel.js:116-118 | dot i is active iff i is the logical index of the current position |
| Carousel.CountActiveSingle | Frontend/public/js/carousel.js:116-118 | a dot row whose only lit dot is k has exactly one active dot |
| Carousel.CountActiveNone | Frontend/public/js/carousel.js:116-118 | a dot row with no lit dot counts zero |
| Carousel.ExactlyOneDotActive | Frontend/public/js/carousel.js:108-119 | for any track index in [0, n+1], exactly one dot is active |
| Carousel.DotShowsCurrentSlide | Frontend/public/js/carousel.js:78-86 | the slide at any track index is the cut whose dot is lit |
| Carousel.Snap | Frontend/public/js/carousel.js:142-149 | the jump after a transition lands on a real slide, keeps the lit dot, and leaves real slides alone |
| Carousel.SnapShowsSameCut | Frontend/public/js/carousel.js:141-149 | the jump is invisible: the same cut is on screen before and after |
| Carousel.DragTarget | Frontend/public/js/carousel.js:213-220 | next iff moved < -50, previous iff moved > 50, same slide iff within ±50 |
| Carousel.Carousel.constructor | Frontend/public/js/carousel.js:14-28 | before the reply: valid, no cuts, no slides and no dots, the index is 1 and no transition or drag is running |
| Carousel.Carousel.ReceiveCuts | Frontend/public/js/carousel.js:31-54 | the cuts become the response and the track and dots are built around the index the handlers left; the state is valid again iff that index lies on the new track (on a real slide unless a transition is running) |
| Carousel.Carousel.CreateSlides | Frontend/public/js/carousel.js:78-86 | the track becomes the clone layout of the cuts |
| Carousel.Carousel.CreateDots | Frontend/public/js/carousel.js:98-105 | one unlit dot per cut |
| Carousel.Carousel.UpdateDots | Frontend/public/js/carousel.js:108-119 | the dots become the active pattern for the current index |
| Carousel.Carousel.GoToSlide | Frontend/public/js/carousel.js:121-140 | no change while transitioning; the same index while not dragging only repositions; otherwise a transition to the index starts and the dots follow |
| Carousel.Carousel.FinishTransition | Frontend/public/js/carousel.js:141-156 | the index becomes the snapped index, the transition ends, and the index is again on a real slide |
| Carousel.Carousel.NextSlide | Frontend/public/js/carousel.js:159-161 | a transition to the next track index starts unless one is running |
| Carousel.Carousel.ClickDot | Frontend/public/js/carousel.js:101-103 | clicking dot i goes to track index i+1 |
| Carousel.Carousel.DragStart | Frontend/public/js/carousel.js:191-193 | a drag starts unless a transition is running |
| Carousel.Carousel.DragEnd | Frontend/public/js/carousel.js:207-221 | nothing unless dragging; otherwise the drag ends and the carousel goes to the drag target |
| Carousel.WrapAround | Frontend/public/js/carousel.js:141-160 | from the last real slide, one tick and its timeout leave the carousel on the first real slide |
| Carousel.EarlySwipeLeavesTrack | Frontend/public/js/carousel.js:27-28 | a left swipe before the reply, then one cut: the carousel rests on the clone after the last slide with no transition pending, outside the valid states |
| Barberos.PresentIds | Frontend/public/Barberos/B-js/barbero.js:43-48 | never more ids than slots, and an id is kept iff it is in a slot |
| Barberos.PresentIdsAppend | Frontend/public/Barberos/B-js/barbero.js:43-48 | the ids of two runs of slots are those of the first run followed by those of the second (the filter keeps slot order) |
| Barberos.PresentIdsOne | Frontend/public/Barberos/B-js/barbero.js:48 | a set slot keeps its id and a null slot contributes nothing |
| Barberos.Find | Frontend/public/Barberos/B-js/barbero.js:57 | `find` gives the first work with the id, or nothing iff no work has it |
| Barberos.Found | Frontend/public/Barberos/B-js/barbero.js:56-59 | never more works than ids |
| Barberos.FoundSound | Frontend/public/Barberos/B-js/barbero.js:56-59 | every work returned is in the catalogue and answers a requested id |
| Barberos.FoundComplete | Frontend/public/Barberos/B-js/barbero.js:56-59 | when all ids are in the catalogue, there is one work per id, in id order |
| Barberos.FoundNone | Frontend/public/Barberos/B-js/barbero.js:56-59 | when no id is in the catalogue, nothing is found |
| Barberos.FoundAppend | Frontend/public/Barberos/B-js/barbero.js:56-59 | the works found for two runs of ids are those of the first run followed by those of the second |
| Barberos.FoundOne | Frontend/public/Barberos/B-js/barbero.js:57-58 | one id gives its catalogue work, or nothing when the catalogue lacks it |
| Barberos.FoundSkipsMissing | Frontend/public/Barberos/B-js/barbero.js:57-58 | an id missing from the catalogue is skipped silently and the works for the ids around it keep their order |
| Barberos.LookupWorks | Frontend/public/Barberos/B-js/barbero.js:56-59 | the forEach/push loop computes the found works |
| Barberos.SlotWorks | Frontend/public/Barberos/B-js/barbero.js:41-65 | no works without a set slot or without a catalogue; otherwise the catalogue works for the slot ids, in slot order |
| Barberos.GetWorks | Frontend/public/Barberos/B-js/barbero.js:41-65 | a request is made iff a slot is set; the result is the works found, each from the catalogue with its id in a slot |
| Barberos.GetCortesBarbero | Frontend/public/Barberos/B-js/barbero.js:41-65 | the same for the cut slots |
| Barberos.GetBarbasBarbero | Frontend/public/Barberos/B-js/barbero.js:68-92 | the same for the beard slots |
| Barberos.FormatHorarios | Frontend/public/Barberos/B-js/barbero.js:95-100 | the truthy schedules joined with " & ", morning first and afternoon last, or "Sin horarios definidos" when neither is set |
| Barberos.ScheduleText | Frontend/public/Barberos/B-js/barbero.js:95-100 | both schedules joined by " & ", either one alone, or "Sin horarios definidos" when neither is truthy |
| Barberos.Join | Frontend/public/Barberos/B-js/barbero.js:99 | `join`: the parts with the separator between consecutive parts only |
| Barberos.Pick | Frontend/public/Barberos/B-js/barbero.js:111-115 | k draws: position rand(j) % length of what is left, removed before the next draw |
| Barberos.Selection | Frontend/public/Barberos/B-js/barbero.js:103-118 | [] for an empty input, the input itself when it has at most k elements, else k random draws |
| Barberos.Draws | Frontend/public/Barberos/B-js/barbero.js:103-118 | how many random numbers a selection consumes: k when it draws, otherwise 0 |
| Barberos.Remove | Frontend/public/Barberos/B-js/barbero.js:114 | `splice(i, 1)` leaves one element fewer, and what is gone is one copy of the element at i |
| Barberos.PickDistinct | Frontend/public/Barberos/B-js/barbero.js:111-115 | k draws give k elements from distinct positions of the input (multiset inclusion) |
| Barberos.SelectionBounds | Frontend/public/Barberos/B-js/barbero.js:103-118 | a selection has min(k, length) elements, all from distinct positions of the input |
| Barberos.SeleccionarAleatorios | Frontend/public/Barberos/B-js/barbero.js:103-118 | empty gives []; at most k gives the input itself; otherwise the loop's result is the sequence of draws from a shrinking copy, as the draw stream dictates (its size and distinctness are SelectionBounds) |
| Barberos.Interleave | Frontend/public/Barberos/B-js/barbero.js:121-131 | a[0], b[0], a[1], b[1], … while both last, then the rest of the longer one |
| Barberos.InterleaveLength | Frontend/public/Barberos/B-js/barbero.js:121-131 | the interleaving is as long as both lists together |
| Barberos.InterleaveMultiset | Frontend/public/Barberos/B-js/barbero.js:121-131 | the interleaving holds, as a multiset, exactly the elements of both lists |
| Barberos.InterleaveContents | Frontend/public/Barberos/B-js/barbero.js:121-131 | the interleaving has length \|a\|+\|b\| and exactly the elements of both lists |
| Barberos.InterleaveAlternates | Frontend/public/Barberos/B-js/barbero.js:125-128 | while both lists last, positions 2i and 2i+1 hold a[i] and b[i] |
| Barberos.InterleaveTail | Frontend/public/Barberos/B-js/barbero.js:125-128 | after the alternating part comes the rest of the longer list, in its order |
| Barberos.InterleaveSnocBoth | Frontend/public/Barberos/B-js/barbero.js:126-127 | a round where both lists still have an element appends a[i] then b[i] to the interleaving |
| Barberos.InterleaveSnocLeft | Frontend/public/Barberos/B-js/barbero.js:126 | once the second list is used up, a round appends only a[i] |
| Barberos.InterleaveSnocRight | Frontend/public/Barberos/B-js/barbero.js:127 | once the first list is used up, a round appends only b[i] |
| Barberos.InterleavePrefixStep | Frontend/public/Barberos/B-js/barbero.js:125-128 | one loop round (push a[i] if it exists, then b[i] if it exists) extends the interleaving of the prefixes by exactly those elements |
| Barberos.IntercalarArrays | Frontend/public/Barberos/B-js/barbero.js:121-131 | the loop computes the interleaving, of length \|a\|+\|b\| |
| Barberos.TipoLabel | Frontend/public/Barberos/B-js/barbero.js:135-136 | 'Peluquero' and 'Barbero' label themselves; any other tipo reads "Barbero y Peluquero" |
| Barberos.TipoLabelCases | Frontend/public/Barberos/B-js/barbero.js:135-136 | the label is one of three texts; 'Ambos' and any unknown tipo read "Barbero y Peluquero" |
| Barberos.JsRem | Frontend/public/Barberos/B-js/barbero.js:25 | JavaScript `%` lies strictly between -m and m, and agrees with the Euclidean remainder for a non-negative dividend |
| Barberos.LayoutFor | Frontend/public/Barberos/B-js/barbero.js:25 | `id % 2 !== 0` (truncating remainder) chooses the imp layout, otherwise the par layout |
| Barberos.LayoutAlternates | Frontend/public/Barberos/B-js/barbero.js:25-31 | odd ids, negative ones too, take the dark layout; consecutive ids alternate |
| Barberos.GalleryFor | Frontend/public/Barberos/B-js/barbero.js:140-174 | 'Ambos': two cut and two beard draws interleaved, with the stream advanced past them; 'Peluquero': the cuts; 'Barbero': the beards; otherwise no gallery |
| Barberos.AmbosGallery | Frontend/public/Barberos/B-js/barbero.js:142-146 | an 'Ambos' gallery holds at most four works, all from the barber's own cuts and beards |
| Barberos.TrabajosAmbos | Frontend/public/Barberos/B-js/barbero.js:142-146 | the 'Ambos' works are the selection of two cuts interleaved with the selection of two beards drawn next, and the draws consumed are those of both selections |
| Barberos.Trabajos | Frontend/public/Barberos/B-js/barbero.js:140-174 | 'Ambos' gives two random cuts interleaved with two random beards; 'Peluquero' all cuts; 'Barbero' all beards; anything else nothing |
| Barberos.CardOf | Frontend/public/Barberos/B-js/barbero.js:134-198 | what a card must show: layout by id parity, type label, name, description or 'Sin descripción', schedule, image or the layout's default, and the gallery by tipo |
| Barberos.RenderCard | Frontend/public/Barberos/B-js/barbero.js:134-198 | the card's layout, label, name, description or "Sin descripción", schedule, image or the layout's default image, and gallery |
| Barberos.RenderBarber | Frontend/public/Barberos/B-js/barbero.js:19-31 | one loop round: the card is the barber's card rendered with the works looked up for the barber (stated as: it has every property that all such cards have) |
| Barberos.CardsForEach | Frontend/public/Barberos/B-js/barbero.js:19-31 | in a rendered list, there is one card per barber and card j is barber j's card with barber j's works |
| Barberos.RenderAll | Frontend/public/Barberos/B-js/barbero.js:19-31 | the loop gives one card per barber, in order, each with every property that all rendered cards of that barber have |
| Barberos.LoadBarberos | Frontend/public/Barberos/B-js/barbero.js:5-38 | a failed request shows the error, and only it; an empty list shows "no barbers", and only it; otherwise one card per barber, in order, each that barber's card with that barber's works |
| Reserva.Ok | Frontend/public/Reserva/R-js/Reserva.js:65 | `response.ok`: a status from 200 to 299 |
| Reserva.Endpoint | Frontend/public/Reserva/R-js/Reserva.js:62 | the cuts endpoint iff the type is 'corte', otherwise the beards endpoint, followed by the id |
| Reserva.EndpointInjective | Frontend/public/Reserva/R-js/Reserva.js:62 | the URL determines the id and whether the type was 'corte' |
| Reserva.CheckService | Frontend/public/Reserva/R-js/Reserva.js:60-81 | "not found" iff status 404; any other non-ok status is a load error; the service loads iff ok with a readable body |
| Reserva.Priced | Frontend/public/Reserva/R-js/Reserva.js:114 | a price is shown iff it is present and not 0 |
| Reserva.BaseDescription | Frontend/public/Reserva/R-js/Reserva.js:111 | the service's own description when it is truthy, otherwise 'Descripción no disponible.'; never empty |
| Reserva.ViewOf | Frontend/public/Reserva/R-js/Reserva.js:84-126 | image, name, service type by 'corte', title with " - Prestige Barbers", and the description with the formatted price when priced |
| Reserva.ViewDescription | Frontend/public/Reserva/R-js/Reserva.js:84-126 | the description starts with the base text and equals it iff there is no truthy price; the title ends in " - Prestige Barbers" |
| Reserva.Offers | Frontend/public/Reserva/R-js/Reserva.js:140-149 | 'corte' is offered by 'Peluquero' and 'Ambos', 'barba' by 'Barbero' and 'Ambos', and no other type by anyone |
| Reserva.Available | Frontend/public/Reserva/R-js/Reserva.js:138-150 | a barber is kept iff the type is 'corte' and the tipo is 'Peluquero' or 'Ambos', or the type is 'barba' and the tipo is 'Barbero' or 'Ambos'; never more barbers than the list |
| Reserva.AvailableIsSubsequence | Frontend/public/Reserva/R-js/Reserva.js:138-150 | the filter keeps the order of the barber list |
| Reserva.AvailableUnknownType | Frontend/public/Reserva/R-js/Reserva.js:138-150 | a type other than 'corte' and 'barba' offers nobody |
| Reserva.UnknownTipoNeverOffered | Frontend/public/Reserva/R-js/Reserva.js:140-149 | a barber of unknown tipo is labelled "Barbero y Peluquero" on the barbers page yet is offered for no service |
| Reserva.BarbersLabel | Frontend/public/Reserva/R-js/Reserva.js:152-164 | the hairdresser texts for 'corte', the barber texts otherwise, each "No hay …" for an empty list |
| Reserva.LabelSaysNone | Frontend/public/Reserva/R-js/Reserva.js:155-163 | the label says "No hay" iff nobody can do the service, and speaks of hairdressers iff the type is 'corte' |
| Reserva.ButtonFor | Frontend/public/Reserva/R-js/Reserva.js:191-195 | a button carries the barber's id, name and title |
| Reserva.RenderizarBarberos | Frontend/public/Reserva/R-js/Reserva.js:176-199 | the message iff the list is empty; otherwise one button per barber, in list order |
| Reserva.ClickResult | Frontend/public/Reserva/R-js/Reserva.js:208-224 | a click keeps the number of buttons |
| Reserva.ClickToggles | Frontend/public/Reserva/R-js/Reserva.js:214-223 | with at most one selected, a click on t leaves only t selected if it was not, and none selected if it was |
| Reserva.ClickKeepsAtMostOne | Frontend/public/Reserva/R-js/Reserva.js:214-223 | at most one button is ever selected |
| Reserva.ClickTwice | Frontend/public/Reserva/R-js/Reserva.js:214-223 | one click flips the target; after two clicks the target is selected iff it was before, and every other button is unselected |
| Reserva.BarberButtons.constructor | Frontend/public/Reserva/R-js/Reserva.js:190-198 | new buttons are all unselected |
| Reserva.BarberButtons.Click | Frontend/public/Reserva/R-js/Reserva.js:208-224 | the forEach loop computes the click's result and keeps at most one selected |
| Reserva.LoadReservation | Frontend/public/Reserva/R-js/Reserva.js:2-38 | missing id or type sends nothing and shows the parameter message; the service request comes first; barbers are requested iff it loaded; any failure shows the generic message; a loaded page shows the service view, the label and the buttons of the filtered barbers |
| AuthModal.CheckRegister | Frontend/public/js/auth-modal.js:101-132 | name and email are trimmed and passwords are not; "complete all fields" iff one is blank or empty, then mismatch, then too short |
| AuthModal.FormErrorText | Frontend/public/js/auth-modal.js:111-129 | the three validation messages: missing fields, passwords that differ, a password under 6 characters |
| AuthModal.RegisterIgnoresSurroundingSpace | Frontend/public/js/auth-modal.js:101-104 | space around the name or email never changes the outcome of the checks |
| AuthModal.RegisterKeepsPasswordSpace | Frontend/public/js/auth-modal.js:103-123 | passwords are not trimmed: a confirmation lacking the password's leading space is a mismatch |
| AuthModal.CheckLogin | Frontend/public/js/auth-modal.js:205-216 | login proceeds iff the email is not blank and the password not empty |
| AuthModal.ShowLoginForms | Frontend/public/js/auth-modal.js:289-298 | the login form shown and the register form hidden; the 'active' classes move only for 'auth-form' forms |
| AuthModal.ShowRegisterForms | Frontend/public/js/auth-modal.js:67-76 | the register form shown and the login form hidden, with the same rule for classes |
| AuthModal.SwitchFormsBack | Frontend/public/js/auth-modal.js:66-90 | register then login is the same as login directly; both switches are idempotent |
| AuthModal.SetItemText | Frontend/public/js/auth-modal.js:157 | `setItem` stores a string as is and undefined as "undefined" |
| AuthModal.StoreReply | Frontend/public/js/auth-modal.js:155-158 | the token as setItem writes it and the serialised user ("undefined" when the reply has none) stored under the two session keys |
| AuthModal.SuccessOpensSession | Frontend/public/js/auth-modal.js:155-158 | a success reply leaves a session (unless its token is the empty string), even one without a token; the stored user parses back to the reply's user, or to nothing when it had none |
| AuthModal.Greeting | Frontend/public/js/auth-modal.js:161-243 | the register and login success texts with their styles, built from the user's name |
| AuthModal.GreetingNamesUser | Frontend/public/js/auth-modal.js:161-243 | the success message of each form has that form's style and ends with the user's name (before the '!' for login) |
| AuthModal.ReplyMessage | Frontend/public/js/auth-modal.js:155-186 | an error message iff the sign-in did not complete; a failure shows the server's message when it has one |
| AuthModal.ReplyStorage | Frontend/public/js/auth-modal.js:155-158 | only a success writes to storage |
| AuthModal.AuthPage.constructor | Frontend/public/js/auth-modal.js:4-20 | the page before the session check: nothing shown, nothing sent, empty inputs |
| AuthModal.AuthPage.ActualizarUIUsuario | Frontend/public/js/auth-modal.js:389-423 | the icon title names the user; a badge with the initial is added only when none exists |
| AuthModal.AuthPage.VerificarSesion | Frontend/public/js/auth-modal.js:459-474 | no session: nothing; an unparsable user: both keys removed; a parsable one: the icon updated and storage untouched |
| AuthModal.AuthPage.OpenModal | Frontend/public/js/auth-modal.js:279-299 | the modal is active with the login form shown |
| AuthModal.AuthPage.CloseModal | Frontend/public/js/auth-modal.js:301-320 | the modal is inactive with the login form shown |
| AuthModal.AuthPage.PressEscape | Frontend/public/js/auth-modal.js:59-63 | Escape closes the modal only while it is active |
| AuthModal.AuthPage.ClickUserIcon | Frontend/public/js/auth-modal.js:27-41 | the profile page iff both keys are truthy, otherwise the modal opens |
| AuthModal.AuthPage.ShowRegister | Frontend/public/js/auth-modal.js:67-76 | the register form is shown |
| AuthModal.AuthPage.ShowLogin | Frontend/public/js/auth-modal.js:80-89 | the login form is shown, by the register form's class |
| AuthModal.AuthPage.FillRegister | Frontend/public/js/auth-modal.js:101-104 | the four register inputs hold what was typed |
| AuthModal.AuthPage.FillLogin | Frontend/public/js/auth-modal.js:205-206 | the two login inputs hold what was typed |
| AuthModal.AuthPage.LimpiarFormularios | Frontend/public/js/auth-modal.js:322-336 | all six inputs are emptied |
| AuthModal.AuthPage.StoreReplySession | Frontend/public/js/auth-modal.js:155-158 | the storage after a reply: the token and user written on success, unchanged otherwise |
| AuthModal.AuthPage.ShowMessage | Frontend/public/js/auth-modal.js:338-387 | the message is added after those already shown |
| AuthModal.AuthPage.SignIn | Frontend/public/js/auth-modal.js:163-170 | the icon names the user, the badge appears if absent, the modal is closed with the login form shown, and all inputs are empty |
| AuthModal.AuthPage.PostAndHandle | Frontend/public/js/auth-modal.js:138-191 | the request is recorded; storage and message follow the reply; only a success with a user completes the sign-in (badge, modal closed, forms cleared), otherwise the icon, modal and inputs are as they were |
| AuthModal.AuthPage.SubmitRegister | Frontend/public/js/auth-modal.js:97-192 | a failed check shows its message and sends nothing; otherwise the trimmed name and email and the raw passwords are sent; a welcome signs the user in, and any other reply only adds its message, leaving icon, badge, modal, forms and inputs unchanged |
| AuthModal.AuthPage.SubmitLogin | Frontend/public/js/auth-modal.js:201-274 | a failed check shows its message and sends nothing; otherwise the trimmed email and the password are sent; a welcome signs the user in, and any other reply only adds its message, leaving icon, badge, modal, forms and inputs unchanged |
| AuthModal.AuthPage.CerrarSesion | Frontend/public/js/auth-modal.js:429-457 | both keys removed, no session, no badge, the guest title, a message, and the home page |
| AuthModal.BrokenSessionIsCleared | Frontend/public/js/auth-modal.js:459-474 | a success reply without a user (as stored by lines 155-158) leaves a session; verificarSesion on the next page load removes both keys |
| Perfil.StoredUser | Frontend/public/perfil/perfil.js:119-124 | a stored user is read only from a non-empty `user_data` entry that parses |
| Perfil.StoredUserAfterStore | Frontend/public/perfil/perfil.js:69-73 | after a successful refresh, the stored record reads back as the server's user |
| Perfil.Edited | Frontend/public/perfil/perfil.js:232-235 | saving sets the name and email and keeps every other field |
| Perfil.SaveRoundTrip | Frontend/public/perfil/perfil.js:232-235 | the saved record reads back as the edited one, and saving the same values again changes nothing |
| Perfil.CheckProfile | Frontend/public/perfil/perfil.js:218-224 | saving proceeds iff neither the name nor the email is blank |
| Perfil.PasswordNotice | Frontend/public/perfil/perfil.js:290-306 | every password message is shown as an error; the "in development" notice appears iff all checks pass |
| Perfil.CurrentPasswordOnlyPresent | Frontend/public/perfil/perfil.js:290-303 | the current password only has to be present |
| Perfil.ProfilePage.constructor | Frontend/public/perfil/perfil.js:2-62 | no session: the login message and the way home; a session: one /me request with the bearer token, the Cancel originals from the markup, and the badge if none exists |
| Perfil.ProfilePage.MostrarBadgeEnHeader | Frontend/public/perfil/perfil.js:376-411 | the badge is added from the stored user only if absent |
| Perfil.ProfilePage.ShowUser | Frontend/public/perfil/perfil.js:76-94 | the header and the inputs show the user |
| Perfil.ProfilePage.ReceiveMe | Frontend/public/perfil/perfil.js:66-115 | success with a user: stored and shown; anything else: the stored record if it parses, else nothing changes |
| Perfil.ProfilePage.Edit | Frontend/public/perfil/perfil.js:199-212 | the current inputs become the originals and the inputs become editable |
| Perfil.ProfilePage.TypeProfile | Frontend/public/perfil/perfil.js:218-219 | the editable inputs hold what was typed |
| Perfil.ProfilePage.Save | Frontend/public/perfil/perfil.js:217-262 | blank values: a message only; an unreadable stored record: the button stays disabled; otherwise the trimmed values are saved and shown, the badge updated if present, the inputs locked |
| Perfil.ProfilePage.MostrarMensaje | Frontend/public/perfil/perfil.js:317-346 | the notice is added after those already shown |
| Perfil.ProfilePage.SaveChecked | Frontend/public/perfil/perfil.js:227-261 | the button disabled; without a readable stored record nothing else changes; with one the edited record is written back and shown, the badge updated if present, the inputs locked and the button enabled |
| Perfil.ProfilePage.WriteProfile | Frontend/public/perfil/perfil.js:232-261 | the record written back, the header and badge updated, editing ended, the success message |
| Perfil.ProfilePage.Cancel | Frontend/public/perfil/perfil.js:267-280 | the inputs get back the originals and are locked |
| Perfil.ProfilePage.TypePasswords | Frontend/public/perfil/perfil.js:286-288 | the password inputs hold what was typed |
| Perfil.ProfilePage.ChangePassword | Frontend/public/perfil/perfil.js:285-312 | the message of the checks; the fields are cleared iff every check passes; nothing is sent |
| Perfil.VerificarSesionActiva | Frontend/public/perfil/perfil.js:18-38 | a session is active iff both keys are present and non-empty |
| Perfil.EditThenCancel | Frontend/public/perfil/perfil.js:199-280 | Edit, typing, then Cancel leaves the inputs as they were and storage untouched |

## Left out

- DOM, CSS and animation: HTML templates, styles, text opacity, the loader, the 'grabbing' class and message pop-ups beyond their text and kind.
- Carousel pixel arithmetic: container width, translate values and `requestAnimationFrame`. A drag is summarised by the integer distance it moved.
- Timers: the carousel's 5 s interval is the caller calling NextSlide, and its 500 ms timeout is FinishTransition. The auth modal's 300 ms, 1.5 s and 1 s delays and the profile's 1.5 s redirect run at once.
- Carousel.Carousel.GoToSlide: requires the target to be on the track whenever the move takes effect. Every caller (dots, tick, drag) passes such an index from a valid state. The source accepts any number.
- Carousel.Carousel.constructor: a failed request to /api/cortes is modelled as ReceiveCuts of an empty list of cuts.
- Carousel.Carousel.ReceiveCuts: once the reply leaves the index off the track (EarlySwipeLeavesTrack), the handlers are not modelled further, because they all require the valid state. In the source, the ticks then keep moving the index past the end of the track, and no dot is lit again.
- Carousel.Carousel.NextSlide: may run before the reply, whereas the source starts the 5 s interval only after the reply or after a first move.
- Barberos.LoadBarberos: the 'Ambos' gallery is stated as at most four of the barber's own works, not as the exact draw. RenderCard states the exact draw. One response of each catalogue is used for every barber, although the source fetches them again per barber.
- `Math.random`: a caller-supplied stream of natural numbers. Position `rand(j) % length` is drawn, so every in-range choice can occur.
- `Intl.NumberFormat` price formatting is a parameter. `toLocaleDateString` (the registration date on the profile) is not modelled.
- The profile tabs (`inicializarTabs`) only move the 'active' class between DOM elements.
- `window.customModal` versus the page's own message box: both show the same text; which one is used is not modelled.
- A disabled button is taken not to fire. AuthModal keeps no busy flag, because the request and its reply are handled in one step.
- JSON values that are not objects (`null`, a number) count as "does not parse".
- A field that is JSON `null` and a field that is absent are both None. So a barber button without an image is written `url(null)`, and a reply without a token stores "undefined". The source writes "undefined" for an absent image and "null" for a null token. Either text is a truthy string.
- String lengths are counted in Unicode scalar values, whereas JavaScript counts UTF-16 code units. The two differ only outside the Basic Multilingual Plane. Upper-casing covers the Latin-1 range only.
- Pages without the elements the scripts look up (no modal, no icon, no container) are not modelled.
- `Frontend/public/js/custom-modal.js` and `Frontend/public/js/sticky-header.js` are browser plumbing and not part of this model. `Backend/server.js` only opens a database connection. The server's `/api/*` handlers are not in this repository.
