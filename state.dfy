/** The application state held at the root of the map client, and one pure
    transition per event handler. Each transition states what the handler
    changes and that nothing else changes; the class in AppComponent and the
    class in LoginComponent are proved to perform exactly these transitions. */
module State {
  import opened Wrappers

  /** A pin identifier, assigned by the server. */
  type Id = string

  /** The one key the client keeps in local storage. */
  const UserKey: string := "user"

  /** An image the user attached; its contents play no part in the model. */
  datatype File = File(token: nat)

  /** A persisted pin as the server returns it. */
  datatype Pin = Pin(
    id: Id,
    username: string,
    title: string,
    desc: string,
    rating: int,
    lat: real,
    long: real,
    image: Option<string>,
    createdAt: string)

  /** The camera carried by a move event of the map component. */
  datatype ViewState = ViewState(latitude: real, longitude: real, zoom: real, bearing: real, pitch: real)

  /** The camera the client keeps. */
  datatype Viewport = Viewport(latitude: real, longitude: real, zoom: real)

  /** The location of the draft pin. */
  datatype Place = Place(lat: real, long: real)

  /** The fields of the multipart form posted to create a pin. */
  datatype Request = Request(
    username: Option<string>,
    title: string,
    desc: string,
    image: File,
    rating: int,
    lat: real,
    long: real)

  datatype AppState = AppState(
    viewport: Viewport,
    pins: seq<Pin>,
    openPopups: map<Id, bool>,
    newPlace: Option<Place>,
    title: string,
    desc: string,
    star: int,
    selectedFile: Option<File>,
    showLogin: bool,
    currentUser: Option<string>,
    stored: map<string, string>)

  /** `localStorage.getItem`: the stored string, or null for a missing key. */
  function GetItem(stored: map<string, string>, key: string): (r: Option<string>)
    ensures r.Some? <==> key in stored
    ensures r.Some? ==> r.value == stored[key]
  {
    if key in stored then Some(stored[key]) else None
  }

  /** JavaScript truthiness of a string-or-null: null and "" are both false. */
  predicate Truthy(u: Option<string>) {
    u.Some? && u.value != ""
  }

  /** Whether the popup of `id` shows; an absent key reads as `undefined`,
      which is false. */
  predicate IsOpen(openPopups: map<Id, bool>, id: Id) {
    id in openPopups && openPopups[id]
  }

  /** The camera at start-up, centred on China. */
  const InitialViewport: Viewport := Viewport(34.3416, 108.9398, 4.0)

  /** The state right after mounting: the session is read back from storage,
      and there are no pins, popups or draft yet. */
  function Initial(stored: map<string, string>): (s: AppState)
    ensures s.currentUser == GetItem(stored, UserKey) && s.stored == stored
    ensures s.viewport == InitialViewport
    ensures s.pins == [] && s.openPopups == map[] && s.newPlace == None && s.selectedFile == None
    ensures s.title == "" && s.desc == "" && s.star == 0 && !s.showLogin
  {
    AppState(InitialViewport, [], map[], None, "", "", 0, None, false, GetItem(stored, UserKey), stored)
  }

  /** The result of the initial pin fetch: the list on success, nothing on
      failure (the error is only logged). */
  function LoadPins(s: AppState, response: Result<seq<Pin>>): (r: AppState)
    ensures r.pins == (if response.Ok? then response.value else s.pins)
    ensures r == s.(pins := r.pins)
  {
    match response
    case Ok(pins) => s.(pins := pins)
    case Err(_) => s
  }

  // ---------------------------------------------------------------------
  // Viewport

  /** The viewport a move event installs: the event's latitude, longitude
      and zoom, and nothing else. */
  function ViewportOf(vs: ViewState): (v: Viewport)
    ensures v.latitude == vs.latitude && v.longitude == vs.longitude && v.zoom == vs.zoom
  {
    Viewport(vs.latitude, vs.longitude, vs.zoom)
  }

  /** `handleViewportChange`: the whole viewport is replaced. */
  function ChangeViewport(s: AppState, vs: ViewState): (r: AppState)
    ensures r.viewport == ViewportOf(vs)
    ensures r == s.(viewport := r.viewport)
  {
    s.(viewport := ViewportOf(vs))
  }

  /** No field of the old viewport survives a move. */
  lemma ChangeViewportForgetsOld(s: AppState, t: AppState, vs: ViewState)
    ensures ChangeViewport(s, vs).viewport == ChangeViewport(t, vs).viewport
  {
  }

  // ---------------------------------------------------------------------
  // Popup visibility

  /** `{...prev, [id]: !prev[id]}`: the entry of `id` is negated (absent
      counts as false) and becomes present; every other key is kept. */
  function ToggleEntry(m: map<Id, bool>, id: Id): (r: map<Id, bool>)
    ensures id in r && IsOpen(r, id) == !IsOpen(m, id)
    ensures forall k :: k != id ==> (k in r <==> k in m)
    ensures forall k :: k != id && k in m ==> r[k] == m[k]
  {
    m[id := !IsOpen(m, id)]
  }

  /** `{...prev, [id]: false}`: the entry of `id` is forced to false; every
      other key is kept. */
  function CloseEntry(m: map<Id, bool>, id: Id): (r: map<Id, bool>)
    ensures id in r && !IsOpen(r, id)
    ensures forall k :: k != id ==> (k in r <==> k in m)
    ensures forall k :: k != id && k in m ==> r[k] == m[k]
  {
    m[id := false]
  }

  /** `handleMarkerClick`. */
  function MarkerClick(s: AppState, id: Id): (r: AppState)
    ensures IsOpen(r.openPopups, id) == !IsOpen(s.openPopups, id)
    ensures forall k :: k != id ==> IsOpen(r.openPopups, k) == IsOpen(s.openPopups, k)
    ensures r == s.(openPopups := r.openPopups)
  {
    s.(openPopups := ToggleEntry(s.openPopups, id))
  }

  /** The close callback of an existing pin's popup. */
  function ClosePopup(s: AppState, id: Id): (r: AppState)
    ensures !IsOpen(r.openPopups, id)
    ensures forall k :: k != id ==> IsOpen(r.openPopups, k) == IsOpen(s.openPopups, k)
    ensures r == s.(openPopups := r.openPopups)
  {
    s.(openPopups := CloseEntry(s.openPopups, id))
  }

  /** Two clicks on one marker restore the visibility of every popup; the map
      itself comes back only if the key was present before (an absent key
      ends up present and false). */
  lemma ToggleTwiceRestores(m: map<Id, bool>, id: Id)
    ensures forall k :: IsOpen(ToggleEntry(ToggleEntry(m, id), id), k) == IsOpen(m, k)
    ensures id in m ==> ToggleEntry(ToggleEntry(m, id), id) == m
    ensures id !in m ==> ToggleEntry(ToggleEntry(m, id), id) == m[id := false]
  {
  }

  /** Closing a popup twice is closing it once. */
  lemma CloseEntryIdempotent(m: map<Id, bool>, id: Id)
    ensures CloseEntry(CloseEntry(m, id), id) == CloseEntry(m, id)
  {
  }

  // ---------------------------------------------------------------------
  // Draft pin

  /** `handleAddClick`: with nobody logged in (null or the empty name) the
      double-click only warns; otherwise the attached file is cleared and a
      draft opens at the clicked point, replacing any previous one. The
      form fields are left as they were. */
  function AddClick(s: AppState, lat: real, lng: real): (r: AppState)
    ensures !Truthy(s.currentUser) ==> r == s
    ensures Truthy(s.currentUser) ==>
      r.newPlace == Some(Place(lat, lng)) && r.selectedFile == None
    ensures r == s.(newPlace := r.newPlace, selectedFile := r.selectedFile)
  {
    if !Truthy(s.currentUser) then s
    else s.(selectedFile := None, newPlace := Some(Place(lat, lng)))
  }

  /** The close callback of the draft popup. */
  function CloseDraft(s: AppState): (r: AppState)
    ensures r.newPlace == None
    ensures r == s.(newPlace := None)
  {
    s.(newPlace := None)
  }

  /** The title input of the draft form. */
  function ChangeTitle(s: AppState, value: string): (r: AppState)
    ensures r.title == value && r == s.(title := value)
  {
    s.(title := value)
  }

  /** The description textarea of the draft form. */
  function ChangeDesc(s: AppState, value: string): (r: AppState)
    ensures r.desc == value && r == s.(desc := value)
  {
    s.(desc := value)
  }

  /** The rating select of the draft form. */
  function ChangeStar(s: AppState, value: int): (r: AppState)
    ensures r.star == value && r == s.(star := value)
  {
    s.(star := value)
  }

  /** `onDrop`: the first accepted file replaces the attachment; an empty
      list of accepted files (a rejected drop) leaves `undefined`, i.e. no
      attachment. */
  function Drop(s: AppState, accepted: seq<File>): (r: AppState)
    ensures r.selectedFile.Some? <==> |accepted| > 0
    ensures r.selectedFile.Some? ==> r.selectedFile.value == accepted[0]
    ensures r == s.(selectedFile := r.selectedFile)
  {
    s.(selectedFile := if |accepted| == 0 then None else Some(accepted[0]))
  }

  /** The form `handleSubmit` posts, if it gets that far: nothing without an
      attached image (the guard), nothing without a draft (reading
      `newPlace.lat` throws before the request); otherwise the session user,
      the form fields, the image and the draft's coordinates. */
  function SubmitRequest(s: AppState): (req: Option<Request>)
    ensures req.Some? <==> s.selectedFile.Some? && s.newPlace.Some?
    ensures req.Some? ==>
      && req.value.username == s.currentUser
      && req.value.title == s.title && req.value.desc == s.desc
      && req.value.image == s.selectedFile.value && req.value.rating == s.star
      && req.value.lat == s.newPlace.value.lat && req.value.long == s.newPlace.value.long
  {
    match (s.selectedFile, s.newPlace)
    case (Some(f), Some(p)) => Some(Request(s.currentUser, s.title, s.desc, f, s.star, p.lat, p.long))
    case _ => None
  }

  /** `handleSubmit` once the server has answered: a returned pin is
      appended and the draft closes; no request or a failed one changes
      nothing. */
  function Submit(s: AppState, response: Result<Pin>): (r: AppState)
    ensures SubmitRequest(s).None? || response.Err? ==> r == s
    ensures SubmitRequest(s).Some? && response.Ok? ==>
      && |r.pins| == |s.pins| + 1
      && r.pins[..|s.pins|] == s.pins
      && r.pins[|s.pins|] == response.value
      && r.newPlace == None
    ensures r == s.(pins := r.pins, newPlace := r.newPlace)
  {
    if SubmitRequest(s).None? || response.Err? then s
    else s.(pins := s.pins + [response.value], newPlace := None)
  }

  /** A second double-click replaces the draft of the first. */
  lemma AddClickReplacesDraft(s: AppState, lat1: real, lng1: real, lat2: real, lng2: real)
    ensures AddClick(AddClick(s, lat1, lng1), lat2, lng2) == AddClick(s, lat2, lng2)
  {
  }

  /** A draft opened after a successful submit starts without an image but
      with the previous draft's title, description and rating. */
  lemma NewDraftKeepsFormFields(s: AppState, response: Result<Pin>, lat: real, lng: real)
    requires Truthy(s.currentUser)
    ensures var r := AddClick(Submit(s, response), lat, lng);
      r.newPlace == Some(Place(lat, lng)) && r.selectedFile == None &&
      r.title == s.title && r.desc == s.desc && r.star == s.star
  {
  }

  // ---------------------------------------------------------------------
  // Session

  /** `handleLogout`: the stored user and the session are cleared; any draft
      stays open. */
  function Logout(s: AppState): (r: AppState)
    ensures r.currentUser == None && UserKey !in r.stored
    ensures forall k :: k != UserKey ==> (k in r.stored <==> k in s.stored)
    ensures forall k :: k != UserKey && k in s.stored ==> r.stored[k] == s.stored[k]
    ensures r == s.(currentUser := None, stored := r.stored)
  {
    s.(stored := s.stored - {UserKey}, currentUser := None)
  }

  /** The login button. */
  function OpenLogin(s: AppState): (r: AppState)
    ensures r.showLogin && r == s.(showLogin := true)
  {
    s.(showLogin := true)
  }

  /** The App part of the login form's `handleSubmit` once the server has
      answered: on success the stored user and the session both become the
      returned name and the form closes; on failure nothing here changes. */
  function LoginSubmit(s: AppState, response: Result<string>): (r: AppState)
    ensures response.Ok? ==>
      && GetItem(r.stored, UserKey) == Some(response.value)
      && r.currentUser == Some(response.value)
      && !r.showLogin
    ensures response.Ok? ==> forall k :: k != UserKey ==> GetItem(r.stored, k) == GetItem(s.stored, k)
    ensures response.Err? ==> r == s
    ensures r == s.(stored := r.stored, currentUser := r.currentUser, showLogin := r.showLogin)
  {
    match response
    case Ok(name) => s.(stored := s.stored[UserKey := name], currentUser := Some(name), showLogin := false)
    case Err(_) => s
  }

  /** The cancel icon of the login form. */
  function CancelLogin(s: AppState): (r: AppState)
    ensures !r.showLogin && r == s.(showLogin := false)
  {
    s.(showLogin := false)
  }

  /** Logging out leaves the draft, the pins and the popups alone. */
  lemma LogoutKeepsDraft(s: AppState)
    ensures Logout(s).newPlace == s.newPlace && Logout(s).pins == s.pins
    ensures Logout(s).openPopups == s.openPopups && Logout(s).selectedFile == s.selectedFile
  {
  }

  /** After a logout a double-click opens no draft. */
  lemma NoDraftAfterLogout(s: AppState, lat: real, lng: real)
    ensures AddClick(Logout(s), lat, lng) == Logout(s)
  {
  }
}
