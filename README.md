# mappin: the interaction state machine of the map client

The map client keeps a small set of state at its root component:

- the map camera;
- the list of pins fetched from the server;
- a per-pin popup visibility map;
- at most one draft pin, with its form fields and attached image;
- the logged-in user and its copy in local storage;
- whether the login form shows.

Every event handler (pan/zoom, marker click, popup close, double-click,
draft close, form edits, image drop, submit, logout, login, login cancel)
changes this state in place. The render then derives markers and popup
cards from it.

This project models that state machine in Dafny:

- `wrappers.dfy` (`Wrappers`): `Option` for JavaScript's `null`/`undefined`, and `Result` for a server answer.
- `state.dfy` (`State`): the state as a value (`AppState`) and one pure transition per handler. Each transition's contract states what the handler changes and that nothing else changes. The lemmas here relate transitions to each other: toggle involution, idempotent close, draft replacement, logout leaving the draft.
- `projection.dfy` (`Projection`): the render of `pins.map`. It covers the marker colour, the icon size `zoom * 7`, the star count, and which popup cards show.
- `app.dfy` (`AppComponent`): the root component as a class. It has the same fields, and one method per handler that updates them in place. Each method is proved to perform the `State` transition of the same meaning, so it inherits every property proved there.
- `login.dfy` (`LoginComponent`): the login form as a class. It has its own failure flag and updates the root component's storage, session and form visibility.
- `events.dfy` (`Events`): the serialized event stream (`Step`, `Run`) and properties over any sequence of events:
  - the session always equals the stored `"user"` entry;
  - the viewport is the last move's;
  - the pin list only grows at its end.

  It also proves a few concrete scenarios.

Server answers are inputs to the transitions: a `Result<seq<Pin>>` for the initial fetch, a `Result<Pin>` for submit, and a `Result<string>` (the returned username) for login.

Behaviours of the code that the model keeps as written:

- A double-click is ignored when the session is `null` or the empty string (`!currentUser`).
- A new draft does not blank the title, description and rating; only the attached image is cleared (`State.NewDraftKeepsFormFields`).
- A submit with an image but no draft throws while reading the draft's latitude, before any request is made. The model gives that case no request and no state change.
- A failed submit is only logged to the console; the draft and pins stay.
- A drop whose accepted list is empty leaves no attachment, since `acceptedFiles[0]` is `undefined`.

## Model

| member | source | states |
|---|---|---|
| State.Initial | src/App.js:22-44 | the camera starts at latitude 34.3416, longitude 108.9398, zoom 4; the session is what storage holds under `"user"` (null when absent); no pins, popups, draft or attachment; empty form fields and rating 0 |
| State.LoadPins | src/App.js:57-67 | a successful fetch installs the returned list; a failed one changes nothing |
| State.ViewportOf | src/App.js:48-53 | the installed viewport is exactly the event's latitude, longitude and zoom |
| State.ChangeViewport | src/App.js:47-54 | a move replaces the viewport and changes nothing else |
| State.ChangeViewportForgetsOld | src/App.js:47-54 | the viewport after a move does not depend on the viewport before it |
| State.ToggleEntry | src/App.js:71-74 | the entry of the clicked id becomes the negation of its old visibility (absent reads false); every other key keeps its presence and value |
| State.MarkerClick | src/App.js:70-75 | a marker click flips that pin's popup visibility, leaves every other popup's visibility and all other state unchanged |
| State.ToggleTwiceRestores | src/App.js:70-75 | two clicks restore every popup's visibility; the map itself comes back when the key was present, and gains a false entry when it was not |
| State.CloseEntry | src/App.js:203 | the closed id's entry becomes false; every other key keeps its presence and value |
| State.ClosePopup | src/App.js:202-204 | closing a pin's popup hides it and changes no other popup and no other state |
| State.CloseEntryIdempotent | src/App.js:202-204 | closing twice equals closing once |
| State.AddClick | src/App.js:78-90 | with no session (null or empty name) nothing changes; otherwise the draft is placed at the clicked point and the attachment cleared, and nothing else changes (form fields stay) |
| State.AddClickReplacesDraft | src/App.js:84-89 | a second double-click discards the first draft: the result equals a single double-click at the second point |
| State.NewDraftKeepsFormFields | src/App.js:84-89 | a draft opened after a submit has no attachment but keeps the previous title, description and rating |
| State.CloseDraft | src/App.js:244 | closing the draft popup clears the draft and changes nothing else |
| State.ChangeTitle | src/App.js:252 | the title input sets the title only |
| State.ChangeDesc | src/App.js:258 | the description textarea sets the description only |
| State.ChangeStar | src/App.js:287 | the rating select sets the rating only |
| State.Drop | src/App.js:131-133 | the first accepted file becomes the attachment; an empty list leaves none; nothing else changes |
| State.SubmitRequest | src/App.js:95-106 | a request is made iff an image is attached and a draft exists; it carries the session user, title, description, image, rating and the draft's coordinates |
| State.Submit | src/App.js:93-121 | no request or a failed one changes nothing; a returned pin is appended (length +1, old prefix kept, new pin last) and the draft closes; nothing else changes |
| State.Logout | src/App.js:124-129 | the session becomes null and the `"user"` key is removed, every other stored key is kept, and nothing else changes |
| State.LogoutKeepsDraft | src/App.js:124-129 | logout leaves the draft, attachment, pins and popups untouched |
| State.NoDraftAfterLogout | src/App.js:78-83 | after a logout a double-click changes nothing |
| State.OpenLogin | src/App.js:318 | the login button shows the login form and changes nothing else |
| State.LoginSubmit | src/components/Login.jsx:14-40 | on success the stored `"user"` entry and the session both equal the returned name, other stored keys are kept and the form closes; on failure nothing in the root state changes |
| State.CancelLogin | src/components/Login.jsx:58 | the cancel icon hides the form without touching session or storage |
| Projection.IconSize | src/App.js:185 | the icon size is non-negative for a non-negative zoom |
| Projection.IconSizeMonotone | src/App.js:185 | a bigger zoom gives a strictly bigger icon, and equal zooms give equal icons |
| Projection.StarCount | src/App.js:219 | the number of stars equals the rating, and is zero for a negative rating |
| Projection.ColorOf | src/App.js:186 | a marker is tomato iff its pin's username strictly equals the session user |
| Projection.CardOf | src/App.js:206-231 | a popup card shows the pin's title, description, owner, position and its star count, and its image exactly when the image path is truthy (not missing, not empty) |
| Projection.RenderPins | src/App.js:175-235 | one view per pin in order: marker at the pin's position, tomato iff owned by the session, icon size from the zoom, popup card present iff the pin's entry is true |
| Projection.ShownPopupsAreOpenPins | src/App.js:175-195 | a card shows for an id iff some pin in the list has that id and its entry is true |
| Projection.NoOwnMarkersWhenLoggedOut | src/App.js:186 | after logout every marker is slateblue |
| Projection.MarkerClickFlipsCard | src/App.js:189-195 | clicking a marker flips whether its card shows and leaves the views of pins with other ids unchanged |
| AppComponent.App.constructor | src/App.js:22-44 | the mounted component's state is `State.Initial` of the storage |
| AppComponent.App.GetPins | src/App.js:57-67 | performs `State.LoadPins` |
| AppComponent.App.HandleViewportChange | src/App.js:47-54 | performs `State.ChangeViewport` |
| AppComponent.App.HandleMarkerClick | src/App.js:70-75 | performs `State.MarkerClick` |
| AppComponent.App.ClosePinPopup | src/App.js:202-204 | performs `State.ClosePopup` |
| AppComponent.App.HandleAddClick | src/App.js:78-90 | warns iff there is no session, and performs `State.AddClick` |
| AppComponent.App.CloseDraftPopup | src/App.js:244 | performs `State.CloseDraft` |
| AppComponent.App.SetTitle | src/App.js:252 | performs `State.ChangeTitle` |
| AppComponent.App.SetDesc | src/App.js:258 | performs `State.ChangeDesc` |
| AppComponent.App.SetStar | src/App.js:287 | performs `State.ChangeStar` |
| AppComponent.App.OnDrop | src/App.js:131-133 | performs `State.Drop` |
| AppComponent.App.HandleSubmit | src/App.js:93-121 | posts exactly `State.SubmitRequest` and performs `State.Submit` with the server's answer |
| AppComponent.App.HandleLogout | src/App.js:124-129 | performs `State.Logout` |
| AppComponent.App.ShowLoginForm | src/App.js:318 | performs `State.OpenLogin` |
| LoginComponent.Login.constructor | src/components/Login.jsx:6-8 | the form starts with its failure flag down |
| LoginComponent.Login.HandleSubmit | src/components/Login.jsx:14-40 | performs `State.LoginSubmit` on the root component; the failure flag is raised iff the login failed |
| LoginComponent.Login.Cancel | src/components/Login.jsx:58 | performs `State.CancelLogin` on the root component |
| Events.StepKeepsSessionAgreement | src/components/Login.jsx:29-31 | every event keeps the session equal to the stored `"user"` entry |
| Events.RunKeepsSessionAgreement | src/App.js:124-129 | over any event sequence, session and stored entry stay equal |
| Events.SessionAgreesFromStart | src/App.js:25 | starting from the session read out of storage, they agree after any event sequence |
| Events.RunViewportIsLastMove | src/App.js:47-54 | after any events the viewport is the last move's, or the starting one if there was no move |
| Events.RunPinsAppendOnly | src/App.js:115 | without a reload the old pin list stays a prefix, growing by at most one pin per event |
| Events.DoubleClickLoggedOut | src/App.js:79-83 | with nothing stored, a double-click at (30, 114) leaves the initial state unchanged |
| Events.AliceAddsPin | src/App.js:99-117 | alice's draft at (30, 114) with title, description and image posts those fields and appends the returned pin as the only pin, closing the draft and leaving popups empty |
| Events.ClickMarkerTwice | src/App.js:70-75 | one click on a marker whose popup is closed (never clicked or closed by its button) opens it, a second closes it |
| Events.LogoutWithDraft | src/App.js:124-129 | logout with a draft open keeps the draft and clears the session |

## Left out

- The HTTP calls themselves (pin fetch, pin creation, login): their answers are parameters of the transitions. The login request body (username and password refs) is not modelled.
- Asynchrony. The model does not cover two submits in flight, or a submit answered after the draft was closed or replaced. It also does not cover the stale `pins` captured by the submit closure; these are concurrency concerns.
- The toasts (`message.warning`, `message.error`) and console logging. The double-click warning shows only as the `warned` result of `AppComponent.App.HandleAddClick`.
- Rendering: the map component and its lazy loading, the help menu, the dropzone wiring, the image preview URL, relative time formatting, the marker pixel offsets and all styling.
- `src/components/Register.jsx` and the register-form flag of the root component: the form is a network call with two display flags of its own, and it touches only that register-form flag of the root (clearing it on cancel).
- `localStorage` is a `map<string, string>`; images are opaque tokens; coordinates and zoom are exact reals, so floating-point rounding in `zoom * 7` is not modelled.
- State.SubmitRequest: the request keeps the session as `Option<string>` and the rating as an integer. It does not model the multipart form turning a null user into the text "null" or the rating into text.
- State.ChangeStar: the rating select yields text in the source; it is an integer here, with no range check at submit, as in the source.
- LoginComponent.Login.HandleSubmit: the form's failure flag is reset when the form unmounts and remounts; that reset is not modelled.
