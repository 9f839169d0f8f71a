/** The root component: its state fields, updated in place by its event
    handlers. Every handler is proved to perform the transition of the same
    name in module State, so everything proved there holds of the class. */
module AppComponent {
  import opened Wrappers
  import opened State

  class App {
    var viewport: Viewport
    var pins: seq<Pin>
    var openPopups: map<Id, bool>
    var newPlace: Option<Place>
    var title: string
    var desc: string
    var star: int
    var selectedFile: Option<File>
    var showLogin: bool
    var currentUser: Option<string>
    /** Stands in for `window.localStorage`. */
    var stored: map<string, string>

    /** The state as one value. */
    function Model(): (s: AppState)
      reads this
    {
      AppState(viewport, pins, openPopups, newPlace, title, desc, star, selectedFile,
               showLogin, currentUser, stored)
    }

    /** Mounting: the session is read back from storage. */
    constructor (storage: map<string, string>)
      ensures Model() == Initial(storage)
    {
      stored := storage;
      currentUser := if UserKey in storage then Some(storage[UserKey]) else None;
      pins := [];
      openPopups := map[];
      newPlace := None;
      title, desc, star := "", "", 0;
      selectedFile := None;
      showLogin := false;
      viewport := InitialViewport;
    }

    /** The effect hook that fetches every pin once. */
    method GetPins(response: Result<seq<Pin>>)
      modifies this
      ensures Model() == LoadPins(old(Model()), response)
    {
      if response.Ok? {
        pins := response.value;
      }
    }

    method HandleViewportChange(viewState: ViewState)
      modifies this
      ensures Model() == ChangeViewport(old(Model()), viewState)
    {
      viewport := Viewport(viewState.latitude, viewState.longitude, viewState.zoom);
    }

    method HandleMarkerClick(id: Id)
      modifies this
      ensures Model() == MarkerClick(old(Model()), id)
    {
      openPopups := openPopups[id := !(id in openPopups && openPopups[id])];
    }

    /** The close callback of the popup of pin `id`. */
    method ClosePinPopup(id: Id)
      modifies this
      ensures Model() == ClosePopup(old(Model()), id)
    {
      openPopups := openPopups[id := false];
    }

    /** Returns whether the not-logged-in warning was shown. */
    method HandleAddClick(lat: real, lng: real) returns (warned: bool)
      modifies this
      ensures warned <==> !Truthy(old(currentUser))
      ensures Model() == AddClick(old(Model()), lat, lng)
    {
      if currentUser.None? || currentUser.value == "" {
        warned := true;
        return;
      }
      warned := false;
      selectedFile := None;
      newPlace := Some(Place(lat, lng));
    }

    /** The close callback of the draft popup. */
    method CloseDraftPopup()
      modifies this
      ensures Model() == CloseDraft(old(Model()))
    {
      newPlace := None;
    }

    method SetTitle(value: string)
      modifies this
      ensures Model() == ChangeTitle(old(Model()), value)
    {
      title := value;
    }

    method SetDesc(value: string)
      modifies this
      ensures Model() == ChangeDesc(old(Model()), value)
    {
      desc := value;
    }

    method SetStar(value: int)
      modifies this
      ensures Model() == ChangeStar(old(Model()), value)
    {
      star := value;
    }

    method OnDrop(acceptedFiles: seq<File>)
      modifies this
      ensures Model() == Drop(old(Model()), acceptedFiles)
    {
      selectedFile := if |acceptedFiles| > 0 then Some(acceptedFiles[0]) else None;
    }

    /** Returns the form that is posted, if any; `response` is what the server
        answers to it. */
    method HandleSubmit(response: Result<Pin>) returns (sent: Option<Request>)
      modifies this
      ensures sent == SubmitRequest(old(Model()))
      ensures Model() == Submit(old(Model()), response)
    {
      if selectedFile.None? {
        sent := None;
        return;
      }
      if newPlace.None? {
        sent := None;
        return;
      }
      sent := Some(Request(currentUser, title, desc, selectedFile.value, star,
                           newPlace.value.lat, newPlace.value.long));
      if response.Ok? {
        pins := pins + [response.value];
        newPlace := None;
      }
    }

    method HandleLogout()
      modifies this
      ensures Model() == Logout(old(Model()))
    {
      stored := stored - {UserKey};
      currentUser := None;
    }

    /** The login button. */
    method ShowLoginForm()
      modifies this
      ensures Model() == OpenLogin(old(Model()))
    {
      showLogin := true;
    }
  }
}
