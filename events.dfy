/** The serialized event stream: each user-interface event or server answer
    runs to completion as one transition, and properties that hold over any
    sequence of them. */
module Events {
  import opened Wrappers
  import opened State

  datatype Event =
    | PinsLoaded(pinsResponse: Result<seq<Pin>>)
    | Moved(viewState: ViewState)
    | MarkerClicked(id: Id)
    | PopupClosed(closedId: Id)
    | MapDoubleClicked(lat: real, lng: real)
    | DraftClosed
    | TitleChanged(title: string)
    | DescChanged(desc: string)
    | StarChanged(star: int)
    | FilesDropped(accepted: seq<File>)
    | Submitted(pinResponse: Result<Pin>)
    | LoggedOut
    | LoginOpened
    | LoginSubmitted(loginResponse: Result<string>)
    | LoginCancelled

  /** The transition one event performs. */
  function Step(s: AppState, e: Event): (r: AppState) {
    match e
    case PinsLoaded(response) => LoadPins(s, response)
    case Moved(vs) => ChangeViewport(s, vs)
    case MarkerClicked(id) => MarkerClick(s, id)
    case PopupClosed(id) => ClosePopup(s, id)
    case MapDoubleClicked(lat, lng) => AddClick(s, lat, lng)
    case DraftClosed => CloseDraft(s)
    case TitleChanged(v) => ChangeTitle(s, v)
    case DescChanged(v) => ChangeDesc(s, v)
    case StarChanged(v) => ChangeStar(s, v)
    case FilesDropped(files) => Drop(s, files)
    case Submitted(response) => Submit(s, response)
    case LoggedOut => Logout(s)
    case LoginOpened => OpenLogin(s)
    case LoginSubmitted(response) => LoginSubmit(s, response)
    case LoginCancelled => CancelLogin(s)
  }

  /** The state after the events of `evs`, in order. */
  function Run(s: AppState, evs: seq<Event>): (r: AppState)
    decreases |evs|
  {
    if evs == [] then s else Run(Step(s, evs[0]), evs[1..])
  }

  /** Running one more event is one more step. */
  lemma {:induction false} RunSnoc(s: AppState, evs: seq<Event>, e: Event)
    ensures Run(s, evs + [e]) == Step(Run(s, evs), e)
    decreases |evs|
  {
    if evs == [] {
      assert [e][1..] == [];
    } else {
      assert (evs + [e])[1..] == evs[1..] + [e];
      RunSnoc(Step(s, evs[0]), evs[1..], e);
    }
  }

  // ---------------------------------------------------------------------
  // Session and storage agree

  /** The session equals what `localStorage.getItem("user")` gives back. */
  predicate SessionAgrees(s: AppState) {
    s.currentUser == GetItem(s.stored, UserKey)
  }

  lemma StepKeepsSessionAgreement(s: AppState, e: Event)
    requires SessionAgrees(s)
    ensures SessionAgrees(Step(s, e))
  {
  }

  lemma {:induction false} RunKeepsSessionAgreement(s: AppState, evs: seq<Event>)
    requires SessionAgrees(s)
    ensures SessionAgrees(Run(s, evs))
    decreases |evs|
  {
    if evs != [] {
      StepKeepsSessionAgreement(s, evs[0]);
      RunKeepsSessionAgreement(Step(s, evs[0]), evs[1..]);
    }
  }

  /** From the session read out of storage at start-up, through any events
      at all, the session and its persisted copy agree. */
  lemma SessionAgreesFromStart(stored: map<string, string>, evs: seq<Event>)
    ensures SessionAgrees(Run(Initial(stored), evs))
  {
    RunKeepsSessionAgreement(Initial(stored), evs);
  }

  // ---------------------------------------------------------------------
  // The viewport is the last move's

  /** The viewport of the last move in `evs`, or `v` when there is none. */
  function LastViewport(v: Viewport, evs: seq<Event>): (r: Viewport)
    decreases |evs|
  {
    if evs == [] then v
    else if evs[|evs| - 1].Moved? then ViewportOf(evs[|evs| - 1].viewState)
    else LastViewport(v, evs[..|evs| - 1])
  }

  /** Whatever happens in between, the viewport reflects exactly the last
      move event, with no field merged from an earlier camera. */
  lemma {:induction false} RunViewportIsLastMove(s: AppState, evs: seq<Event>)
    ensures Run(s, evs).viewport == LastViewport(s.viewport, evs)
    decreases |evs|
  {
    if evs != [] {
      var init, e := evs[..|evs| - 1], evs[|evs| - 1];
      assert evs == init + [e];
      RunSnoc(s, init, e);
      RunViewportIsLastMove(s, init);
    }
  }

  // ---------------------------------------------------------------------
  // Pins are only appended

  /** No reload of the pin list among `evs`: the fetch happens once, at
      mount. */
  predicate NoReload(evs: seq<Event>) {
    forall i :: 0 <= i < |evs| ==> !evs[i].PinsLoaded?
  }

  /** Once loaded, the pin list only grows at its end, by at most one pin
      per event. */
  lemma {:induction false} RunPinsAppendOnly(s: AppState, evs: seq<Event>)
    requires NoReload(evs)
    ensures s.pins <= Run(s, evs).pins
    ensures |Run(s, evs).pins| <= |s.pins| + |evs|
    decreases |evs|
  {
    if evs != [] {
      var s' := Step(s, evs[0]);
      assert s.pins <= s'.pins && |s'.pins| <= |s.pins| + 1;
      assert NoReload(evs[1..]) by {
        forall i | 0 <= i < |evs[1..]| ensures !evs[1..][i].PinsLoaded? {
          assert evs[1..][i] == evs[i + 1];
        }
      }
      RunPinsAppendOnly(s', evs[1..]);
    }
  }

  // ---------------------------------------------------------------------
  // Scenarios

  /** Nobody logged in: a double-click opens no draft and the pins stay. */
  lemma DoubleClickLoggedOut(stored: map<string, string>)
    requires UserKey !in stored
    ensures Run(Initial(stored), [MapDoubleClicked(30.0, 114.0)]) == Initial(stored)
  {
  }

  /** alice drafts a pin at (30, 114), fills the form, attaches an image and
      submits; the server's pin is appended and the draft closes. */
  lemma AliceAddsPin(stored: map<string, string>, img: File, created: Pin)
    requires GetItem(stored, UserKey) == Some("alice")
    ensures var s1 := Run(Initial(stored), [MapDoubleClicked(30.0, 114.0), TitleChanged("Lake"),
                                            DescChanged("Nice view"), FilesDropped([img])]);
      && SubmitRequest(s1) == Some(Request(Some("alice"), "Lake", "Nice view", img, 0, 30.0, 114.0))
      && Submit(s1, Ok(created)).pins == [created]
      && Submit(s1, Ok(created)).newPlace == None
      && Submit(s1, Ok(created)).openPopups == map[]
  {
    var s0 := Initial(stored);
    var evs := [MapDoubleClicked(30.0, 114.0), TitleChanged("Lake"), DescChanged("Nice view"), FilesDropped([img])];
    var a := AddClick(s0, 30.0, 114.0);
    var b := ChangeTitle(a, "Lake");
    var c := ChangeDesc(b, "Nice view");
    var d := Drop(c, [img]);
    assert Run(d, evs[4..]) == d;
    assert Run(c, evs[3..]) == d;
    assert Run(b, evs[2..]) == d;
    assert Run(a, evs[1..]) == d;
    assert Run(s0, evs) == d;
  }

  /** Two clicks on a closed marker "p1" (never clicked, or closed with its
      close button): open after the first, closed after the second. */
  lemma ClickMarkerTwice(s: AppState)
    requires !IsOpen(s.openPopups, "p1")
    ensures IsOpen(Run(s, [MarkerClicked("p1")]).openPopups, "p1")
    ensures !IsOpen(Run(s, [MarkerClicked("p1"), MarkerClicked("p1")]).openPopups, "p1")
  {
  }

  /** A logout while a draft is open leaves the draft as it was. */
  lemma LogoutWithDraft(s: AppState)
    requires s.newPlace.Some?
    ensures Run(s, [LoggedOut]).newPlace == s.newPlace
    ensures Run(s, [LoggedOut]).currentUser == None
  {
  }
}
