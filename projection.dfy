/** What the render of `pins.map` derives from the state: one marker per pin,
    coloured by ownership and sized by the zoom, and a popup card for each
    pin whose popup entry is true. */
module Projection {
  import opened Wrappers
  import opened State

  /** "tomato" marks the viewer's own pins, "slateblue" everyone else's. */
  datatype Color = Tomato | SlateBlue

  datatype MarkerView = MarkerView(id: Id, latitude: real, longitude: real, color: Color, fontSize: real)

  /** The details card of an open popup. */
  datatype PopupCard = PopupCard(
    id: Id,
    latitude: real,
    longitude: real,
    title: string,
    desc: string,
    image: Option<string>,
    stars: nat,
    username: string,
    createdAt: string)

  /** What one pin renders: its marker, and its popup when open. */
  datatype PinView = PinView(marker: MarkerView, popup: Option<PopupCard>)

  /** The icon's font size: seven times the zoom. */
  function IconSize(zoom: real): (size: real)
    ensures zoom >= 0.0 ==> size >= 0.0
  {
    zoom * 7.0
  }

  /** A bigger zoom gives a bigger icon, and equal zooms equal icons. */
  lemma IconSizeMonotone(z1: real, z2: real)
    requires z1 <= z2
    ensures IconSize(z1) <= IconSize(z2)
    ensures z1 < z2 ==> IconSize(z1) < IconSize(z2)
  {
  }

  /** The length `Array.from({length: rating})` takes: the rating itself,
      and no stars for a negative rating. */
  function StarCount(rating: int): (n: nat)
    ensures rating >= 0 ==> n == rating
    ensures rating < 0 ==> n == 0
  {
    if rating < 0 then 0 else rating
  }

  /** The colour test uses strict equality with the session, so no pin is
      the viewer's own when nobody is logged in. */
  function ColorOf(p: Pin, currentUser: Option<string>): (c: Color)
    ensures c == Tomato <==> currentUser == Some(p.username)
  {
    if currentUser == Some(p.username) then Tomato else SlateBlue
  }

  /** The card shows the pin's image only when its path is truthy: a
      missing or empty path shows none. */
  function CardOf(p: Pin): (c: PopupCard)
    ensures c.id == p.id && c.title == p.title && c.desc == p.desc && c.username == p.username
    ensures c.latitude == p.lat && c.longitude == p.long && c.stars == StarCount(p.rating)
    ensures c.image.Some? <==> Truthy(p.image)
    ensures c.image.Some? ==> c.image == p.image
  {
    PopupCard(p.id, p.lat, p.long, p.title, p.desc, if Truthy(p.image) then p.image else None,
              StarCount(p.rating), p.username, p.createdAt)
  }

  function ViewOf(p: Pin, viewport: Viewport, currentUser: Option<string>, openPopups: map<Id, bool>): (v: PinView)
  {
    PinView(
      MarkerView(p.id, p.lat, p.long, ColorOf(p, currentUser), IconSize(viewport.zoom)),
      if IsOpen(openPopups, p.id) then Some(CardOf(p)) else None)
  }

  /** Every pin gets a marker at its coordinates, in the order of `pins`;
      its colour says whether the session owns it, all markers share the
      zoom's icon size, and a popup card is shown exactly when the pin's
      entry in `openPopups` is true. */
  function RenderPins(pins: seq<Pin>, viewport: Viewport, currentUser: Option<string>, openPopups: map<Id, bool>): (r: seq<PinView>)
    ensures |r| == |pins|
    ensures forall i :: 0 <= i < |pins| ==>
      && r[i].marker.id == pins[i].id
      && r[i].marker.latitude == pins[i].lat && r[i].marker.longitude == pins[i].long
      && (r[i].marker.color == Tomato <==> currentUser == Some(pins[i].username))
      && r[i].marker.fontSize == IconSize(viewport.zoom)
      && (r[i].popup.Some? <==> IsOpen(openPopups, pins[i].id))
      && (r[i].popup.Some? ==> r[i].popup.value == CardOf(pins[i]))
  {
    if pins == [] then []
    else [ViewOf(pins[0], viewport, currentUser, openPopups)] + RenderPins(pins[1..], viewport, currentUser, openPopups)
  }

  /** The ids whose popup card is on screen. */
  function ShownPopups(views: seq<PinView>): (ids: set<Id>)
    ensures forall i :: 0 <= i < |views| && views[i].popup.Some? ==> views[i].popup.value.id in ids
  {
    set i | 0 <= i < |views| && views[i].popup.Some? :: views[i].popup.value.id
  }

  /** A popup card shows for `id` exactly when some pin in `pins` has that id
      and its entry in `openPopups` is true. */
  lemma ShownPopupsAreOpenPins(pins: seq<Pin>, viewport: Viewport, currentUser: Option<string>, openPopups: map<Id, bool>, id: Id)
    ensures id in ShownPopups(RenderPins(pins, viewport, currentUser, openPopups))
        <==> IsOpen(openPopups, id) && exists p :: p in pins && p.id == id
  {
  }

  /** After a logout every marker is someone else's colour. */
  lemma NoOwnMarkersWhenLoggedOut(s: AppState, i: nat)
    requires i < |s.pins|
    ensures RenderPins(Logout(s).pins, Logout(s).viewport, Logout(s).currentUser, Logout(s).openPopups)[i].marker.color == SlateBlue
  {
  }

  /** A click on a rendered marker flips whether that pin's card shows, and
      no other pin's card changes unless it shares the id. */
  lemma MarkerClickFlipsCard(s: AppState, i: nat, j: nat)
    requires i < |s.pins| && j < |s.pins|
    ensures var before := RenderPins(s.pins, s.viewport, s.currentUser, s.openPopups);
      var s' := MarkerClick(s, s.pins[i].id);
      var after := RenderPins(s'.pins, s'.viewport, s'.currentUser, s'.openPopups);
      && (after[i].popup.Some? <==> before[i].popup.None?)
      && (s.pins[j].id != s.pins[i].id ==> after[j] == before[j])
  {
  }
}
