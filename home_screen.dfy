/** The decision part of the home screen (src/screens/HomeScreen.tsx): how today's
    status card is styled and what it shows, and where a drop-off marker goes. */
module HomeScreen {
  import opened Wrappers
  import opened WasteTypes

  /** The three card colour schemes: orange (special), blue (truck comes), grey. */
  datatype Palette = Orange | Blue | Grey

  datatype Icon = AlertTriangle | Truck

  /** The time and waste-type badges; each shows the field as sent, possibly empty. */
  datatype TruckBadges = TruckBadges(time: Option<string>, wasteType: Option<string>)

  /** What the status card shows. */
  datatype Card = Card(
    palette: Palette,
    icon: Icon,
    title: string,
    badges: Option<TruckBadges>,
    note: Option<string>)

  // ---------------------------------------------------------------------------
  // Today's status card

  /** Whether the card announces a special event; such an event brings a truck exactly
      when it is not a cancellation. */
  function IsSpecial(r: ScheduleResponse): (special: bool)
    ensures special <==> r.kind == Special
    ensures special ==> (HasTruck(r) <==> !r.isCancelled)
  {
    r.kind == Special
  }

  /** `hasTruck`: a truck comes unless the response is cancelled or says NONE. */
  function HasTruck(r: ScheduleResponse): (truck: bool)
    ensures truck <==> (r.kind == Special || r.kind == Standard) && !r.isCancelled
    ensures r.isCancelled || r.kind == NoService ==> !truck
  {
    !r.isCancelled && r.kind != NoService
  }

  /** The if / else-if / else chain: special first, then truck, then the rest. */
  function PaletteFor(r: ScheduleResponse): (palette: Palette)
    ensures palette == Orange <==> r.kind == Special
    ensures palette == Blue <==> r.kind == Standard && !r.isCancelled
    ensures palette == Grey <==> r.kind == NoService || (r.kind == Standard && r.isCancelled)
    ensures r.kind == Special && HasTruck(r) ==> palette == Orange
  {
    if IsSpecial(r) then Orange else if HasTruck(r) then Blue else Grey
  }

  function IconFor(r: ScheduleResponse): (icon: Icon)
    ensures icon == AlertTriangle <==> r.kind == Special
    ensures icon == AlertTriangle <==> PaletteFor(r) == Orange
  {
    if IsSpecial(r) then AlertTriangle else Truck
  }

  /** `schedule.note && ...` renders the note only when it is truthy: present and not
      the empty string. */
  function NoteShown(note: Option<string>): (shown: Option<string>)
    ensures shown.Some? <==> note.Some? && note.value != ""
    ensures shown.Some? ==> shown == note
  {
    match note
    case Some(n) => if n != "" then note else None
    case None => None
  }

  /** `renderScheduleCard`: no card before a response has arrived. */
  function RenderScheduleCard(schedule: Option<ScheduleResponse>): (card: Option<Card>)
    ensures card.None? <==> schedule.None?
    ensures card.Some? ==> var r, c := schedule.value, card.value;
      && c.title == r.message
      // palette precedence, stated on the response's own fields
      && (c.palette == Orange <==> r.kind == Special)
      && (c.palette == Blue <==> r.kind == Standard && !r.isCancelled)
      && (c.palette == Grey <==> r.kind == NoService || (r.kind == Standard && r.isCancelled))
      && (c.icon == AlertTriangle <==> r.kind == Special)
      // the time and waste type appear only when a truck comes
      && (c.badges.Some? <==> !r.isCancelled && r.kind != NoService)
      && (c.badges.Some? ==> c.badges.value == TruckBadges(r.time, r.wasteType))
      // the note is independent of the type and of cancellation
      && (c.note.Some? <==> r.note.Some? && r.note.value != "")
      && (c.note.Some? ==> c.note == r.note)
  {
    match schedule
    case None => None
    case Some(r) =>
      Some(Card(PaletteFor(r), IconFor(r), r.message,
                if HasTruck(r) then Some(TruckBadges(r.time, r.wasteType)) else None,
                NoteShown(r.note)))
  }

  /** The colour tells the truck story: a blue card always carries the badges, a grey
      card never does, and an orange card does exactly when the event is not a
      cancellation. */
  lemma PaletteAgreesWithBadges(r: ScheduleResponse)
    ensures var c := RenderScheduleCard(Some(r)).value;
      && (c.palette == Blue ==> c.badges.Some?)
      && (c.palette == Grey ==> c.badges.None?)
      && (c.palette == Orange ==> (c.badges.Some? <==> !r.isCancelled))
  {
  }

  /** Two responses that differ only in their time, waste type or message get the same
      colour and icon: the styling depends on the type and the cancellation flag only. */
  lemma StyleDependsOnKindAndCancellation(r1: ScheduleResponse, r2: ScheduleResponse)
    requires r1.kind == r2.kind && r1.isCancelled == r2.isCancelled
    ensures RenderScheduleCard(Some(r1)).value.palette == RenderScheduleCard(Some(r2)).value.palette
    ensures RenderScheduleCard(Some(r1)).value.icon == RenderScheduleCard(Some(r2)).value.icon
    ensures (RenderScheduleCard(Some(r1)).value.badges.Some?) == (RenderScheduleCard(Some(r2)).value.badges.Some?)
  {
  }

  // ---------------------------------------------------------------------------
  // Drop-off markers

  /** The coordinate a map marker takes. */
  datatype MapCoordinate<C> = MapCoordinate(latitude: C, longitude: C)

  datatype Marker<C> = Marker(key: string, coordinate: MapCoordinate<C>, title: string, description: string)

  /** The stored [longitude, latitude] pair turned into a map coordinate. */
  function ToMapCoordinate<C>(position: (C, C)): (m: MapCoordinate<C>)
    ensures m.latitude == position.1 && m.longitude == position.0
    ensures ToPosition(m) == position
  {
    MapCoordinate(position.1, position.0)
  }

  /** The GeoJSON order again: [longitude, latitude]. */
  function ToPosition<C>(m: MapCoordinate<C>): (position: (C, C))
  {
    (m.longitude, m.latitude)
  }

  /** The swap loses nothing: converting and converting back gives the original, in
      both directions. */
  lemma SwapRoundTrip<C>(position: (C, C), m: MapCoordinate<C>)
    ensures ToPosition(ToMapCoordinate(position)) == position
    ensures ToMapCoordinate(ToPosition(m)) == m
  {
  }

  /** One `<Marker>`: keyed by the id, titled by the name, described by the address hint. */
  function MarkerOf<C>(loc: Location<C>): (marker: Marker<C>)
    ensures marker.coordinate.latitude == loc.coordinates.1
    ensures marker.coordinate.longitude == loc.coordinates.0
    ensures marker.key == loc.id && marker.title == loc.name && marker.description == loc.addressHint
  {
    Marker(loc.id, ToMapCoordinate(loc.coordinates), loc.name, loc.addressHint)
  }

  /** `locations.map(...)`: one marker per location, in order, at the swapped pair. */
  function Markers<C>(locations: seq<Location<C>>): (markers: seq<Marker<C>>)
    ensures |markers| == |locations|
    ensures forall i :: 0 <= i < |locations| ==>
      && markers[i].coordinate.latitude == locations[i].coordinates.1
      && markers[i].coordinate.longitude == locations[i].coordinates.0
      && markers[i].key == locations[i].id
      && markers[i].title == locations[i].name
      && markers[i].description == locations[i].addressHint
  {
    seq(|locations|, i requires 0 <= i < |locations| => MarkerOf(locations[i]))
  }
}
