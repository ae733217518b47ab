/**
 * The side panel listing hospitals: one button per hospital, each showing a
 * distance and an ETA label chosen from the hospital's `routeInfo`.
 */
module HospitalList {
  import opened Wrappers

  datatype RouteInfo = RouteInfo(distance: string, eta: string)

  /**
   * A hospital as the list receives it. `distance` and `eta` are the
   * top-level fields; `routeInfo` is the optional pair the labels read.
   */
  datatype Hospital = Hospital(
    id: int,
    name: string,
    address: string,
    distance: string,
    eta: string,
    routeInfo: Option<RouteInfo>)

  /** What a distance or ETA cell shows. */
  datatype RouteLabel =
    | ServiceUnavailable
    | NoRouteFound
    | Calculating
    | Shown(text: string)

  /** The text a label displays. */
  function LabelText(l: RouteLabel): string
  {
    match l
    case ServiceUnavailable => "Service unavailable"
    case NoRouteFound => "No route found"
    case Calculating => "Calculating..."
    case Shown(text) => text
  }

  /**
   * The nested ternary on one route value: the sentinel "Error" means the
   * lookup failed, "Unavailable" that no route exists, a missing or empty
   * value that the route is still being computed; anything else is shown.
   */
  function LabelFor(value: Option<string>): (l: RouteLabel)
    ensures value == Some("Error") <==> l == ServiceUnavailable
    ensures value == Some("Unavailable") <==> l == NoRouteFound
    ensures (value.None? || value == Some("")) <==> l == Calculating
    ensures l.Shown? <==>
      (value.Some? && value.value !in {"", "Error", "Unavailable"})
    ensures l.Shown? ==> l.text == value.value
  {
    if value == Some("Error") then ServiceUnavailable
    else if value == Some("Unavailable") then NoRouteFound
    else if value.Some? && value.value != "" then Shown(value.value)
    else Calculating
  }

  /** `hospital.routeInfo?.distance`. */
  function DistanceValue(h: Hospital): Option<string>
  {
    if h.routeInfo.Some? then Some(h.routeInfo.value.distance) else None
  }

  /** `hospital.routeInfo?.eta`. */
  function EtaValue(h: Hospital): Option<string>
  {
    if h.routeInfo.Some? then Some(h.routeInfo.value.eta) else None
  }

  /** One rendered button: its key, pin number, texts, labels and the id a click reports. */
  datatype Entry = Entry(
    key: int,
    pin: int,
    name: string,
    address: string,
    distanceLabel: RouteLabel,
    etaLabel: RouteLabel,
    selects: int)

  function EntryFor(h: Hospital): Entry
  {
    Entry(h.id, h.id, h.name, h.address, LabelFor(DistanceValue(h)), LabelFor(EtaValue(h)), h.id)
  }

  /** `hospitals.map(...)`: one entry per hospital, in list order. */
  function Entries(hospitals: seq<Hospital>): (r: seq<Entry>)
    ensures |r| == |hospitals|
    ensures forall i :: 0 <= i < |r| ==>
      r[i].selects == hospitals[i].id && r[i].key == hospitals[i].id &&
      r[i].name == hospitals[i].name && r[i].address == hospitals[i].address &&
      r[i].distanceLabel == LabelFor(DistanceValue(hospitals[i])) &&
      r[i].etaLabel == LabelFor(EtaValue(hospitals[i]))
  {
    seq(|hospitals|, i requires 0 <= i < |hospitals| => EntryFor(hospitals[i]))
  }

  /**
   * The two labels are chosen independently, and neither depends on the
   * top-level `distance`/`eta` fields: two hospitals that differ only there
   * render the same entry.
   */
  lemma LabelsReadOnlyRouteInfo(h: Hospital, distance: string, eta: string, info: RouteInfo)
    ensures EntryFor(h.(distance := distance, eta := eta)) == EntryFor(h)
    ensures h.routeInfo.Some? ==>
      EntryFor(h.(routeInfo := Some(h.routeInfo.value.(eta := info.eta)))).distanceLabel
        == EntryFor(h).distanceLabel
    ensures h.routeInfo.Some? ==>
      EntryFor(h.(routeInfo := Some(h.routeInfo.value.(distance := info.distance)))).etaLabel
        == EntryFor(h).etaLabel
  {
  }
}
