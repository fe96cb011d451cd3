# WeatherApp overlay slots, in Dafny

WeatherApp is an iOS map viewer. Its one piece of logic is how
`ViewController` manages tile overlays on its `MKMapView` when the user picks
an entry of the `MapsOptions` menu. The controller has two slots, and each
holds one `MKTileOverlay`:

- the **data slot** (`currentOverlay`): an additive weather layer
  (temperature, wind speed, precipitation, pressure), appended on top of the
  map's overlays;
- the **base slot** (`mapOverlay`): a layer with `canReplaceMapContent` set,
  which replaces the map (two Google tile servers), inserted at index 0.

`setOverlay(option:)` routes each option through a fixed table of URL
templates to one slot. `addMapTile` and `replaceMap` change a slot: they
remove the old overlay from the map, then add the new one. Asking for the
template the slot already holds changes nothing, and `nil` empties the slot.
Switching the data layer hides the info view. Choosing temperature shows it.
`addBoundry` puts one polygon on the map when the view loads.

Files:

- `Wrappers.dfy`: `Option`, standing for Swift's `String?`.
- `Interfaces.dfy`: the six URL templates, the `MapsOptions` enum with its raw
  values, the failable `init(rawValue:)` and `allValues`. It also holds the
  lemmas about these constants: the templates are distinct, each has the
  `{z}`/`{x}`/`{y}` placeholders, and the four weather templates share one
  hash query.
- `MapKit.dfy`: the part of MapKit the controller uses. Overlays are records
  with an identity. `MapView` holds the ordered overlay list and has `Add`,
  `Insert` and `Remove`. `Removed` and `OfRole` are pure functions over the
  list, with lemmas about removal by identity and about each overlay's role:
  boundary, data or base.
- `Controller.dfy`: the state machine. `Screen` is the controller state as a
  value. `AddMapTileSpec`, `ReplaceMapSpec`, `SetOverlaySpec` and
  `AddBoundarySpec` are its transitions. `SlotsConsistent` is the invariant:
  at most one tile per slot is on the map, and it is the slot's own overlay.
  The lemmas state the properties of the transitions. The class
  `ViewController` makes the same changes in place. Each of its methods is
  proved to end in the state its `...Spec` function gives and to keep the
  invariant.

## Model

| member | source | states |
|---|---|---|
| `Interfaces.TemplatesHavePlaceholders` | WeatherApp/Interfaces.swift:13-18 | every one of the six URL templates contains `{z}`, `{x}` and `{y}` |
| `Interfaces.TemplatesDistinct` | WeatherApp/Interfaces.swift:13-18 | the six URL templates are pairwise different |
| `Interfaces.WeatherTemplatesShareHash` | WeatherApp/Interfaces.swift:13-16 | the four weather templates end in the same `?hash=` query and are pairwise different in the part before it |
| `Interfaces.FromRawValue` | WeatherApp/Interfaces.swift:24-33 | `MapsOptions(rawValue:)` returns a case only if that case has this raw value, and returns nil exactly when no case has it |
| `Interfaces.RawValueRoundTrip` | WeatherApp/Interfaces.swift:24-33 | raw values are pairwise distinct, and `MapsOptions(rawValue: o.rawValue) == o` holds for every case |
| `Interfaces.AllValuesComplete` | WeatherApp/Interfaces.swift:34 | `allValues` has 8 entries: every case except `NoneTile`, each once, in declaration order |
| `MapKit.MapView.Add` | WeatherApp/ViewController.swift:82 | `add` appends the overlay at the end of the map's overlay list |
| `MapKit.MapView.Insert` | WeatherApp/ViewController.swift:101 | `insert(_:at:)` puts the overlay at the given position and shifts the rest |
| `MapKit.MapView.Remove` | WeatherApp/ViewController.swift:75 | `remove` deletes the overlay with that identity from the list |
| `MapKit.Removed` | WeatherApp/ViewController.swift:75 | after a removal, the list holds exactly the old overlays other than the removed identity |
| `MapKit.RemovedAbsent` | WeatherApp/ViewController.swift:75 | removing an overlay that is not on the map changes nothing |
| `MapKit.RemovedAt` | WeatherApp/ViewController.swift:80 | when identities are distinct, removing the overlay at position k closes the gap and keeps the order of the others |
| `Controller.SelectionTable` | WeatherApp/ViewController.swift:109-131 | the four weather options select a data-slot template; `OpenStreetMap` and `GoogleMap` select a base-slot template; `NoneTile` and `DefaultMap` select nil; `CitiesAnnotations` selects nothing; no two options hand over the same template |
| `Controller.InitialScreenConsistent` | WeatherApp/ViewController.swift:17-18 | the initial state, with both slots holding an empty `MKTileOverlay()` and then the boundary added, satisfies the invariant |
| `Controller.AddBoundaryPreservesConsistency` | WeatherApp/ViewController.swift:133-141 | `addBoundry` keeps the invariant and adds exactly one polygon, at the end |
| `Controller.RemoveCurrentOverlay` | WeatherApp/ViewController.swift:75 | removing the data slot's overlay leaves no data tile on the map and keeps the base tile (still at index 0) and the polygons |
| `Controller.RemoveMapOverlay` | WeatherApp/ViewController.swift:93 | removing the base slot's overlay leaves no base tile on the map and keeps the data tile and the polygons |
| `Controller.AddMapTileKeepsBaseSlot` | WeatherApp/ViewController.swift:73-85 | `addMapTile` never changes `mapOverlay` or the base tile on the map, and never removes the polygon |
| `Controller.AddMapTilePreservesConsistency` | WeatherApp/ViewController.swift:73-85 | `addMapTile` keeps the invariant: at most one tile per slot on the map, equal to that slot's overlay, with distinct identities and the base tile first |
| `Controller.ReplaceMapKeepsDataSlot` | WeatherApp/ViewController.swift:91-103 | `replaceMap` never changes `currentOverlay`, the info view or the data tile on the map, and never removes the polygon |
| `Controller.ReplaceMapPreservesConsistency` | WeatherApp/ViewController.swift:91-103 | `replaceMap` keeps the invariant |
| `Controller.SetOverlayPreservesConsistency` | WeatherApp/ViewController.swift:109-131 | every menu option keeps the invariant and never removes the boundary polygon |
| `Controller.AddMapTileNil` | WeatherApp/ViewController.swift:74-77 | `addMapTile(nil)` removes the data overlay and keeps the order of the rest; it empties the data slot and leaves the base slot and the info view as they were |
| `Controller.AddMapTileUnchangedIff` | WeatherApp/ViewController.swift:79 | `addMapTile(t)` leaves the whole state unchanged if and only if the data slot already holds `t` |
| `Controller.AddMapTileSwitches` | WeatherApp/ViewController.swift:79-84 | `addMapTile(t)` with a new `t` removes the old data overlay and appends exactly one new tile with template `t` at the end; that tile has a new identity and becomes the data slot's overlay, and the info view is hidden |
| `Controller.ReplaceMapNil` | WeatherApp/ViewController.swift:92-95 | `replaceMap(nil)` only removes the base overlay and empties the base slot; the data slot and the info view are as they were |
| `Controller.ReplaceMapUnchangedIff` | WeatherApp/ViewController.swift:97 | `replaceMap(t)` leaves the whole state unchanged if and only if the base slot already holds `t` |
| `Controller.ReplaceMapSwitches` | WeatherApp/ViewController.swift:97-102 | `replaceMap(t)` with a new `t` removes the old base overlay and inserts at index 0 one new tile with template `t` and `canReplaceMapContent` set; the data slot and the info view are as they were |
| `Controller.SetOverlayInfoView` | WeatherApp/ViewController.swift:109-131 | the info view is visible after `TemperatureTile` and hidden after switching to another weather layer; every other option leaves it as it was |
| `Controller.SetOverlayOneSlot` | WeatherApp/ViewController.swift:109-131 | a data-slot option leaves the base slot and base tile alone; a base-slot option leaves the data slot, data tile and info view alone; `CitiesAnnotations` changes nothing |
| `Controller.AddMapTileIdempotent` | WeatherApp/ViewController.swift:73-85 | a second `addMapTile` with the same argument changes nothing an observer can see, and changes nothing at all when the argument is a template |
| `Controller.ReplaceMapIdempotent` | WeatherApp/ViewController.swift:91-103 | a second `replaceMap` with the same argument changes nothing an observer can see, and changes nothing at all when the argument is a template |
| `Controller.SetOverlayIdempotent` | WeatherApp/ViewController.swift:109-131 | applying an option twice looks the same as applying it once; the states are identical for every option except `NoneTile` and `DefaultMap` |
| `Controller.SetOverlayKeepsInfoInStep` | WeatherApp/ViewController.swift:113-121 | every option keeps this rule: the info view is shown while the temperature layer is on, and hidden while another weather layer is on |
| `Controller.ViewController.constructor` | WeatherApp/ViewController.swift:17-18 | both slots start with an empty tile overlay, the map view starts empty, and the invariant holds |
| `Controller.ViewController.NewTileOverlay` | WeatherApp/ViewController.swift:99-100 | each `MKTileOverlay()` / `MKTileOverlay(urlTemplate:)` allocation yields an overlay with a new identity, the given template and `canReplaceMapContent` flag |
| `Controller.ViewController.AddBoundary` | WeatherApp/ViewController.swift:133-141 | moves to `AddBoundarySpec` of the old state and keeps the invariant |
| `Controller.ViewController.AddMapTile` | WeatherApp/ViewController.swift:73-85 | moves to `AddMapTileSpec` of the old state and keeps the invariant |
| `Controller.ViewController.ReplaceMap` | WeatherApp/ViewController.swift:91-103 | moves to `ReplaceMapSpec` of the old state and keeps the invariant |
| `Controller.ViewController.SetOverlay` | WeatherApp/ViewController.swift:109-131 | runs the menu switch and moves to `SetOverlaySpec` of the old state, which is defined by the selection table |

Notes on the model:

- A new `MKTileOverlay` or `MKPolygon` object is modelled by a fresh number
  taken from the `nextId` counter. `remove` compares these identities, as
  MapKit compares object references.
- `NoneTile` and `DefaultMap` store a new empty `MKTileOverlay()` on every
  call. So choosing them twice gives states that differ only in the
  identity of that off-map object. `Observe` leaves out the identities of the two slot objects and the
  identity counter (overlays on the map keep theirs), and
  `SetOverlayIdempotent` states both facts.
- The `default:` branch of the switch (`CitiesAnnotations`) does nothing; in
  particular it clears no slot.
- The comment on `addMapTile` says `nil` "removes all tiles". The code removes
  only the data slot's overlay, and the model follows the code.
- The six template constants are written as concatenations of their shared
  parts: scheme, host, layer, `/{z}/{x}/{y}`, hash query. Each one spells out
  the same string as the literal in `Interfaces.swift`.

## Left out

- `viewDidLoad` (location manager, authorization, location updates, title,
  delegate wiring): platform I/O. Only its `addBoundry()` call is modelled, by
  `ViewController.AddBoundary`.
- `centerMap` and `centerMapOnLocation`: floating-point region arithmetic
  handed to MapKit. The same goes for `kMapScale`, `kInitialMapLatitude`,
  `kInitialMapLongitude` and `regionRadius`.
- The polygon's four coordinates: floating-point data. The model records only
  that one polygon overlay is added.
- `prepare(for:sender:)` and `unwindToMap(segue:)`: storyboard navigation.
  `unwindToMap` only calls `setOverlay` with the option chosen in the menu, so
  `ViewController.SetOverlay` covers it.
- The `MKMapViewDelegate` renderer factory and its stroke colour and width:
  rendering.
- `WeatherParserInterface` and `WeatherDataInterface`: protocols with no
  implementation.
- `tapAnnotation`, `tapCoordinates`, `locationManager`, `menuTransition`: no
  core logic uses them.
- The initial `isHidden` of `infoView` comes from the storyboard. The
  constructor takes it as a parameter.
- `MapKit.MapView.Insert`: requires a valid index. The controller only inserts
  at 0, and MapKit's behaviour for an out-of-range index is not modelled.
- `Controller.AddMapTileSpec`, `Controller.ReplaceMapSpec`: compare templates
  with `seq<char>` equality, where Swift's `String` `!=` uses Unicode canonical
  equivalence; they differ only on non-normalised non-ASCII strings, and every
  template that reaches them is one of the six ASCII constants.
- The controller's methods require `Valid()`, the class invariant. The
  constructor sets it up and every method keeps it.
