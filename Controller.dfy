/**
 * The overlay-slot state machine of WeatherApp/ViewController.swift.
 *
 * The controller keeps two slots, each holding one `MKTileOverlay`:
 * `currentOverlay`, the additive weather (data) layer, and `mapOverlay`, the
 * layer that replaces the map content (base map). A menu option is routed to
 * one slot; changing a slot takes the old overlay off the map and puts a new
 * one on it, appended at the end (data) or inserted at index 0 (base). The
 * `infoView.isHidden` flag is flipped as a side effect.
 *
 * `Screen` is the controller's state as a value and the `...Spec` functions
 * are its transitions; the class `ViewController` performs them in place and
 * each of its methods is proved to follow its `...Spec` function.
 */
module Controller {
  import opened Wrappers
  import opened Interfaces
  import opened MapKit

  /**
   * The controller's state: the map view's overlays, both slots, whether the
   * info view is hidden, and the next unused object identity.
   */
  datatype Screen = Screen(
    overlays: seq<Overlay>,
    currentOverlay: TileOverlay,
    mapOverlay: TileOverlay,
    infoHidden: bool,
    nextId: nat)

  /**
   * What an observer of the map sees: everything except the identities of the
   * two slot objects and the identity counter.
   */
  datatype View = View(
    overlays: seq<Overlay>,
    dataTemplate: Option<string>,
    baseTemplate: Option<string>,
    infoHidden: bool)

  function Observe(s: Screen): View {
    View(s.overlays, s.currentOverlay.urlTemplate, s.mapOverlay.urlTemplate, s.infoHidden)
  }

  /**
   * The state right after the stored properties are initialised: both slots
   * hold an empty `MKTileOverlay()` and the map shows nothing.
   */
  function InitialScreen(infoHidden: bool): Screen {
    Screen([], TileOverlay(0, None, false), TileOverlay(1, None, false), infoHidden, 2)
  }

  /**
   * The invariant: at most one data tile and at most one base tile are on the
   * map, each exactly when its slot holds a template, each equal to its slot's
   * overlay, and the base tile is drawn first. All identities are distinct and
   * below `nextId`.
   */
  ghost predicate SlotsConsistent(s: Screen) {
    var ov := s.overlays;
    IdsDistinct(ov)
    && (forall o :: o in ov ==> o.Id() < s.nextId)
    && s.currentOverlay.id < s.nextId && s.mapOverlay.id < s.nextId
    && s.currentOverlay.id != s.mapOverlay.id
    && (forall o :: o in ov && o.Id() == s.currentOverlay.id ==> o == Tile(s.currentOverlay))
    && (forall o :: o in ov && o.Id() == s.mapOverlay.id ==> o == Tile(s.mapOverlay))
    && !s.currentOverlay.canReplaceMapContent
    && s.mapOverlay.canReplaceMapContent == s.mapOverlay.urlTemplate.Some?
    && OfRole(ov, DataRole) == (if s.currentOverlay.urlTemplate.Some? then [Tile(s.currentOverlay)] else [])
    && OfRole(ov, BaseRole) == (if s.mapOverlay.urlTemplate.Some? then [Tile(s.mapOverlay)] else [])
    && (s.mapOverlay.urlTemplate.Some? ==> |ov| > 0 && ov[0] == Tile(s.mapOverlay))
  }

  /**
   * `after` is `before` with overlay `o` taken out (order kept), or `before`
   * itself when `o` was not on the map.
   */
  ghost predicate WithoutOverlay(after: seq<Overlay>, before: seq<Overlay>, o: Overlay) {
    (o !in before ==> after == before)
    && (o in before ==>
          exists k :: 0 <= k < |before| && before[k] == o && after == before[..k] + before[k + 1..])
  }

  /** `addBoundry`: the boundary polygon is added on top of the map. */
  function AddBoundarySpec(s: Screen): Screen {
    s.(overlays := s.overlays + [Polygon(s.nextId)], nextId := s.nextId + 1)
  }

  /** `addMapTile(urlTemplate:)`. */
  function AddMapTileSpec(s: Screen, urlTemplate: Option<string>): Screen {
    match urlTemplate
    case None =>
      s.(overlays := Removed(s.overlays, s.currentOverlay.id),
         currentOverlay := TileOverlay(s.nextId, None, false),
         nextId := s.nextId + 1)
    case Some(t) =>
      if s.currentOverlay.urlTemplate == Some(t) then s
      else
        var tile := TileOverlay(s.nextId, Some(t), false);
        s.(overlays := Removed(s.overlays, s.currentOverlay.id) + [Tile(tile)],
           currentOverlay := tile,
           infoHidden := true,
           nextId := s.nextId + 1)
  }

  /** `replaceMap(urlTemplate:)`. */
  function ReplaceMapSpec(s: Screen, urlTemplate: Option<string>): Screen {
    match urlTemplate
    case None =>
      s.(overlays := Removed(s.overlays, s.mapOverlay.id),
         mapOverlay := TileOverlay(s.nextId, None, false),
         nextId := s.nextId + 1)
    case Some(t) =>
      if s.mapOverlay.urlTemplate == Some(t) then s
      else
        var tile := TileOverlay(s.nextId, Some(t), true);
        s.(overlays := [Tile(tile)] + Removed(s.overlays, s.mapOverlay.id),
           mapOverlay := tile,
           nextId := s.nextId + 1)
  }

  /** The slot a menu option is routed to, with the template handed to it. */
  datatype Selection = DataSlot(template: Option<string>) | BaseSlot(template: Option<string>) | NoSlot

  /** The selection table of `setOverlay(option:)`. */
  function SelectionOf(o: MapsOptions): Selection {
    match o
    case NoneTile => DataSlot(None)
    case TemperatureTile => DataSlot(Some(TemperatureUrlTemplate))
    case WindSpeedTile => DataSlot(Some(WindSpeedUrlTemplate))
    case PrecipitationTile => DataSlot(Some(PrecipitationUrlTemplate))
    case PressureTile => DataSlot(Some(PressureUrlTemplate))
    case OpenStreetMap => BaseSlot(Some(OpenStreetUrlTemplate))
    case GoogleMap => BaseSlot(Some(GoogleMapUrlTemplate))
    case DefaultMap => BaseSlot(None)
    case CitiesAnnotations => NoSlot
  }

  /** `setOverlay(option:)`: apply the option's selection; the temperature layer also shows the info view. */
  function SetOverlaySpec(s: Screen, o: MapsOptions): Screen {
    var t := match SelectionOf(o)
      case DataSlot(u) => AddMapTileSpec(s, u)
      case BaseSlot(u) => ReplaceMapSpec(s, u)
      case NoSlot => s;
    if o == TemperatureTile then t.(infoHidden := false) else t
  }

  // ---------------------------------------------------------------------------
  // The selection table

  /**
   * Four options select a weather template for the data slot, two select a
   * base-map template, `NoneTile` and `DefaultMap` clear their slot, and
   * `CitiesAnnotations` changes nothing. Different options never hand the
   * same template to the slots, and every template handed over is one of the
   * six constants.
   */
  lemma SelectionTable()
    ensures forall o :: SelectionOf(o).DataSlot? && SelectionOf(o).template.Some?
                        <==> o in {TemperatureTile, WindSpeedTile, PrecipitationTile, PressureTile}
    ensures forall o :: SelectionOf(o).BaseSlot? && SelectionOf(o).template.Some?
                        <==> o in {OpenStreetMap, GoogleMap}
    ensures forall o :: !SelectionOf(o).NoSlot? && SelectionOf(o).template.None?
                        <==> o in {NoneTile, DefaultMap}
    ensures forall o :: SelectionOf(o).NoSlot? <==> o == CitiesAnnotations
    ensures forall o :: !SelectionOf(o).NoSlot? && SelectionOf(o).template.Some?
                        ==> SelectionOf(o).template.value in UrlTemplates
    ensures forall o, p :: o != p && !SelectionOf(o).NoSlot? && !SelectionOf(p).NoSlot?
                           && SelectionOf(o).template.Some?
                           ==> SelectionOf(o).template != SelectionOf(p).template
  {
    TemplatesDistinct();
    assert UrlTemplates[0] == TemperatureUrlTemplate;
    assert UrlTemplates[1] == PrecipitationUrlTemplate;
    assert UrlTemplates[2] == WindSpeedUrlTemplate;
    assert UrlTemplates[3] == PressureUrlTemplate;
    assert UrlTemplates[4] == OpenStreetUrlTemplate;
    assert UrlTemplates[5] == GoogleMapUrlTemplate;
  }

  // ---------------------------------------------------------------------------
  // The invariant

  lemma InitialScreenConsistent(infoHidden: bool)
    ensures SlotsConsistent(InitialScreen(infoHidden))
    ensures SlotsConsistent(AddBoundarySpec(InitialScreen(infoHidden)))
  {
    var s := AddBoundarySpec(InitialScreen(infoHidden));
    assert s.overlays == [Polygon(2)];
    assert OfRole(s.overlays, DataRole) == [];
  }

  /** Adding the boundary keeps the invariant and puts exactly one polygon on top. */
  lemma AddBoundaryPreservesConsistency(s: Screen)
    requires SlotsConsistent(s)
    ensures SlotsConsistent(AddBoundarySpec(s))
    ensures OfRole(AddBoundarySpec(s).overlays, BoundaryRole) == OfRole(s.overlays, BoundaryRole) + [Polygon(s.nextId)]
  {
    var p := Polygon(s.nextId);
    DistinctSnoc(s.overlays, p);
    OfRoleAppend(s.overlays, p, DataRole);
    OfRoleAppend(s.overlays, p, BaseRole);
    OfRoleAppend(s.overlays, p, BoundaryRole);
  }

  /** Taking the data slot's overlay off the map keeps every other role's overlays. */
  lemma RemoveCurrentOverlay(s: Screen)
    requires SlotsConsistent(s)
    ensures var ov := Removed(s.overlays, s.currentOverlay.id);
      IdsDistinct(ov)
      && OfRole(ov, DataRole) == []
      && OfRole(ov, BaseRole) == OfRole(s.overlays, BaseRole)
      && OfRole(ov, BoundaryRole) == OfRole(s.overlays, BoundaryRole)
      && (s.mapOverlay.urlTemplate.Some? ==> |ov| > 0 && ov[0] == Tile(s.mapOverlay))
      && WithoutOverlay(ov, s.overlays, Tile(s.currentOverlay))
  {
    var id := s.currentOverlay.id;
    RemovedDistinct(s.overlays, id);
    RemovedOfRole(s.overlays, id, DataRole);
    RemovedOfRole(s.overlays, id, BaseRole);
    RemovedOfRole(s.overlays, id, BoundaryRole);
    RemovedAbsent(OfRole(s.overlays, BoundaryRole), id);
    RemovedWithout(s.overlays, Tile(s.currentOverlay));
  }

  /** Taking the base slot's overlay off the map keeps every other role's overlays. */
  lemma RemoveMapOverlay(s: Screen)
    requires SlotsConsistent(s)
    ensures var ov := Removed(s.overlays, s.mapOverlay.id);
      IdsDistinct(ov)
      && OfRole(ov, BaseRole) == []
      && OfRole(ov, DataRole) == OfRole(s.overlays, DataRole)
      && OfRole(ov, BoundaryRole) == OfRole(s.overlays, BoundaryRole)
      && WithoutOverlay(ov, s.overlays, Tile(s.mapOverlay))
  {
    var id := s.mapOverlay.id;
    RemovedDistinct(s.overlays, id);
    RemovedOfRole(s.overlays, id, DataRole);
    RemovedOfRole(s.overlays, id, BaseRole);
    RemovedOfRole(s.overlays, id, BoundaryRole);
    RemovedAbsent(OfRole(s.overlays, BoundaryRole), id);
    RemovedWithout(s.overlays, Tile(s.mapOverlay));
  }

  /** Removing by identity an overlay that is the only one with that identity. */
  lemma RemovedWithout(s: seq<Overlay>, o: Overlay)
    requires IdsDistinct(s)
    requires forall x :: x in s && x.Id() == o.Id() ==> x == o
    ensures WithoutOverlay(Removed(s, o.Id()), s, o)
  {
    if o in s {
      var k :| 0 <= k < |s| && s[k] == o;
      RemovedAt(s, k);
    } else {
      RemovedAbsent(s, o.Id());
    }
  }

  /**
   * `addMapTile` never touches the base slot or the base tile on the map, and
   * never removes the boundary polygon.
   */
  lemma AddMapTileKeepsBaseSlot(s: Screen, urlTemplate: Option<string>)
    requires SlotsConsistent(s)
    ensures var r := AddMapTileSpec(s, urlTemplate);
      r.mapOverlay == s.mapOverlay
      && OfRole(r.overlays, BaseRole) == OfRole(s.overlays, BaseRole)
      && OfRole(r.overlays, BoundaryRole) == OfRole(s.overlays, BoundaryRole)
  {
    match urlTemplate
    case None =>
      RemoveCurrentOverlay(s);
    case Some(t) =>
      if s.currentOverlay.urlTemplate != Some(t) {
        RemoveCurrentOverlay(s);
        var ov := Removed(s.overlays, s.currentOverlay.id);
        var tile := Tile(TileOverlay(s.nextId, Some(t), false));
        OfRoleAppend(ov, tile, BaseRole);
        OfRoleAppend(ov, tile, BoundaryRole);
      }
  }

  /** `addMapTile` keeps the invariant. */
  lemma AddMapTilePreservesConsistency(s: Screen, urlTemplate: Option<string>)
    requires SlotsConsistent(s)
    ensures SlotsConsistent(AddMapTileSpec(s, urlTemplate))
  {
    AddMapTileKeepsBaseSlot(s, urlTemplate);
    match urlTemplate
    case None =>
      RemoveCurrentOverlay(s);
    case Some(t) =>
      if s.currentOverlay.urlTemplate != Some(t) {
        RemoveCurrentOverlay(s);
        var ov := Removed(s.overlays, s.currentOverlay.id);
        var tile := Tile(TileOverlay(s.nextId, Some(t), false));
        DistinctSnoc(ov, tile);
        OfRoleAppend(ov, tile, DataRole);
      }
  }

  /**
   * `replaceMap` never touches the data slot, the info view or the data tile on
   * the map, and never removes the boundary polygon.
   */
  lemma ReplaceMapKeepsDataSlot(s: Screen, urlTemplate: Option<string>)
    requires SlotsConsistent(s)
    ensures var r := ReplaceMapSpec(s, urlTemplate);
      r.currentOverlay == s.currentOverlay
      && r.infoHidden == s.infoHidden
      && OfRole(r.overlays, DataRole) == OfRole(s.overlays, DataRole)
      && OfRole(r.overlays, BoundaryRole) == OfRole(s.overlays, BoundaryRole)
  {
    match urlTemplate
    case None =>
      RemoveMapOverlay(s);
    case Some(t) =>
      if s.mapOverlay.urlTemplate != Some(t) {
        RemoveMapOverlay(s);
        var ov := Removed(s.overlays, s.mapOverlay.id);
        var tile := Tile(TileOverlay(s.nextId, Some(t), true));
        OfRolePrepend(tile, ov, DataRole);
        OfRolePrepend(tile, ov, BoundaryRole);
      }
  }

  /** `replaceMap` keeps the invariant. */
  lemma ReplaceMapPreservesConsistency(s: Screen, urlTemplate: Option<string>)
    requires SlotsConsistent(s)
    ensures SlotsConsistent(ReplaceMapSpec(s, urlTemplate))
  {
    ReplaceMapKeepsDataSlot(s, urlTemplate);
    match urlTemplate
    case None =>
      RemoveMapOverlay(s);
    case Some(t) =>
      if s.mapOverlay.urlTemplate != Some(t) {
        RemoveMapOverlay(s);
        var ov := Removed(s.overlays, s.mapOverlay.id);
        var tile := Tile(TileOverlay(s.nextId, Some(t), true));
        DistinctCons(tile, ov);
        OfRolePrepend(tile, ov, BaseRole);
      }
  }

  /** Every menu option keeps the invariant and the boundary polygon. */
  lemma SetOverlayPreservesConsistency(s: Screen, o: MapsOptions)
    requires SlotsConsistent(s)
    ensures SlotsConsistent(SetOverlaySpec(s, o))
    ensures OfRole(SetOverlaySpec(s, o).overlays, BoundaryRole) == OfRole(s.overlays, BoundaryRole)
  {
    match SelectionOf(o)
    case DataSlot(u) =>
      AddMapTilePreservesConsistency(s, u);
      AddMapTileKeepsBaseSlot(s, u);
    case BaseSlot(u) =>
      ReplaceMapPreservesConsistency(s, u);
      ReplaceMapKeepsDataSlot(s, u);
    case NoSlot =>
  }

  // ---------------------------------------------------------------------------
  // The effect of each operation

  /**
   * `addMapTile(nil)` takes the data overlay off the map (the rest keeps its
   * order) and leaves the data slot without a template; the base slot and the
   * info view are untouched.
   */
  lemma AddMapTileNil(s: Screen)
    requires SlotsConsistent(s)
    ensures var r := AddMapTileSpec(s, None);
      r.currentOverlay.urlTemplate == None
      && OfRole(r.overlays, DataRole) == []
      && WithoutOverlay(r.overlays, s.overlays, Tile(s.currentOverlay))
      && r.mapOverlay == s.mapOverlay
      && r.infoHidden == s.infoHidden
  {
    RemoveCurrentOverlay(s);
  }

  /** `addMapTile(t)` changes nothing exactly when the data slot already holds `t`. */
  lemma AddMapTileUnchangedIff(s: Screen, t: string)
    ensures AddMapTileSpec(s, Some(t)) == s <==> s.currentOverlay.urlTemplate == Some(t)
  {
  }

  /**
   * `addMapTile(t)` with a new template takes the old data overlay off the map,
   * appends exactly one fresh tile overlay with template `t` at the end, makes
   * it the data slot's overlay and hides the info view.
   */
  lemma AddMapTileSwitches(s: Screen, t: string)
    requires SlotsConsistent(s)
    requires s.currentOverlay.urlTemplate != Some(t)
    ensures var r := AddMapTileSpec(s, Some(t));
      var n := |r.overlays|;
      r.currentOverlay.urlTemplate == Some(t)
      && !r.currentOverlay.canReplaceMapContent
      && (forall o :: o in s.overlays ==> o.Id() != r.currentOverlay.id)
      && n > 0 && r.overlays[n - 1] == Tile(r.currentOverlay)
      && WithoutOverlay(r.overlays[..n - 1], s.overlays, Tile(s.currentOverlay))
      && OfRole(r.overlays, DataRole) == [Tile(r.currentOverlay)]
      && r.infoHidden
  {
    RemoveCurrentOverlay(s);
    AddMapTilePreservesConsistency(s, Some(t));
    var r := AddMapTileSpec(s, Some(t));
    assert r.overlays[..|r.overlays| - 1] == Removed(s.overlays, s.currentOverlay.id);
  }

  /**
   * `replaceMap(nil)` only takes the base overlay off the map and clears the
   * base slot.
   */
  lemma ReplaceMapNil(s: Screen)
    requires SlotsConsistent(s)
    ensures var r := ReplaceMapSpec(s, None);
      r.mapOverlay.urlTemplate == None
      && OfRole(r.overlays, BaseRole) == []
      && WithoutOverlay(r.overlays, s.overlays, Tile(s.mapOverlay))
      && r.currentOverlay == s.currentOverlay
      && r.infoHidden == s.infoHidden
  {
    RemoveMapOverlay(s);
  }

  /** `replaceMap(t)` changes nothing exactly when the base slot already holds `t`. */
  lemma ReplaceMapUnchangedIff(s: Screen, t: string)
    ensures ReplaceMapSpec(s, Some(t)) == s <==> s.mapOverlay.urlTemplate == Some(t)
  {
  }

  /**
   * `replaceMap(t)` with a new template takes the old base overlay off the map
   * and inserts one fresh overlay with template `t` and
   * `canReplaceMapContent` set at index 0.
   */
  lemma ReplaceMapSwitches(s: Screen, t: string)
    requires SlotsConsistent(s)
    requires s.mapOverlay.urlTemplate != Some(t)
    ensures var r := ReplaceMapSpec(s, Some(t));
      r.mapOverlay.urlTemplate == Some(t)
      && r.mapOverlay.canReplaceMapContent
      && (forall o :: o in s.overlays ==> o.Id() != r.mapOverlay.id)
      && |r.overlays| > 0 && r.overlays[0] == Tile(r.mapOverlay)
      && WithoutOverlay(r.overlays[1..], s.overlays, Tile(s.mapOverlay))
      && OfRole(r.overlays, BaseRole) == [Tile(r.mapOverlay)]
      && r.currentOverlay == s.currentOverlay
      && r.infoHidden == s.infoHidden
  {
    RemoveMapOverlay(s);
    ReplaceMapPreservesConsistency(s, Some(t));
    var r := ReplaceMapSpec(s, Some(t));
    assert r.overlays[1..] == Removed(s.overlays, s.mapOverlay.id);
  }

  // ---------------------------------------------------------------------------
  // setOverlay

  /**
   * The info view: visible after the temperature layer, hidden after switching
   * to another weather layer, and untouched by `NoneTile`, the base-map options
   * and `CitiesAnnotations`.
   */
  lemma SetOverlayInfoView(s: Screen, o: MapsOptions)
    ensures o == TemperatureTile ==> !SetOverlaySpec(s, o).infoHidden
    ensures o in {WindSpeedTile, PrecipitationTile, PressureTile}
            && s.currentOverlay.urlTemplate != SelectionOf(o).template
            ==> SetOverlaySpec(s, o).infoHidden
    ensures o !in {TemperatureTile, WindSpeedTile, PrecipitationTile, PressureTile}
            ==> SetOverlaySpec(s, o).infoHidden == s.infoHidden
  {
  }

  /** Each option changes one slot only. */
  lemma SetOverlayOneSlot(s: Screen, o: MapsOptions)
    requires SlotsConsistent(s)
    ensures var r := SetOverlaySpec(s, o);
      (SelectionOf(o).DataSlot? ==>
        r.mapOverlay == s.mapOverlay
        && OfRole(r.overlays, BaseRole) == OfRole(s.overlays, BaseRole))
      && (SelectionOf(o).BaseSlot? ==>
        r.currentOverlay == s.currentOverlay
        && r.infoHidden == s.infoHidden
        && OfRole(r.overlays, DataRole) == OfRole(s.overlays, DataRole))
      && (SelectionOf(o).NoSlot? ==> r == s)
  {
    match SelectionOf(o)
    case DataSlot(u) => AddMapTileKeepsBaseSlot(s, u);
    case BaseSlot(u) => ReplaceMapKeepsDataSlot(s, u);
    case NoSlot =>
  }

  /**
   * Applying an option twice looks the same as applying it once. For options
   * that install a template the state is even identical; `NoneTile` and
   * `DefaultMap` allocate a new empty `MKTileOverlay` each time, so there the
   * second call differs only in the identity of that off-map object.
   */
  lemma SetOverlayIdempotent(s: Screen, o: MapsOptions)
    requires SlotsConsistent(s)
    ensures Observe(SetOverlaySpec(SetOverlaySpec(s, o), o)) == Observe(SetOverlaySpec(s, o))
    ensures o !in {NoneTile, DefaultMap} ==> SetOverlaySpec(SetOverlaySpec(s, o), o) == SetOverlaySpec(s, o)
  {
    match SelectionOf(o)
    case DataSlot(u) => AddMapTileIdempotent(s, u);
    case BaseSlot(u) => ReplaceMapIdempotent(s, u);
    case NoSlot =>
  }

  lemma AddMapTileIdempotent(s: Screen, u: Option<string>)
    requires SlotsConsistent(s)
    ensures var once := AddMapTileSpec(s, u);
      Observe(AddMapTileSpec(once, u)) == Observe(once)
      && (u.Some? ==> AddMapTileSpec(once, u) == once)
  {
    var once := AddMapTileSpec(s, u);
    AddMapTilePreservesConsistency(s, u);
    if u.None? {
      RemovedAbsent(once.overlays, once.currentOverlay.id);
    }
  }

  lemma ReplaceMapIdempotent(s: Screen, u: Option<string>)
    requires SlotsConsistent(s)
    ensures var once := ReplaceMapSpec(s, u);
      Observe(ReplaceMapSpec(once, u)) == Observe(once)
      && (u.Some? ==> ReplaceMapSpec(once, u) == once)
  {
    var once := ReplaceMapSpec(s, u);
    ReplaceMapPreservesConsistency(s, u);
    if u.None? {
      RemovedAbsent(once.overlays, once.mapOverlay.id);
    }
  }

  /**
   * The info view is shown while the temperature layer is on and hidden while
   * another weather layer is on.
   */
  ghost predicate InfoMatchesLayer(s: Screen) {
    (s.currentOverlay.urlTemplate == Some(TemperatureUrlTemplate) ==> !s.infoHidden)
    && (s.currentOverlay.urlTemplate in {Some(WindSpeedUrlTemplate), Some(PrecipitationUrlTemplate), Some(PressureUrlTemplate)}
        ==> s.infoHidden)
  }

  /** Every menu option keeps the info view in step with the weather layer. */
  lemma SetOverlayKeepsInfoInStep(s: Screen, o: MapsOptions)
    requires InfoMatchesLayer(s)
    ensures InfoMatchesLayer(SetOverlaySpec(s, o))
  {
    TemplatesDistinct();
    assert UrlTemplates[0] == TemperatureUrlTemplate;
    assert UrlTemplates[1] == PrecipitationUrlTemplate;
    assert UrlTemplates[2] == WindSpeedUrlTemplate;
    assert UrlTemplates[3] == PressureUrlTemplate;
  }

  // ---------------------------------------------------------------------------
  // The view controller

  /** The overlay-related state of `ViewController` and the operations on it. */
  class ViewController {
    /** The `mapView` outlet. */
    const mapView: MapView
    var currentOverlay: TileOverlay
    var mapOverlay: TileOverlay
    /** `infoView.isHidden`. */
    var infoHidden: bool
    /** The identity the next allocated overlay object receives. */
    var nextId: nat

    function State(): Screen
      reads this, mapView
    {
      Screen(mapView.overlays, currentOverlay, mapOverlay, infoHidden, nextId)
    }

    ghost predicate Valid()
      reads this, mapView
    {
      SlotsConsistent(State())
    }

    /**
     * The stored-property initialisers: both slots hold an empty
     * `MKTileOverlay()`; the storyboard supplies an empty map view and the
     * info view's initial visibility.
     */
    constructor (infoInitiallyHidden: bool)
      ensures fresh(mapView)
      ensures State() == InitialScreen(infoInitiallyHidden)
      ensures Valid()
    {
      mapView := new MapView();
      currentOverlay := TileOverlay(0, None, false);
      mapOverlay := TileOverlay(1, None, false);
      infoHidden := infoInitiallyHidden;
      nextId := 2;
      InitialScreenConsistent(infoInitiallyHidden);
    }

    /** Allocates a new `MKTileOverlay`. */
    method NewTileOverlay(urlTemplate: Option<string>, canReplaceMapContent: bool) returns (t: TileOverlay)
      modifies this`nextId
      ensures t == TileOverlay(old(nextId), urlTemplate, canReplaceMapContent)
      ensures nextId == old(nextId) + 1
    {
      t := TileOverlay(nextId, urlTemplate, canReplaceMapContent);
      nextId := nextId + 1;
    }

    /** `addBoundry`: puts the boundary polygon on the map. */
    method AddBoundary()
      requires Valid()
      modifies this, mapView
      ensures Valid()
      ensures State() == AddBoundarySpec(old(State()))
    {
      ghost var s := State();
      var polygon := Polygon(nextId);
      nextId := nextId + 1;
      mapView.Add(polygon);
      assert State() == AddBoundarySpec(s);
      AddBoundaryPreservesConsistency(s);
    }

    /** `addMapTile(urlTemplate:)`: sets the data slot; `None` clears it. */
    method AddMapTile(urlTemplate: Option<string>)
      requires Valid()
      modifies this, mapView
      ensures Valid()
      ensures State() == AddMapTileSpec(old(State()), urlTemplate)
    {
      ghost var s := State();
      match urlTemplate {
        case None =>
          mapView.Remove(Tile(currentOverlay));
          currentOverlay := NewTileOverlay(None, false);
          assert State() == AddMapTileSpec(s, urlTemplate);
        case Some(t) =>
          if currentOverlay.urlTemplate != Some(t) {
            mapView.Remove(Tile(currentOverlay));
            currentOverlay := NewTileOverlay(Some(t), false);
            mapView.Add(Tile(currentOverlay));
            infoHidden := true;
            assert State() == AddMapTileSpec(s, urlTemplate);
          }
      }
      AddMapTilePreservesConsistency(s, urlTemplate);
    }

    /** `replaceMap(urlTemplate:)`: sets the base slot; `None` restores the default map. */
    method ReplaceMap(urlTemplate: Option<string>)
      requires Valid()
      modifies this, mapView
      ensures Valid()
      ensures State() == ReplaceMapSpec(old(State()), urlTemplate)
    {
      ghost var s := State();
      match urlTemplate {
        case None =>
          mapView.Remove(Tile(mapOverlay));
          mapOverlay := NewTileOverlay(None, false);
          assert State() == ReplaceMapSpec(s, urlTemplate);
        case Some(t) =>
          if mapOverlay.urlTemplate != Some(t) {
            mapView.Remove(Tile(mapOverlay));
            mapOverlay := NewTileOverlay(Some(t), true);
            ghost var rest := mapView.overlays;
            mapView.Insert(Tile(mapOverlay), 0);
            assert mapView.overlays == [Tile(mapOverlay)] + rest;
            assert State() == ReplaceMapSpec(s, urlTemplate);
          }
      }
      ReplaceMapPreservesConsistency(s, urlTemplate);
    }

    /** `setOverlay(option:)`: the menu switch. */
    method SetOverlay(option: MapsOptions)
      requires Valid()
      modifies this, mapView
      ensures Valid()
      ensures State() == SetOverlaySpec(old(State()), option)
    {
      ghost var s := State();
      match option {
        case NoneTile =>
          AddMapTile(None);
          assert State() == SetOverlaySpec(s, option);
        case TemperatureTile =>
          AddMapTile(Some(TemperatureUrlTemplate));
          infoHidden := false;
          assert State() == SetOverlaySpec(s, option);
        case WindSpeedTile =>
          AddMapTile(Some(WindSpeedUrlTemplate));
          assert State() == SetOverlaySpec(s, option);
        case PrecipitationTile =>
          AddMapTile(Some(PrecipitationUrlTemplate));
          assert State() == SetOverlaySpec(s, option);
        case PressureTile =>
          AddMapTile(Some(PressureUrlTemplate));
          assert State() == SetOverlaySpec(s, option);
        case OpenStreetMap =>
          ReplaceMap(Some(OpenStreetUrlTemplate));
          assert State() == SetOverlaySpec(s, option);
        case GoogleMap =>
          ReplaceMap(Some(GoogleMapUrlTemplate));
          assert State() == SetOverlaySpec(s, option);
        case DefaultMap =>
          ReplaceMap(None);
          assert State() == SetOverlaySpec(s, option);
        case _ =>
      }
    }
  }
}
