/**
 * The constant tables of WeatherApp/Interfaces.swift: the six tile URL
 * templates and the `MapsOptions` menu enumeration with its raw values and
 * `allValues` list.
 */
module Interfaces {
  import opened Wrappers

  /** The tile-coordinate path shared by the four weather templates. */
  const OwmTilePath: string := "/{z}/{x}/{y}"
  /** The query string (access hash) shared by the four weather templates. */
  const OwmHashQuery: string := "?hash=ba22ef4840c7fcb08a7a7b92bf80d1fc"
  /** The tile-coordinate query shared by the two base-map templates. */
  const GoogleTileQuery: string := "&x={x}&y={y}&z={z}"

  /** A weather-layer template: `http://<host>:8099/<layer>/{z}/{x}/{y}?hash=...`. */
  function OwmTileUrl(host: string, layer: string): string {
    "http://" + host + ":8099/" + layer + OwmTilePath + OwmHashQuery
  }

  /** A base-map template: `http://mt.google.com/vt/lyrs=<lyrs>&x={x}&y={y}&z={z}`. */
  function GoogleTileUrl(lyrs: string): string {
    "http://mt.google.com/vt/lyrs=" + lyrs + GoogleTileQuery
  }

  // Tile URL templates of the four weather layers (additive data overlays),
  // assembled from their common parts; each equals the literal in Interfaces.swift.
  const TemperatureUrlTemplate: string := OwmTileUrl("maps.owm.io", "5735d67f5836286b007625cd")
  const PrecipitationUrlTemplate: string := OwmTileUrl("f.maps.owm.io", "57456d1237fb4e01009cbb17")
  const WindSpeedUrlTemplate: string := OwmTileUrl("a.maps.owm.io", "5735d67f5836286b0076267b")
  const PressureUrlTemplate: string := OwmTileUrl("a.maps.owm.io", "5837ee50f77ebe01008ef68d")
  // Tile URL templates of the two replacement base maps.
  const OpenStreetUrlTemplate: string := GoogleTileUrl("m&p")
  const GoogleMapUrlTemplate: string := GoogleTileUrl("t")

  /** The six templates, in declaration order. */
  const UrlTemplates: seq<string> := [
    TemperatureUrlTemplate, PrecipitationUrlTemplate, WindSpeedUrlTemplate,
    PressureUrlTemplate, OpenStreetUrlTemplate, GoogleMapUrlTemplate
  ]

  /** `sub` occurs in `s` starting at index `i`. */
  ghost predicate OccursAt(s: string, sub: string, i: nat) {
    i + |sub| <= |s| && s[i..i + |sub|] == sub
  }

  ghost predicate Contains(s: string, sub: string) {
    exists i: nat :: OccursAt(s, sub, i)
  }

  ghost predicate HasTilePlaceholders(t: string) {
    Contains(t, "{z}") && Contains(t, "{x}") && Contains(t, "{y}")
  }

  /** Every template names the tile coordinates it is filled in with. */
  lemma TemplatesHavePlaceholders()
    ensures forall i :: 0 <= i < |UrlTemplates| ==> HasTilePlaceholders(UrlTemplates[i])
  {
    OwmTileUrlHasPlaceholders("maps.owm.io", "5735d67f5836286b007625cd");
    OwmTileUrlHasPlaceholders("f.maps.owm.io", "57456d1237fb4e01009cbb17");
    OwmTileUrlHasPlaceholders("a.maps.owm.io", "5735d67f5836286b0076267b");
    OwmTileUrlHasPlaceholders("a.maps.owm.io", "5837ee50f77ebe01008ef68d");
    GoogleTileUrlHasPlaceholders("m&p");
    GoogleTileUrlHasPlaceholders("t");
  }

  lemma OwmTileUrlHasPlaceholders(host: string, layer: string)
    ensures HasTilePlaceholders(OwmTileUrl(host, layer))
  {
    var head := "http://" + host + ":8099/" + layer;
    OwmTilePathPlaceholders();
    OccursInMiddle(head, OwmTilePath, "{z}", 1);
    OccursInMiddle(head, OwmTilePath, "{x}", 5);
    OccursInMiddle(head, OwmTilePath, "{y}", 9);
    assert OwmTileUrl(host, layer) == (head + OwmTilePath) + OwmHashQuery;
    OccursBefore(head + OwmTilePath, OwmHashQuery, "{z}", |head| + 1);
    OccursBefore(head + OwmTilePath, OwmHashQuery, "{x}", |head| + 5);
    OccursBefore(head + OwmTilePath, OwmHashQuery, "{y}", |head| + 9);
  }

  lemma OwmTilePathPlaceholders()
    ensures OccursAt(OwmTilePath, "{z}", 1) && OccursAt(OwmTilePath, "{x}", 5) && OccursAt(OwmTilePath, "{y}", 9)
  {
    assert OwmTilePath[1] == '{' && OwmTilePath[2] == 'z' && OwmTilePath[3] == '}';
    assert OwmTilePath[5] == '{' && OwmTilePath[6] == 'x' && OwmTilePath[7] == '}';
    assert OwmTilePath[9] == '{' && OwmTilePath[10] == 'y' && OwmTilePath[11] == '}';
    OccursAtByChars(OwmTilePath, "{z}", 1);
    OccursAtByChars(OwmTilePath, "{x}", 5);
    OccursAtByChars(OwmTilePath, "{y}", 9);
  }

  lemma GoogleTileUrlHasPlaceholders(lyrs: string)
    ensures HasTilePlaceholders(GoogleTileUrl(lyrs))
  {
    var head := "http://mt.google.com/vt/lyrs=" + lyrs;
    assert GoogleTileQuery[3] == '{' && GoogleTileQuery[4] == 'x' && GoogleTileQuery[5] == '}';
    assert GoogleTileQuery[9] == '{' && GoogleTileQuery[10] == 'y' && GoogleTileQuery[11] == '}';
    assert GoogleTileQuery[15] == '{' && GoogleTileQuery[16] == 'z' && GoogleTileQuery[17] == '}';
    OccursAtByChars(GoogleTileQuery, "{x}", 3);
    OccursAtByChars(GoogleTileQuery, "{y}", 9);
    OccursAtByChars(GoogleTileQuery, "{z}", 15);
    OccursInMiddle(head, GoogleTileQuery, "{x}", 3);
    OccursInMiddle(head, GoogleTileQuery, "{y}", 9);
    OccursInMiddle(head, GoogleTileQuery, "{z}", 15);
  }

  /** `sub` occurs at `i` when its characters match one by one. */
  lemma OccursAtByChars(s: string, sub: string, i: nat)
    requires i + |sub| <= |s|
    requires forall k :: 0 <= k < |sub| ==> s[i + k] == sub[k]
    ensures OccursAt(s, sub, i)
  {
    forall k | 0 <= k < |sub| ensures s[i..i + |sub|][k] == sub[k] {
    }
  }

  /** An occurrence in `tail` is an occurrence in `head + tail`, shifted by `|head|`. */
  lemma OccursInMiddle(head: string, tail: string, sub: string, i: nat)
    requires OccursAt(tail, sub, i)
    ensures OccursAt(head + tail, sub, |head| + i)
  {
    assert (head + tail)[|head| + i..|head| + i + |sub|] == tail[i..i + |sub|];
  }

  /** An occurrence in `head` is an occurrence in `head + tail`. */
  lemma OccursBefore(head: string, tail: string, sub: string, i: nat)
    requires OccursAt(head, sub, i)
    ensures OccursAt(head + tail, sub, i)
  {
    assert (head + tail)[i..i + |sub|] == head[i..i + |sub|];
  }

  /**
   * The six templates are pairwise different, so comparing the template in a
   * slot with the requested one identifies the menu option unambiguously.
   */
  lemma TemplatesDistinct()
    ensures forall i, j :: 0 <= i < j < |UrlTemplates| ==> UrlTemplates[i] != UrlTemplates[j]
  {
    // Same length: precipitation, wind speed and pressure. The first two
    // differ in the sub-domain letter, the last two inside the layer id.
    assert PrecipitationUrlTemplate[7] == 'f' && WindSpeedUrlTemplate[7] == 'a';
    assert PressureUrlTemplate[7] == 'a';
    assert WindSpeedUrlTemplate[27] == '7' && PressureUrlTemplate[27] == '8';
    assert OpenStreetUrlTemplate[30] == '&' && GoogleMapUrlTemplate[30] == '&';
  }

  /**
   * The four weather templates end in the same `?hash=` query and differ only
   * in the part before it (host and layer path).
   */
  lemma WeatherTemplatesShareHash()
    ensures forall i :: 0 <= i < 4 ==>
      |OwmHashQuery| <= |UrlTemplates[i]|
      && UrlTemplates[i][|UrlTemplates[i]| - |OwmHashQuery|..] == OwmHashQuery
    ensures forall i, j :: 0 <= i < j < 4 ==>
      UrlTemplates[i][..|UrlTemplates[i]| - |OwmHashQuery|]
        != UrlTemplates[j][..|UrlTemplates[j]| - |OwmHashQuery|]
  {
    TemplatesDistinct();
    forall i | 0 <= i < 4
      ensures |OwmHashQuery| <= |UrlTemplates[i]|
      ensures UrlTemplates[i] == UrlTemplates[i][..|UrlTemplates[i]| - |OwmHashQuery|] + OwmHashQuery
    {
      var t := UrlTemplates[i];
      var head := t[..|t| - |OwmHashQuery|];
      assert t[|t| - |OwmHashQuery|..] == OwmHashQuery;
      assert t == head + t[|t| - |OwmHashQuery|..];
    }
  }

  /** The menu choices, in declaration order. */
  datatype MapsOptions =
    | DefaultMap
    | GoogleMap
    | OpenStreetMap
    | NoneTile
    | TemperatureTile
    | WindSpeedTile
    | PrecipitationTile
    | PressureTile
    | CitiesAnnotations

  /** Position of a case in the declaration. */
  function Ordinal(o: MapsOptions): nat {
    match o
    case DefaultMap => 0
    case GoogleMap => 1
    case OpenStreetMap => 2
    case NoneTile => 3
    case TemperatureTile => 4
    case WindSpeedTile => 5
    case PrecipitationTile => 6
    case PressureTile => 7
    case CitiesAnnotations => 8
  }

  /** The enum's `rawValue`: the label shown in the menu. */
  function RawValue(o: MapsOptions): string {
    match o
    case DefaultMap => "Default"
    case GoogleMap => "Google terrain map"
    case OpenStreetMap => "Terrain map"
    case NoneTile => "None"
    case TemperatureTile => "Temperature"
    case WindSpeedTile => "Wind speed"
    case PrecipitationTile => "Precipitation"
    case PressureTile => "Pressure"
    case CitiesAnnotations => "Cities Annotations"
  }

  /** The failable initialiser `MapsOptions(rawValue:)`. */
  function FromRawValue(s: string): (r: Option<MapsOptions>)
    ensures r.Some? ==> RawValue(r.value) == s
    ensures r.None? <==> forall o :: RawValue(o) != s
  {
    if s == "Default" then Some(DefaultMap)
    else if s == "Google terrain map" then Some(GoogleMap)
    else if s == "Terrain map" then Some(OpenStreetMap)
    else if s == "None" then Some(NoneTile)
    else if s == "Temperature" then Some(TemperatureTile)
    else if s == "Wind speed" then Some(WindSpeedTile)
    else if s == "Precipitation" then Some(PrecipitationTile)
    else if s == "Pressure" then Some(PressureTile)
    else if s == "Cities Annotations" then Some(CitiesAnnotations)
    else None
  }

  /** Raw values are pairwise distinct, so every case survives a round trip. */
  lemma RawValueRoundTrip(o: MapsOptions)
    ensures FromRawValue(RawValue(o)) == Some(o)
    ensures forall p :: p != o ==> RawValue(p) != RawValue(o)
  {
    match o
    case OpenStreetMap =>
      assert RawValue(o)[2] != "Temperature"[2];
    case CitiesAnnotations =>
      assert RawValue(o)[0] != "Google terrain map"[0];
    case TemperatureTile =>
      assert RawValue(o)[2] != "Terrain map"[2];
    case GoogleMap =>
      assert RawValue(o)[0] != "Cities Annotations"[0];
    case _ =>
  }

  /** The static `allValues` list of the menu. */
  const AllValues: seq<MapsOptions> := [
    DefaultMap, GoogleMap, OpenStreetMap, TemperatureTile,
    WindSpeedTile, PrecipitationTile, PressureTile, CitiesAnnotations
  ]

  /** `allValues` lists every case except `NoneTile`, once each, in declaration order. */
  lemma AllValuesComplete()
    ensures |AllValues| == 8
    ensures forall o :: o in AllValues <==> o != NoneTile
    ensures forall i, j :: 0 <= i < j < |AllValues| ==> Ordinal(AllValues[i]) < Ordinal(AllValues[j])
  {
  }
}
