/**
 * The part of MapKit the view controller relies on: overlay objects with an
 * identity, and a map view holding an ordered list of overlays that can be
 * appended to (`add`), inserted into (`insert(_:at:)`) and removed from
 * (`remove`). Object identity is modelled by a natural-number id.
 */
module MapKit {
  import opened Wrappers

  /** An `MKTileOverlay`: its identity, `urlTemplate` and `canReplaceMapContent`. */
  datatype TileOverlay = TileOverlay(id: nat, urlTemplate: Option<string>, canReplaceMapContent: bool)

  /** An `MKOverlay` on the map: a tile overlay or the boundary `MKPolygon`. */
  datatype Overlay = Tile(tile: TileOverlay) | Polygon(polygonId: nat) {
    function Id(): nat {
      match this
      case Tile(t) => t.id
      case Polygon(p) => p
    }
  }

  /**
   * What an overlay does on the map: the boundary polygon, an additive data
   * tile layer, or a tile layer that replaces the map content.
   */
  datatype Role = BoundaryRole | DataRole | BaseRole

  function RoleOf(o: Overlay): Role {
    match o
    case Polygon(_) => BoundaryRole
    case Tile(t) => if t.canReplaceMapContent then BaseRole else DataRole
  }

  /** The overlays of `s` that play role `r`, in map order. */
  function OfRole(s: seq<Overlay>, r: Role): (f: seq<Overlay>)
    ensures |f| <= |s|
    ensures forall o :: o in f <==> o in s && RoleOf(o) == r
  {
    if s == [] then []
    else if RoleOf(s[0]) == r then [s[0]] + OfRole(s[1..], r)
    else OfRole(s[1..], r)
  }

  /**
   * `MKMapView.remove`: the overlay list without the overlay whose identity is
   * `id`; nothing changes when no overlay has that identity.
   */
  function Removed(s: seq<Overlay>, id: nat): (t: seq<Overlay>)
    ensures |t| <= |s|
    ensures forall o :: o in t <==> o in s && o.Id() != id
  {
    if s == [] then []
    else if s[0].Id() == id then Removed(s[1..], id)
    else [s[0]] + Removed(s[1..], id)
  }

  /** No two overlays on the map are the same object. */
  ghost predicate IdsDistinct(s: seq<Overlay>) {
    forall i, j :: 0 <= i < j < |s| ==> s[i].Id() != s[j].Id()
  }

  /** Removing an overlay that is not on the map leaves the list as it was. */
  lemma {:induction false} RemovedAbsent(s: seq<Overlay>, id: nat)
    requires forall o :: o in s ==> o.Id() != id
    ensures Removed(s, id) == s
  {
    if s != [] {
      RemovedAbsent(s[1..], id);
      assert s == [s[0]] + s[1..];
    }
  }

  lemma DistinctTail(s: seq<Overlay>)
    requires IdsDistinct(s) && s != []
    ensures IdsDistinct(s[1..])
  {
    forall i, j | 0 <= i < j < |s[1..]| ensures s[1..][i].Id() != s[1..][j].Id() {
      assert s[1..][i] == s[i + 1] && s[1..][j] == s[j + 1];
    }
  }

  /** Removing from a list with a known first overlay. */
  lemma RemovedCons(x: Overlay, t: seq<Overlay>, id: nat)
    ensures Removed([x] + t, id) == (if x.Id() == id then [] else [x]) + Removed(t, id)
  {
    assert ([x] + t)[1..] == t;
  }

  /** Removing the first overlay of a list of distinct overlays leaves the rest. */
  lemma RemovedFirst(s: seq<Overlay>)
    requires IdsDistinct(s) && s != []
    ensures Removed(s, s[0].Id()) == s[1..]
  {
    var tail := s[1..];
    forall o | o in tail ensures o.Id() != s[0].Id() {
      var j :| 0 <= j < |tail| && tail[j] == o;
      assert s[j + 1] == o;
    }
    RemovedAbsent(tail, s[0].Id());
    assert s == [s[0]] + tail;
    RemovedCons(s[0], tail, s[0].Id());
  }

  lemma SplitAround<T>(s: seq<T>, k: nat)
    requires 0 < k < |s|
    ensures s[..k] + s[k + 1..] == [s[0]] + (s[1..][..k - 1] + s[1..][k..])
  {
    assert s[..k] == [s[0]] + s[1..][..k - 1];
    assert s[k + 1..] == s[1..][k..];
  }

  /** Removing the overlay at position `k` closes the gap and keeps the order of the rest. */
  lemma {:induction false} RemovedAt(s: seq<Overlay>, k: nat)
    requires IdsDistinct(s) && k < |s|
    ensures Removed(s, s[k].Id()) == s[..k] + s[k + 1..]
  {
    if k == 0 {
      RemovedFirst(s);
    } else {
      var tail := s[1..];
      DistinctTail(s);
      RemovedAt(tail, k - 1);
      assert tail[k - 1] == s[k];
      assert s == [s[0]] + tail;
      RemovedCons(s[0], tail, s[k].Id());
      SplitAround(s, k);
    }
  }

  /** Removing keeps the remaining overlays pairwise distinct. */
  lemma {:induction false} RemovedDistinct(s: seq<Overlay>, id: nat)
    requires IdsDistinct(s)
    ensures IdsDistinct(Removed(s, id))
  {
    if s != [] {
      DistinctTail(s);
      RemovedDistinct(s[1..], id);
      if s[0].Id() != id {
        var rest := Removed(s[1..], id);
        forall o | o in rest ensures o.Id() != s[0].Id() {
          var j :| 0 <= j < |s[1..]| && s[1..][j] == o;
          assert s[j + 1] == o;
        }
        DistinctCons(s[0], rest);
      }
    }
  }

  lemma DistinctCons(o: Overlay, s: seq<Overlay>)
    requires IdsDistinct(s)
    requires forall x :: x in s ==> x.Id() != o.Id()
    ensures IdsDistinct([o] + s)
  {
    forall i, j | 0 <= i < j < |[o] + s|
      ensures ([o] + s)[i].Id() != ([o] + s)[j].Id()
    {
      if i > 0 {
        assert ([o] + s)[i] == s[i - 1] && ([o] + s)[j] == s[j - 1];
      } else {
        assert ([o] + s)[j] in s;
      }
    }
  }

  lemma DistinctSnoc(s: seq<Overlay>, o: Overlay)
    requires IdsDistinct(s)
    requires forall x :: x in s ==> x.Id() != o.Id()
    ensures IdsDistinct(s + [o])
  {
    forall i, j | 0 <= i < j < |s + [o]|
      ensures (s + [o])[i].Id() != (s + [o])[j].Id()
    {
      assert (s + [o])[i] in s;
    }
  }

  /** Selecting a role and removing an overlay can be done in either order. */
  lemma {:induction false} RemovedOfRole(s: seq<Overlay>, id: nat, r: Role)
    ensures OfRole(Removed(s, id), r) == Removed(OfRole(s, r), id)
  {
    if s != [] {
      RemovedOfRole(s[1..], id, r);
      if s[0].Id() != id {
        assert ([s[0]] + Removed(s[1..], id))[1..] == Removed(s[1..], id);
      }
      if RoleOf(s[0]) == r {
        assert ([s[0]] + OfRole(s[1..], r))[1..] == OfRole(s[1..], r);
      }
    }
  }

  /** Inserting an overlay at index 0 puts it first in its role's list and leaves the others alone. */
  lemma OfRolePrepend(o: Overlay, s: seq<Overlay>, r: Role)
    ensures OfRole([o] + s, r) == (if RoleOf(o) == r then [o] else []) + OfRole(s, r)
  {
    assert ([o] + s)[1..] == s;
  }

  /** Appending an overlay extends its role's list at the end and leaves the others alone. */
  lemma {:induction false} OfRoleAppend(s: seq<Overlay>, o: Overlay, r: Role)
    ensures OfRole(s + [o], r) == OfRole(s, r) + (if RoleOf(o) == r then [o] else [])
  {
    if s == [] {
      OfRolePrepend(o, [], r);
      assert [o] + [] == [o] && s + [o] == [o];
    } else {
      var tail := s[1..];
      assert s == [s[0]] + tail;
      assert s + [o] == [s[0]] + (tail + [o]);
      OfRoleAppend(tail, o, r);
      OfRolePrepend(s[0], tail + [o], r);
      OfRolePrepend(s[0], tail, r);
    }
  }

  /** The map view: the ordered overlay list of `MKMapView`. */
  class MapView {
    var overlays: seq<Overlay>

    constructor ()
      ensures overlays == []
    {
      overlays := [];
    }

    /** `add(_:)`: draws the overlay above all others. */
    method Add(o: Overlay)
      modifies this
      ensures overlays == old(overlays) + [o]
    {
      overlays := overlays + [o];
    }

    /** `insert(_:at:)`: draws the overlay at position `index` of the list. */
    method Insert(o: Overlay, index: nat)
      requires index <= |overlays|
      modifies this
      ensures overlays == old(overlays)[..index] + [o] + old(overlays)[index..]
    {
      overlays := overlays[..index] + [o] + overlays[index..];
    }

    /** `remove(_:)`: takes the overlay off the map, if it is there. */
    method Remove(o: Overlay)
      modifies this
      ensures overlays == Removed(old(overlays), o.Id())
    {
      overlays := Removed(overlays, o.Id());
    }
  }
}
