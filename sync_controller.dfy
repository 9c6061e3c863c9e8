/** The zoom-synchronisation controller: the page's module-level state (the
    mode flag, the two re-entrancy guards, the last active map) together with
    the three map panels, and the handlers that change them.

    Each panel is its zoom and its centre; the renderer's own reactions to a
    zoom change (animation, clamping, the events it fires back) are not part
    of the model, so a handler runs only when the page's user or timer runs
    it. Each `setTimeout` callback is a method of its own that the event loop
    may run once for each time it was scheduled; the pending counters record
    how many are scheduled. */
module SyncControl {
  import opened Optional
  import opened UrlCodec
  import opened Airports

  /** Panel slot 0, 1, 2 is `map1`, `map2`, `map3`. */
  type Slot = i: int | 0 <= i < 3

  /** The zoom `teleportToAirport` sets. */
  const TeleportZoom := 12

  /** The panels a zoom event on `source` propagates to: the other two, except
      that `map3` is left out in two-map mode. */
  function ZoomTargets(source: Slot, threeMaps: bool): (ts: set<Slot>)
    ensures source !in ts
    ensures forall t: Slot :: t != source && (t != 2 || threeMaps) ==> t in ts
    ensures !threeMaps ==> 2 !in ts
  {
    match source
    case 0 => if threeMaps then {1, 2} else {1}
    case 1 => if threeMaps then {0, 2} else {0}
    case 2 => {0, 1}
  }

  class SyncController {
    /** `isThreeMapsMode`. */
    var threeMaps: bool
    /** `isSynchronizing`. */
    var isSynchronizing: bool
    /** `isUpdatingUrl`. */
    var isUpdatingUrl: bool
    /** `lastActiveMap`. */
    var lastActive: Slot
    /** Each panel's zoom. */
    const zooms: array<int>
    /** Each panel's centre. */
    const centers: array<Coord>
    /** The page URL's query, as `replaceState` last left it. */
    var query: Query
    /** How a coordinate is written into the URL (`toFixed(6)`). */
    const fmt: real -> string
    /** Scheduled callbacks not yet run: releases of each guard, and the
        deferred settle steps after startup and after a mode toggle. */
    var pendingSyncReleases: nat
    var pendingUrlReleases: nat
    var pendingSettles: nat

    /** Three panels, and neither guard is ever left set without a release
        of it pending. */
    ghost predicate Valid()
      reads this
    {
      zooms.Length == 3 && centers.Length == 3 &&
      (isSynchronizing ==> pendingSyncReleases > 0) &&
      (isUpdatingUrl ==> pendingUrlReleases > 0)
    }

    /** The state `updateUrlWithMapState` reads. */
    function CurrentView(): ViewState
      reads this, zooms, centers
      requires Valid()
    {
      ViewState(zooms[0], threeMaps, centers[0], centers[1], centers[2])
    }

    /** Every active panel is at map1's zoom. */
    predicate Synced()
      reads this, zooms
      requires Valid()
    {
      zooms[1] == zooms[0] && (threeMaps ==> zooms[2] == zooms[0])
    }

    /** `initMaps`: the URL's parameters give the mode, one zoom for all three
        panels and each panel's centre; map1 is the active map; the deferred
        startup step is scheduled. */
    constructor (q: Query, num: string -> Option<real>, fmt: real -> string)
      ensures Valid() && fresh(zooms) && fresh(centers)
      ensures var p := GetUrlParams(q, num);
        && threeMaps == IsThreeMaps(p)
        && zooms[..] == [p.zoom, p.zoom, p.zoom]
        && centers[..] == [p.center1, p.center2, p.center3]
      ensures !isSynchronizing && !isUpdatingUrl && lastActive == 0
      ensures query == q && this.fmt == fmt
      ensures pendingSyncReleases == 0 && pendingUrlReleases == 0 && pendingSettles == 1
    {
      var p := GetUrlParams(q, num);
      threeMaps := IsThreeMaps(p);
      var zs := new int[3];
      zs[0], zs[1], zs[2] := p.zoom, p.zoom, p.zoom;
      var cs := new Coord[3];
      cs[0], cs[1], cs[2] := p.center1, p.center2, p.center3;
      assert zs[..] == [p.zoom, p.zoom, p.zoom] && cs[..] == [p.center1, p.center2, p.center3];
      zooms, centers := zs, cs;
      isSynchronizing, isUpdatingUrl := false, false;
      lastActive := 0;
      query := q;
      this.fmt := fmt;
      pendingSyncReleases, pendingUrlReleases, pendingSettles := 0, 0, 1;
    }

    /** `updateUrlWithMapState`: a no-op while the URL guard is set; otherwise
        the URL's query becomes the serialised current view, the guard is set
        and its release scheduled. */
    method UpdateUrlWithMapState()
      requires Valid()
      modifies this`isUpdatingUrl, this`pendingUrlReleases, this`query
      ensures Valid() && isUpdatingUrl
      ensures query == if old(isUpdatingUrl) then old(query) else Serialize(CurrentView(), fmt)
      ensures pendingUrlReleases == old(pendingUrlReleases) + if old(isUpdatingUrl) then 0 else 1
    {
      if isUpdatingUrl {
        return;
      }
      isUpdatingUrl := true;
      var view := ViewState(zooms[0], threeMaps, centers[0], centers[1], centers[2]);
      query := Serialize(view, fmt);
      pendingUrlReleases := pendingUrlReleases + 1;
    }

    /** The timer that ends a URL write's guard window. */
    method ReleaseUrlGuard()
      requires Valid() && pendingUrlReleases > 0
      modifies this`isUpdatingUrl, this`pendingUrlReleases
      ensures Valid() && !isUpdatingUrl
      ensures pendingUrlReleases == old(pendingUrlReleases) - 1
    {
      isUpdatingUrl := false;
      pendingUrlReleases := pendingUrlReleases - 1;
    }

    /** `synchronizeZoomLevels`: a no-op while the sync guard is set;
        otherwise map2, and map3 in three-map mode, are set to map1's zoom,
        map1 (and an inactive map3) keep theirs, and the guard is set with its
        release scheduled. */
    method SynchronizeZoomLevels()
      requires Valid()
      modifies this`isSynchronizing, this`pendingSyncReleases, zooms
      ensures Valid() && isSynchronizing
      ensures old(isSynchronizing) ==> zooms[..] == old(zooms[..]) && pendingSyncReleases == old(pendingSyncReleases)
      ensures !old(isSynchronizing) ==> Synced() && pendingSyncReleases == old(pendingSyncReleases) + 1
      ensures zooms[0] == old(zooms[0]) && (!threeMaps ==> zooms[2] == old(zooms[2]))
    {
      if isSynchronizing {
        return;
      }
      isSynchronizing := true;
      var currentZoom := zooms[0];
      if zooms[1] != currentZoom {
        zooms[1] := currentZoom;
      }
      if threeMaps && zooms[2] != currentZoom {
        zooms[2] := currentZoom;
      }
      pendingSyncReleases := pendingSyncReleases + 1;
    }

    /** The timer that ends a synchronisation pass's guard window. */
    method ReleaseSyncGuard()
      requires Valid() && pendingSyncReleases > 0
      modifies this`isSynchronizing, this`pendingSyncReleases
      ensures Valid() && !isSynchronizing
      ensures pendingSyncReleases == old(pendingSyncReleases) - 1
    {
      isSynchronizing := false;
      pendingSyncReleases := pendingSyncReleases - 1;
    }

    /** The `"zoom"` listener of panel `source`. It does nothing while the
        sync guard is set, nor for map3 in two-map mode. Otherwise each target
        panel takes the source's zoom, every other panel keeps its own, and the
        URL is written. The sync guard is only read, never set. */
    method HandleZoomEvent(source: Slot)
      requires Valid()
      modifies this`isUpdatingUrl, this`pendingUrlReleases, this`query, zooms
      ensures Valid() && isSynchronizing == old(isSynchronizing)
      ensures old(isSynchronizing) || (source == 2 && !threeMaps) ==>
        zooms[..] == old(zooms[..]) && query == old(query) &&
        isUpdatingUrl == old(isUpdatingUrl) && pendingUrlReleases == old(pendingUrlReleases)
      ensures !(old(isSynchronizing) || (source == 2 && !threeMaps)) ==>
        && (forall t: Slot :: zooms[t] == if t in ZoomTargets(source, threeMaps) then old(zooms[source]) else old(zooms[t]))
        && Synced()
        && isUpdatingUrl
        && query == (if old(isUpdatingUrl) then old(query) else Serialize(CurrentView(), fmt))
        && pendingUrlReleases == old(pendingUrlReleases) + (if old(isUpdatingUrl) then 0 else 1)
    {
      if source == 2 && !threeMaps {
        return;
      }
      if isSynchronizing {
        return;
      }
      var targets := ZoomTargets(source, threeMaps);
      var newZoom := zooms[source];
      for t := 0 to 3
        modifies zooms
        invariant forall u: Slot :: zooms[u] == if u < t && u in targets then newZoom else old(zooms[u])
      {
        if t in targets && zooms[t] != newZoom {
          zooms[t] := newZoom;
        }
      }
      UpdateUrlWithMapState();
    }

    /** The `"moveend"` listener of panel `p`. Ignored for map3 in two-map
        mode; otherwise, unless the sync guard is set, a synchronisation pass
        runs and the URL is written. */
    method HandleMoveEvent(p: Slot)
      requires Valid()
      modifies this`isSynchronizing, this`pendingSyncReleases, zooms,
               this`isUpdatingUrl, this`pendingUrlReleases, this`query
      ensures Valid()
      ensures old(isSynchronizing) || (p == 2 && !threeMaps) ==>
        zooms[..] == old(zooms[..]) && query == old(query) &&
        isSynchronizing == old(isSynchronizing) && pendingSyncReleases == old(pendingSyncReleases) &&
        isUpdatingUrl == old(isUpdatingUrl) && pendingUrlReleases == old(pendingUrlReleases)
      ensures !(old(isSynchronizing) || (p == 2 && !threeMaps)) ==>
        && Synced() && zooms[0] == old(zooms[0]) && (!threeMaps ==> zooms[2] == old(zooms[2]))
        && isSynchronizing && pendingSyncReleases == old(pendingSyncReleases) + 1
        && isUpdatingUrl
        && query == (if old(isUpdatingUrl) then old(query) else Serialize(CurrentView(), fmt))
        && pendingUrlReleases == old(pendingUrlReleases) + (if old(isUpdatingUrl) then 0 else 1)
    {
      if p == 2 && !threeMaps {
        return;
      }
      if !isSynchronizing {
        SynchronizeZoomLevels();
        UpdateUrlWithMapState();
      }
    }

    /** `updateZoomOnAllMaps(delta)`, the +/- buttons (`delta` is 1 or -1):
        map1, map2 and, in three-map mode, map3 all go to map1's zoom plus
        `delta`, without consulting either guard and without writing the URL. */
    method UpdateZoomOnAllMaps(delta: int)
      requires Valid()
      modifies zooms
      ensures Valid() && Synced()
      ensures zooms[0] == old(zooms[0]) + delta
      ensures zooms[2] == if threeMaps then old(zooms[0]) + delta else old(zooms[2])
    {
      var newZoom := zooms[0] + delta;
      zooms[0] := newZoom;
      zooms[1] := newZoom;
      if threeMaps {
        zooms[2] := newZoom;
      }
    }

    /** The mode toggle's click handler: the mode flips and the deferred
        settle step is scheduled; nothing else changes yet. */
    method ToggleMode()
      requires Valid()
      modifies this`threeMaps, this`pendingSettles
      ensures Valid()
      ensures threeMaps == !old(threeMaps)
      ensures pendingSettles == old(pendingSettles) + 1
    {
      threeMaps := !threeMaps;
      pendingSettles := pendingSettles + 1;
    }

    /** The deferred step scheduled at startup and by each mode toggle: the
        sync guard is forced clear, so the synchronisation pass always runs
        and leaves every active panel at map1's zoom; then the URL is written
        (unless its guard is set). */
    method Settle()
      requires Valid() && pendingSettles > 0
      modifies this`pendingSettles, this`isSynchronizing, this`pendingSyncReleases, zooms,
               this`isUpdatingUrl, this`pendingUrlReleases, this`query
      ensures Valid() && Synced()
      ensures zooms[0] == old(zooms[0]) && (!threeMaps ==> zooms[2] == old(zooms[2]))
      ensures pendingSettles == old(pendingSettles) - 1
      ensures isSynchronizing && pendingSyncReleases == old(pendingSyncReleases) + 1
      ensures isUpdatingUrl
      ensures query == if old(isUpdatingUrl) then old(query) else Serialize(CurrentView(), fmt)
      ensures pendingUrlReleases == old(pendingUrlReleases) + if old(isUpdatingUrl) then 0 else 1
    {
      pendingSettles := pendingSettles - 1;
      isSynchronizing := false;
      SynchronizeZoomLevels();
      UpdateUrlWithMapState();
    }

    /** `updateActiveMap(p)`: a click, drag or zoom on panel `p`. */
    method UpdateActiveMap(p: Slot)
      requires Valid()
      modifies this`lastActive
      ensures Valid() && lastActive == p
    {
      lastActive := p;
    }

    /** `teleportToAirport`: only the last active panel moves, to the
        airport's coordinates at zoom 12; then the URL is written. */
    method TeleportToAirport(a: Airport)
      requires Valid()
      modifies zooms, centers, this`isUpdatingUrl, this`pendingUrlReleases, this`query
      ensures Valid()
      ensures forall t: Slot :: zooms[t] == if t == lastActive then TeleportZoom else old(zooms[t])
      ensures forall t: Slot :: centers[t] == if t == lastActive then Coord(a.lat, a.lon) else old(centers[t])
      ensures isUpdatingUrl
      ensures query == if old(isUpdatingUrl) then old(query) else Serialize(CurrentView(), fmt)
      ensures pendingUrlReleases == old(pendingUrlReleases) + if old(isUpdatingUrl) then 0 else 1
    {
      var target := lastActive;
      centers[target] := Coord(a.lat, a.lon);
      zooms[target] := TeleportZoom;
      UpdateUrlWithMapState();
    }
  }

  /** A two-map link without `center3` is opened and its startup step and
      the guard releases run: the page rests in two-map mode with both guards
      clear, map3 at the Barcelona default and no deferred step pending. */
  method OpenTwoMapLink(q: Query, num: string -> Option<real>, fmt: real -> string)
    returns (c: SyncController)
    requires !IsThreeMaps(GetUrlParams(q, num)) && Get(q, "center3").None?
    ensures fresh(c) && fresh(c.zooms) && c.Valid() && c.fmt == fmt
    ensures !c.threeMaps && !c.isSynchronizing && !c.isUpdatingUrl && c.Synced()
    ensures c.centers[2] == Barcelona && c.pendingSettles == 0
  {
    GetUrlParamsFallbacks(q, num);
    c := new SyncController(q, num, fmt);
    c.Settle();
    c.ReleaseSyncGuard();
    c.ReleaseUrlGuard();
  }

  /** After opening such a link, the mode is switched: once the toggle's
      deferred step has run, map3 is active at map1's zoom, shows the
      Barcelona default, and the URL says three maps. */
  method OpenThenShowThreeMaps(q: Query, num: string -> Option<real>, fmt: real -> string)
    returns (c: SyncController)
    requires !IsThreeMaps(GetUrlParams(q, num)) && Get(q, "center3").None?
    ensures c.Valid() && c.threeMaps && c.Synced() && c.zooms[2] == c.zooms[0]
    ensures c.centers[2] == Barcelona
    ensures IsThreeMaps(GetUrlParams(c.query, num))
  {
    c := OpenTwoMapLink(q, num, fmt);
    c.ToggleMode();
    c.Settle();
    SerializedMode(c.CurrentView(), fmt, num);
  }
}
