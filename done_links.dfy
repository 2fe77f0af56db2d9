/** The done-links plugin's state and event handlers: the highlight table,
    the disabled flag, and the handlers that clear, refill and prune the
    table as links arrive, shapes are drawn and the layer is toggled. */
module DoneLinks {
  import opened Geometry
  import opened HighlightSpec

  /** What the drawing tool reports: one new layer was created, or the
      drawn layers changed in some other way (edited, deleted, imported). */
  datatype DrawEvent = LayerCreated(layer: Layer) | LayersChanged

  /** The layer-kind test shared by `testLink` and
      `testAllLinksAgainstLayer`: a polygon is tested as a closed shape, a
      polyline as an open one, anything else does not match. */
  method TestLayer(link: Link, layer: Layer) returns (found: bool)
    ensures found <==> LayerMatches(link, layer)
  {
    match layer
    case Polygon(b) =>
      found := TestPolyLine(link.a0, link.a1, b, true);
    case Polyline(b) =>
      found := TestPolyLine(link.a0, link.a1, b, false);
    case Other =>
      found := false;
  }

  /** The plugin. `highlights` is the highlight table, one entry per
      highlighted link, keyed by its guid and holding the copy of the link
      that is drawn; `disabled` is set while the plugin's layer is hidden.
      Live links and drawn layers belong to the host and are passed in. */
  class DoneLinksPlugin {
    var disabled: bool
    var highlights: map<Guid, Link>

    /** While the layer is hidden nothing is highlighted. */
    ghost predicate Valid()
      reads this
    {
      disabled ==> highlights == map[]
    }

    /** `createLayer`: an empty table; disabled unless the layer is shown
        on the map from the start. */
    constructor (shown: bool)
      ensures Valid()
      ensures disabled == !shown && highlights == map[]
    {
      disabled := !shown;
      highlights := map[];
    }

    /** `showLink`: draw the highlight and record it under the link's guid. */
    method ShowLink(guid: Guid, link: Link)
      modifies this`highlights
      ensures highlights == old(highlights)[guid := link]
    {
      highlights := highlights[guid := link];
    }

    /** `testLink`: unless the link is already highlighted, highlight it
        when the first drawn layer that it lies along is found. */
    method TestLink(guid: Guid, link: Link, layers: seq<Layer>)
      modifies this`highlights
      ensures highlights == WithLink(old(highlights), guid, link, layers)
    {
      if guid in highlights {
        return;
      }
      var i := 0;
      while i < |layers|
        invariant 0 <= i <= |layers|
        invariant highlights == old(highlights)
        invariant forall j :: 0 <= j < i ==> !LayerMatches(link, layers[j])
      {
        var found := TestLayer(link, layers[i]);
        if found {
          ShowLink(guid, link);
          return;
        }
        i := i + 1;
      }
    }

    /** `onLinkAdded`: test a new live link against every drawn layer. */
    method OnLinkAdded(guid: Guid, link: Link, layers: seq<Layer>)
      requires Valid()
      modifies this`highlights
      ensures Valid()
      ensures highlights == if disabled then old(highlights) else WithLink(old(highlights), guid, link, layers)
    {
      if disabled {
        return;
      }
      TestLink(guid, link, layers);
    }

    /** `checkAllLinks`: empty the table, then test every live link. The
        table left behind does not depend on the one before, so a second
        recheck right after the first changes nothing. */
    method CheckAllLinks(links: map<Guid, Link>, layers: seq<Layer>)
      requires Valid()
      modifies this`highlights
      ensures Valid()
      ensures highlights == if disabled then old(highlights) else Matching(links, layers)
    {
      if disabled {
        return;
      }
      highlights := map[];
      var todo := links.Keys;
      while todo != {}
        invariant todo <= links.Keys
        invariant highlights == map g | g in links && g !in todo && AnyLayerMatches(links[g], layers) :: links[g]
        decreases todo
      {
        var g :| g in todo;
        TestLink(g, links[g], layers);
        todo := todo - {g};
      }
    }

    /** `testAllLinksAgainstLayer`: test every live link that is not yet
        highlighted against the one new layer only. */
    method TestAllLinksAgainstLayer(links: map<Guid, Link>, layer: Layer)
      requires Valid()
      modifies this`highlights
      ensures Valid()
      ensures highlights == if disabled then old(highlights) else WithLayer(old(highlights), links, layer)
      ensures forall g :: g in old(highlights) ==> g in highlights && highlights[g] == old(highlights)[g]
    {
      if disabled {
        return;
      }
      var todo := links.Keys;
      while todo != {}
        invariant todo <= links.Keys
        invariant forall g :: g in old(highlights) ==> g in highlights && highlights[g] == old(highlights)[g]
        invariant forall g :: g in highlights && g !in old(highlights) ==>
                    g in links && g !in todo && LayerMatches(links[g], layer) && highlights[g] == links[g]
        invariant forall g :: g in links && g !in todo && g !in old(highlights) && LayerMatches(links[g], layer) ==>
                    g in highlights
        decreases todo
      {
        var g :| g in todo;
        if g !in highlights {
          var found := TestLayer(links[g], layer);
          if found {
            ShowLink(g, links[g]);
          }
        }
        todo := todo - {g};
      }
      assert highlights.Keys == WithLayer(old(highlights), links, layer).Keys;
    }

    /** `testForDeletedLinks`: remove the highlight of every link that is
        no longer live. */
    method TestForDeletedLinks(links: map<Guid, Link>)
      requires Valid()
      modifies this`highlights
      ensures Valid()
      ensures highlights == Pruned(old(highlights), links)
    {
      var todo := highlights.Keys;
      while todo != {}
        invariant todo <= old(highlights).Keys
        invariant highlights == map g | g in old(highlights) && (g in todo || g in links) :: old(highlights)[g]
        decreases todo
      {
        var g :| g in todo;
        if g !in links {
          highlights := highlights - {g};
        }
        todo := todo - {g};
      }
    }

    /** `onMapDataRefreshEnd`: only prune; there is no recheck. */
    method OnMapDataRefreshEnd(links: map<Guid, Link>)
      requires Valid()
      modifies this`highlights
      ensures Valid()
      ensures highlights == if disabled then old(highlights) else Pruned(old(highlights), links)
    {
      if disabled {
        return;
      }
      TestForDeletedLinks(links);
    }

    /** The drawing tool's hook: a created layer is tested on its own;
        any other change rechecks everything. */
    method OnDrawToolsEvent(event: DrawEvent, links: map<Guid, Link>, layers: seq<Layer>)
      requires Valid()
      modifies this`highlights
      ensures Valid()
      ensures disabled ==> highlights == old(highlights)
      ensures !disabled && event.LayerCreated? ==> highlights == WithLayer(old(highlights), links, event.layer)
      ensures !disabled && event.LayersChanged? ==> highlights == Matching(links, layers)
    {
      match event
      case LayerCreated(layer) =>
        TestAllLinksAgainstLayer(links, layer);
      case LayersChanged =>
        CheckAllLinks(links, layers);
    }

    /** The layer was shown: enable, then recheck everything. */
    method OnLayerAdd(links: map<Guid, Link>, layers: seq<Layer>)
      requires Valid()
      modifies this
      ensures Valid()
      ensures !disabled && highlights == Matching(links, layers)
    {
      disabled := false;
      CheckAllLinks(links, layers);
    }

    /** The layer was hidden: disable and empty the table. */
    method OnLayerRemove()
      modifies this
      ensures Valid()
      ensures disabled && highlights == map[]
    {
      disabled := true;
      highlights := map[];
    }
  }
}
