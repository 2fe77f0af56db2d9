/** What the done-links highlight table should hold: the live links, the
    drawn layers, and the table each handler of the plugin leaves behind,
    stated as functions of its inputs. */
module HighlightSpec {
  import opened Geometry

  /** A link's guid, its key in the table of live links. */
  type Guid = string

  /** The team index of a link; it only picks the highlight's colour. */
  type Team = nat

  /** A live link: its two end points and its team. Its guid is its key in
      the map of live links. A highlight is a copy of the link it marks. */
  datatype Link = Link(a0: Point, a1: Point, team: Team)

  /** A layer of the drawing tool. A polygon is tested before a polyline,
      so a polygon is always matched as a closed shape; any other layer
      (a marker, a circle) never matches. */
  datatype Layer = Polygon(points: seq<Point>) | Polyline(points: seq<Point>) | Other

  /** The link lies along one edge of the layer. */
  predicate LayerMatches(link: Link, layer: Layer)
  {
    match layer
    case Polygon(b) => ShapeMatches(link.a0, link.a1, b, true)
    case Polyline(b) => ShapeMatches(link.a0, link.a1, b, false)
    case Other => false
  }

  /** The link lies along an edge of some drawn layer. */
  predicate AnyLayerMatches(link: Link, layers: seq<Layer>)
  {
    exists j :: 0 <= j < |layers| && LayerMatches(link, layers[j])
  }

  /** The table a full recheck builds: every live link that matches some
      drawn layer, and nothing else. */
  function Matching(links: map<Guid, Link>, layers: seq<Layer>): map<Guid, Link>
  {
    map g | g in links && AnyLayerMatches(links[g], layers) :: links[g]
  }

  /** The table after the link `g` is tested against every drawn layer: an
      entry already present is kept as it is. */
  function WithLink(h: map<Guid, Link>, g: Guid, link: Link, layers: seq<Layer>): map<Guid, Link>
  {
    if g in h || !AnyLayerMatches(link, layers) then h else h[g := link]
  }

  /** The table after every live link not yet in it is tested against the
      one new layer. */
  function WithLayer(h: map<Guid, Link>, links: map<Guid, Link>, layer: Layer): map<Guid, Link>
  {
    h + map g | g in links && g !in h && LayerMatches(links[g], layer) :: links[g]
  }

  /** The table with the entries of links that are no longer live dropped. */
  function Pruned(h: map<Guid, Link>, links: map<Guid, Link>): map<Guid, Link>
  {
    map g | g in h && g in links :: h[g]
  }

  /** The highlight table after a full recheck holds exactly the live links
      that match a drawn layer, each as it is in the live links. */
  lemma MatchingExactly(links: map<Guid, Link>, layers: seq<Layer>, g: Guid)
    ensures g in Matching(links, layers) <==> g in links && AnyLayerMatches(links[g], layers)
    ensures g in Matching(links, layers) ==> Matching(links, layers)[g] == links[g]
  {
  }

  /** Testing a link adds at most that link and never removes or changes
      another entry. */
  lemma WithLinkAddsOnlyThatLink(h: map<Guid, Link>, g: Guid, link: Link, layers: seq<Layer>)
    ensures g in h ==> WithLink(h, g, link, layers) == h
    ensures g !in h ==> (g in WithLink(h, g, link, layers) <==> AnyLayerMatches(link, layers))
    ensures WithLink(h, g, link, layers).Keys - {g} == h.Keys - {g}
    ensures forall x :: x in h ==> WithLink(h, g, link, layers)[x] == h[x]
  {
  }

  /** A new layer never removes or changes an entry, and what it adds are
      live links, not yet highlighted, that match that layer. */
  lemma WithLayerGrows(h: map<Guid, Link>, links: map<Guid, Link>, layer: Layer)
    ensures forall x :: x in h ==> x in WithLayer(h, links, layer) && WithLayer(h, links, layer)[x] == h[x]
    ensures forall x :: x in WithLayer(h, links, layer) && x !in h ==>
              x in links && LayerMatches(links[x], layer) && WithLayer(h, links, layer)[x] == links[x]
  {
  }

  /** Pruning drops exactly the entries whose guid is not live; afterwards
      every highlighted link is live. */
  lemma PrunedExactly(h: map<Guid, Link>, links: map<Guid, Link>)
    ensures Pruned(h, links).Keys == h.Keys * links.Keys
    ensures forall x :: x in Pruned(h, links) ==> Pruned(h, links)[x] == h[x]
    ensures Pruned(h, links).Keys <= links.Keys
  {
  }

  /** Testing a link against a table built by a full recheck over links
      that do not include it gives the table a full recheck would build with
      the link included. */
  lemma LinkAddedAgreesWithRecheck(links: map<Guid, Link>, layers: seq<Layer>, g: Guid, link: Link)
    requires g !in links
    ensures WithLink(Matching(links, layers), g, link, layers) == Matching(links[g := link], layers)
  {
  }

  /** Testing every live link against one new layer, starting from a table
      built by a full recheck over the other layers, gives the table a full
      recheck over all the layers would build. */
  lemma {:induction false} LayerAddedAgreesWithRecheck(links: map<Guid, Link>, layers: seq<Layer>, layer: Layer)
    ensures WithLayer(Matching(links, layers), links, layer) == Matching(links, layers + [layer])
  {
    var layers' := layers + [layer];
    var after := WithLayer(Matching(links, layers), links, layer);
    var want := Matching(links, layers');
    forall x | x in links
      ensures AnyLayerMatches(links[x], layers')
              <==> AnyLayerMatches(links[x], layers) || LayerMatches(links[x], layer)
    {
      if AnyLayerMatches(links[x], layers) {
        var j :| 0 <= j < |layers| && LayerMatches(links[x], layers[j]);
        assert layers'[j] == layers[j];
      }
      if LayerMatches(links[x], layer) {
        assert layers'[|layers|] == layer;
      }
      if AnyLayerMatches(links[x], layers') {
        var j :| 0 <= j < |layers'| && LayerMatches(links[x], layers'[j]);
        if j < |layers| {
          assert layers'[j] == layers[j];
        }
      }
    }
    assert after.Keys == want.Keys;
  }

  /** Dropping the highlights of links that went away, from a table built
      by a full recheck, gives the table a full recheck over the remaining
      links would build. */
  lemma PruneAgreesWithRecheck(links: map<Guid, Link>, live: map<Guid, Link>, layers: seq<Layer>)
    requires forall g :: g in live ==> g in links && live[g] == links[g]
    ensures Pruned(Matching(links, layers), live) == Matching(live, layers)
  {
  }

  /** A table built by a full recheck is stable: re-testing any link,
      re-testing any drawn layer, or pruning against the same live links
      leaves it unchanged. */
  lemma MatchingStable(links: map<Guid, Link>, layers: seq<Layer>, g: Guid, j: nat)
    requires g in links && j < |layers|
    ensures WithLink(Matching(links, layers), g, links[g], layers) == Matching(links, layers)
    ensures WithLayer(Matching(links, layers), links, layers[j]) == Matching(links, layers)
    ensures Pruned(Matching(links, layers), links) == Matching(links, layers)
  {
  }
}
