# Done links: edge matcher and highlight table

This project models the IITC "done links" plugin. The plugin highlights every
live link whose two end points form an edge of a shape drawn with the
drawing tool. Such an edge can be any side of a polyline or of a polygon, in
either direction.

- `Geometry` (`geometry.dfy`) is the pure part:
  - position equality `Eq`;
  - `SameLink`, which compares two edges in either direction;
  - `ShapeMatches`, which says when a link lies along a polyline or polygon;
  - `TestPolyLine`, the plugin's loop with early exit, proved against `ShapeMatches`.
- `HighlightSpec` (`highlight_spec.dfy`) gives the links, the drawn layers and
  the table that each handler should leave behind, as functions:
  - `Matching` for a full recheck;
  - `WithLink` for testing one link;
  - `WithLayer` for testing one new layer;
  - `Pruned` for dropping links that are gone.
  It also proves that every incremental update agrees with a full recheck.
- `DoneLinks` (`done_links.dfy`) is the plugin itself. The class
  `DoneLinksPlugin` holds the `disabled` flag and the highlight table
  `highlights`. Its methods are the plugin's handlers and helpers.
  `TestLink`, `CheckAllLinks`, `TestAllLinksAgainstLayer`,
  `TestForDeletedLinks` and the handlers that call them clear, refill and
  prune the table in loops over the live links and the drawn layers. Each of
  them is proved to leave the table that `WithLink`, `Matching`, `WithLayer` or
  `Pruned` describes. `ShowLink` is specified by a single map update. The
  constructor and `OnLayerRemove` leave an empty table. The class invariant
  `Valid` says that nothing is highlighted while the plugin is disabled. The
  constructor and every event handler preserve it. `TestLink` and `ShowLink`
  neither need nor promise it, because they never read `disabled`.

The host's live links (`window.links`) and the drawn layers
(`drawnItems._layers`) are inputs to the handlers. The live links are a map
from guid to link. The drawn layers are a sequence of `Polygon`, `Polyline`
or `Other`.

## Model

| member | source | states |
|---|---|---|
| Geometry.EqReflexiveSymmetric | iitc/development/done-links.user.js:41-42 | the position comparison used by `sameLink` is reflexive and symmetric |
| Geometry.EqNotTransitive | iitc/development/done-links.user.js:41-42 | the position comparison is not transitive: three positions a margin apart give a chain of equal pairs whose ends are not equal |
| Geometry.SameLinkDirectionFree | iitc/development/done-links.user.js:40-44 | swapping the link's end points, swapping the shape edge's end points, or swapping the two edges does not change the answer; every edge matches itself in both directions |
| Geometry.TestPolyLine | iitc/development/done-links.user.js:47-61 | the loop with early return answers true exactly when the link matches some consecutive edge, or for a polygon the closing edge from last point to first; an open shape's true answer always comes from a consecutive edge |
| Geometry.ShapeMatchesReversed | iitc/development/done-links.user.js:47-61 | a shape listed in reverse order matches exactly the same links, open or closed |
| Geometry.ClosedMatchesSomeEdge | iitc/development/done-links.user.js:52-58 | a polygon of n points matches exactly when one of its n sides (each point to the next, the last back to the first) matches |
| Geometry.ClosedMatchesRotated | iitc/development/done-links.user.js:52-58 | a polygon matches exactly the same links whichever of its points it is listed from |
| Geometry.TriangleEdges | iitc/development/done-links.user.js:47-61 | a closed three-point shape matches its three sides and no other edge; the open shape through the same points matches only its first two sides |
| Geometry.OpenTriangleSkipsClosingEdge | iitc/development/done-links.user.js:56-58 | a link along the closing side of a triangle is matched by the polygon and not by the polyline through the same points |
| Geometry.SquareMatchesReversedSide | iitc/development/done-links.user.js:40-61 | the unit square drawn as a polygon matches the link from (1,1) to (0,1), which runs along its top side in the opposite direction |
| HighlightSpec.MatchingExactly | iitc/development/done-links.user.js:69-79 | after a full recheck a guid is in the table exactly when it is live and its link matches some drawn layer, and the entry is that live link |
| HighlightSpec.WithLinkAddsOnlyThatLink | iitc/development/done-links.user.js:81-98 | testing a link that is already highlighted changes nothing; otherwise it adds that guid exactly when some layer matches; no other entry appears, disappears or changes |
| HighlightSpec.WithLayerGrows | iitc/development/done-links.user.js:125-142 | testing a new layer keeps every existing entry unchanged, and everything it adds is a live, not yet highlighted link that matches that layer |
| HighlightSpec.PrunedExactly | iitc/development/done-links.user.js:144-153 | pruning keeps exactly the entries whose guid is live, each unchanged, so every remaining highlight is live |
| HighlightSpec.LinkAddedAgreesWithRecheck | iitc/development/done-links.user.js:63-98 | testing a new link against a table from a full recheck gives the table a full recheck with that link would give |
| HighlightSpec.LayerAddedAgreesWithRecheck | iitc/development/done-links.user.js:125-142 | testing one new layer against a table from a full recheck gives the table a full recheck over all layers, the new one included, would give |
| HighlightSpec.PruneAgreesWithRecheck | iitc/development/done-links.user.js:144-153 | after links go away, pruning a table from a full recheck gives the table a full recheck over the remaining links would give |
| HighlightSpec.MatchingStable | iitc/development/done-links.user.js:69-98 | a table from a full recheck does not change when any live link is re-tested, when any drawn layer is tested again, or when it is pruned against the same links |
| DoneLinks.TestLayer | iitc/development/done-links.user.js:86-96 | the layer-kind chain answers true exactly when the link lies along the layer: a polygon is tested as closed, a polyline as open, and any other layer never matches |
| DoneLinks.DoneLinksPlugin.constructor | iitc/development/done-links.user.js:155-177 | the table starts empty, and the plugin starts disabled exactly when its layer is not shown |
| DoneLinks.DoneLinksPlugin.ShowLink | iitc/development/done-links.user.js:101-115 | the link is recorded under its guid; the other entries are untouched |
| DoneLinks.DoneLinksPlugin.TestLink | iitc/development/done-links.user.js:81-98 | the new table is `WithLink` of the old one: unchanged if the guid is present, else the guid is added exactly when some layer matches |
| DoneLinks.DoneLinksPlugin.OnLinkAdded | iitc/development/done-links.user.js:63-67 | while disabled nothing changes; otherwise the new link is tested as `TestLink` does |
| DoneLinks.DoneLinksPlugin.CheckAllLinks | iitc/development/done-links.user.js:69-79 | while disabled nothing changes; otherwise the table becomes `Matching` of the live links and layers, whatever it held before, so a second recheck changes nothing |
| DoneLinks.DoneLinksPlugin.TestAllLinksAgainstLayer | iitc/development/done-links.user.js:125-142 | while disabled nothing changes; otherwise the table becomes `WithLayer` of the old one and keeps every old entry |
| DoneLinks.DoneLinksPlugin.TestForDeletedLinks | iitc/development/done-links.user.js:144-153 | the table becomes `Pruned` of the old one: exactly the entries of links that are no longer live are removed |
| DoneLinks.DoneLinksPlugin.OnMapDataRefreshEnd | iitc/development/done-links.user.js:117-123 | while disabled nothing changes; otherwise only pruning happens, with no recheck |
| DoneLinks.DoneLinksPlugin.OnDrawToolsEvent | iitc/development/done-links.user.js:192-200 | a created layer is tested on its own as `TestAllLinksAgainstLayer` does; any other drawing change rechecks all links |
| DoneLinks.DoneLinksPlugin.OnLayerAdd | iitc/development/done-links.user.js:160-165 | showing the layer enables the plugin and leaves the table equal to `Matching` |
| DoneLinks.DoneLinksPlugin.OnLayerRemove | iitc/development/done-links.user.js:166-172 | hiding the layer disables the plugin and empties the table |

Notes on how the model reads the code:

- Position equality is Leaflet's `LatLng.equals`. Leaflet's code is not part
  of this model. `Eq` gives `equals` the meaning Leaflet gives it: both
  coordinates agree within a margin of 1e-9 degrees (`MaxMargin`). That margin
  comes from Leaflet, not from the plugin's own code. This relation is
  reflexive and symmetric but not transitive. The general results
  (`TestPolyLine`, the `ShapeMatches` lemmas, everything in `HighlightSpec`
  and `DoneLinks`) do not use the definition of `Eq`. `EqNotTransitive` needs
  a positive margin. `OpenTriangleSkipsClosingEdge` needs a margin below one
  degree.
- For a polygon with no points, the code compares against `b[-1]`, which is
  undefined. No position equals undefined, so such a polygon has no closing
  edge. A one-point polygon does have a closing edge, from the point to itself.
  The code does not reject shapes with fewer than two points, and neither does
  the model.
- At the end of a map-data refresh the code only prunes. It does not run a
  full recheck after pruning.
- The code iterates `window.links` and the highlight layer in the host's
  order. The model picks keys in an arbitrary order. The results are proved
  to be the same whatever the order.
- The plugin keeps two views of the highlight table: the Leaflet feature group
  `linkLayer` and the dictionary `linkLayerGuids`. Every code path updates
  both together, so the model keeps them as one map.
- The code assumes that a link's key in `window.links` is its own
  `options.guid`. The model passes the guid next to the link.

## Left out

- The China-offset plugin (`iitc/development/fix-googlemap-china-offset.user.js`) is not part of this model. Its transform is floating-point trigonometry, and the rest of it patches Google Maps layer objects.
- Drawing details of `showLink` are left out: the colour taken from the team, the opacity, the weight and the dash pattern. So are `bringToFront` and console logging. These only affect rendering. The model keeps the team in the stored link but does not give it a colour.
- Hook registration, the `alert` shown when the drawing tool is missing, plugin boot and script injection are host plumbing and are left out. The dispatch in the drawing-tool hook is kept, as `OnDrawToolsEvent`.
- Leaflet's `getLatLngs` is not part of this model: a link is given by its two end points and a shape by its point sequence. Coordinates are exact reals, not IEEE doubles.
- Which host objects count as polygons and as polylines (`instanceof L.GeodesicPolygon` / `L.GeodesicPolyline`) is given by the `Layer` constructor. The class hierarchy it depends on is not part of this model.
