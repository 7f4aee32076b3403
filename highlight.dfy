/** The node mouse handlers' effect on path opacities (main.js:153-159).
    `d3.selectAll('path')` reaches every path of the document: the legend
    arrow, one path per link, and the aircraft. */
module Highlight {
  import opened Wrappers
  import opened Hive

  /** A `path` element of the page, with the attributes the selectors read. */
  datatype PathElement =
    | LegendArrow
    | LinkPath(dataS: Option<int>, dataT: Option<int>)
    | Aircraft

  /** The paths in document order: the legend arrow (main.js:108), the link
      paths (main.js:131-141), the aircraft (main.js:166). */
  function DocumentPaths(links: seq<Link>): (ps: seq<PathElement>)
    ensures |ps| == |links| + 2
    ensures ps[0] == LegendArrow && ps[|links| + 1] == Aircraft
    ensures forall k :: 0 <= k < |links| ==> ps[k + 1] == LinkPath(DataS(links[k]), DataT(links[k]))
  {
    [LegendArrow] + seq(|links|, k requires 0 <= k < |links| => LinkPath(DataS(links[k]), DataT(links[k]))) + [Aircraft]
  }

  /** The three selectors the handlers use: `path`, `path[data-s="i"]` and
      `path[data-t="i"]`. Attribute values are compared as the decimal text
      of integers, so comparing the integers is the same test. */
  datatype Selector = AllPaths | WithDataS(id: int) | WithDataT(id: int)

  predicate Matches(sel: Selector, p: PathElement)
  {
    match sel
    case AllPaths => true
    case WithDataS(i) => p.LinkPath? && p.dataS == Some(i)
    case WithDataT(i) => p.LinkPath? && p.dataT == Some(i)
  }

  /** `d3.selectAll(sel).style('opacity', v)`: the opacity of every matching
      path becomes `v`, every other path keeps its own. */
  function Restyle(ops: seq<int>, paths: seq<PathElement>, sel: Selector, v: int): (r: seq<int>)
    requires |ops| == |paths|
    ensures |r| == |paths|
    ensures forall k :: 0 <= k < |r| ==> r[k] == if Matches(sel, paths[k]) then v else ops[k]
  {
    seq(|ops|, k requires 0 <= k < |ops| => if Matches(sel, paths[k]) then v else ops[k])
  }

  /** A path that the press of node `i` reveals: a link path whose source or
      target id is `i`. */
  predicate Incident(p: PathElement, i: int)
  {
    p.LinkPath? && (p.dataS == Some(i) || p.dataT == Some(i))
  }

  /** `mousedown` on node `i` (main.js:153-157): hide every path, then show
      those whose `data-s` is `i`, then those whose `data-t` is `i`. Whatever
      the opacities were before, exactly the incident link paths end at 1 and
      every other path, the legend arrow and the aircraft included, at 0. */
  function Press(ops: seq<int>, paths: seq<PathElement>, i: int): (r: seq<int>)
    requires |ops| == |paths|
    ensures |r| == |paths|
    ensures forall k :: 0 <= k < |r| ==> (r[k] == 1 <==> Incident(paths[k], i))
    ensures forall k :: 0 <= k < |r| ==> (r[k] == 0 <==> !Incident(paths[k], i))
  {
    var hidden := Restyle(ops, paths, AllPaths, 0);
    var bySource := Restyle(hidden, paths, WithDataS(i), 1);
    Restyle(bySource, paths, WithDataT(i), 1)
  }

  /** `mouseup` and `mouseout` (main.js:158-159): every path back to 1. */
  function Release(ops: seq<int>, paths: seq<PathElement>): (r: seq<int>)
    requires |ops| == |paths|
    ensures r == seq(|paths|, k => 1)
  {
    Restyle(ops, paths, AllPaths, 1)
  }

  /** Pressing the same node again shows the same set of paths. */
  lemma PressIdempotent(ops: seq<int>, paths: seq<PathElement>, i: int)
    requires |ops| == |paths|
    ensures Press(Press(ops, paths, i), paths, i) == Press(ops, paths, i)
  {
    var once := Press(ops, paths, i);
    var twice := Press(once, paths, i);
    forall k | 0 <= k < |paths|
      ensures twice[k] == once[k]
    {
      assert twice[k] == 1 <==> once[k] == 1;
    }
  }

  /** Press then release leaves every path visible, as release alone does. */
  lemma ReleaseAfterPress(ops: seq<int>, paths: seq<PathElement>, i: int)
    requires |ops| == |paths|
    ensures Release(Press(ops, paths, i), paths) == Release(ops, paths)
  {
  }

  /** A link with an endpoint whose id is `i`. */
  predicate IncidentLink(l: Link, i: int)
  {
    (l.source.Some? && l.source.value.id == i) || (l.target.Some? && l.target.value.id == i)
  }

  /** On the page's own paths: after pressing node `i`, the path of link `k`
      is visible exactly when that link's source or target has id `i`, and
      the legend arrow and the aircraft are hidden. */
  lemma PressedDocument(ops: seq<int>, links: seq<Link>, i: int)
    requires |ops| == |links| + 2
    ensures var r := Press(ops, DocumentPaths(links), i);
      && r[0] == 0 && r[|links| + 1] == 0
      && forall k :: 0 <= k < |links| ==>
           (r[k + 1] == 1 <==> IncidentLink(links[k], i))
  {
    var paths := DocumentPaths(links);
    var r := Press(ops, paths, i);
    forall k | 0 <= k < |links|
      ensures r[k + 1] == 1 <==> IncidentLink(links[k], i)
    {
      assert paths[k + 1] == LinkPath(DataS(links[k]), DataT(links[k]));
    }
  }
}
