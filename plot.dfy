/** The page's controller state and its event handlers (main.js:7, main.js:33-95,
    main.js:131-159): the current exponent, the drawn position of every node
    and link, the opacity of every path and label, and three class flags. */
module Plot {
  import opened Wrappers
  import opened Zoom
  import opened Hive
  import opened Highlight

  class HivePlot {
    /** The ordinal axis scale (main.js:8-11), left uninterpreted. */
    const angle: int -> real
    /** The radial power scale for each exponent (main.js:12-16, main.js:64-68),
        left uninterpreted. */
    const radial: real -> real -> real
    const nodes: seq<NodeDatum>
    const links: seq<Link>
    /** Every `path` of the document, in order. */
    const paths: seq<PathElement>

    /** The module-level `exp` (main.js:7). */
    var exp: real
    /** Each node's rotation onto its axis, `angle(d.x)` (main.js:149). */
    const rotation: array<real>
    /** Each node's `cx` attribute. */
    const cx: array<real>
    /** What each link path's `d` attribute is drawn from. */
    const linkShape: array<LinkShape>
    /** The opacity style of each element of `paths`. */
    const opacity: array<int>
    /** The opacity style of each `text` element. */
    const labelOpacity: array<int>
    /** The body's `inverted` class, the body's `legend` class, the svg's `legend` class. */
    var inverted: bool
    var bodyLegend: bool
    var svgLegend: bool

    ghost predicate Valid()
      reads this, rotation, cx, linkShape, opacity, labelOpacity
    {
      && exp in Levels
      && rotation.Length == |nodes| && cx.Length == |nodes| && rotation != cx
      && linkShape.Length == |links|
      && paths == DocumentPaths(links) && opacity.Length == |paths|
      && opacity != labelOpacity
      && (forall j :: 0 <= j < |nodes| ==> rotation[j] == angle(nodes[j].x))
      && LaidOut()
    }

    /** Every node and every link is drawn with the radial scale of the
        current exponent. */
    ghost predicate LaidOut()
      reads this, cx, linkShape
      requires cx.Length == |nodes| && linkShape.Length == |links|
    {
      && (forall j :: 0 <= j < |nodes| ==> cx[j] == radial(exp)(nodes[j].y))
      && (forall k :: 0 <= k < |links| ==> linkShape[k] == Shape(angle, radial(exp), links[k]))
    }

    /** The initial draw (main.js:131-159) with the scale built at load time
        from `exp = 1`. No path or label has an opacity style yet; that
        renders as 1. The svg is created without the `legend` class; the
        body's classes come from the page. */
    constructor Draw(angle: int -> real, radial: real -> real -> real,
                     nodes: seq<NodeDatum>, links: seq<Link>, labelCount: nat,
                     bodyInverted: bool, bodyLegend: bool)
      ensures Valid()
      ensures fresh(rotation) && fresh(cx) && fresh(linkShape) && fresh(opacity) && fresh(labelOpacity)
      ensures this.angle == angle && this.radial == radial && this.nodes == nodes && this.links == links
      ensures exp == InitialExp
      ensures forall k :: 0 <= k < opacity.Length ==> opacity[k] == 1
      ensures labelOpacity.Length == labelCount
      ensures forall t :: 0 <= t < labelCount ==> labelOpacity[t] == 1
      ensures inverted == bodyInverted && this.bodyLegend == bodyLegend && !svgLegend
    {
      this.angle := angle;
      this.radial := radial;
      this.nodes := nodes;
      this.links := links;
      paths := DocumentPaths(links);
      exp := InitialExp;
      var radius := radial(InitialExp);
      rotation := new real[|nodes|](j requires 0 <= j < |nodes| => angle(nodes[j].x));
      cx := new real[|nodes|](j requires 0 <= j < |nodes| => radius(nodes[j].y));
      linkShape := new LinkShape[|links|](k requires 0 <= k < |links| => Shape(angle, radius, links[k]));
      opacity := new int[|links| + 2](k => 1);
      labelOpacity := new int[labelCount](t => 1);
      inverted := bodyInverted;
      this.bodyLegend := bodyLegend;
      svgLegend := false;
    }

    /** A click on the transform button (main.js:47-95): step the exponent,
        then send every node, every link and every label to its new target.
        Node rotations, path opacities and the class flags are not touched. */
    method Transform()
      requires Valid()
      modifies this`exp, cx, linkShape, labelOpacity
      ensures Valid()
      ensures exp == Step(old(exp)).exp
      ensures forall j :: 0 <= j < |nodes| ==> cx[j] == radial(exp)(nodes[j].y)
      ensures forall k :: 0 <= k < |links| ==> linkShape[k] == Shape(angle, radial(exp), links[k])
      ensures forall t :: 0 <= t < labelOpacity.Length ==> labelOpacity[t] == LabelOpacity(Step(old(exp)).hideLabels)
      ensures forall t :: 0 <= t < labelOpacity.Length ==> (labelOpacity[t] == 0 <==> exp == DeepestExp)
      ensures rotation[..] == old(rotation[..]) && opacity[..] == old(opacity[..])
    {
      var s := Step(exp);
      exp := s.exp;
      var r := radial(exp);
      var j := 0;
      while j < cx.Length
        invariant 0 <= j <= cx.Length
        invariant forall m :: 0 <= m < j ==> cx[m] == r(nodes[m].y)
        modifies cx
      {
        cx[j] := r(nodes[j].y);
        j := j + 1;
      }
      var k := 0;
      while k < linkShape.Length
        invariant 0 <= k <= linkShape.Length
        invariant forall m :: 0 <= m < k ==> linkShape[m] == Shape(angle, r, links[m])
        modifies linkShape
      {
        linkShape[k] := Shape(angle, r, links[k]);
        k := k + 1;
      }
      var t := 0;
      while t < labelOpacity.Length
        invariant 0 <= t <= labelOpacity.Length
        invariant forall m :: 0 <= m < t ==> labelOpacity[m] == LabelOpacity(s.hideLabels)
        modifies labelOpacity
      {
        labelOpacity[t] := LabelOpacity(s.hideLabels);
        t := t + 1;
      }
    }

    /** `d3.selectAll(sel).style('opacity', v)` on the page's paths. */
    method StylePaths(sel: Selector, v: int)
      requires Valid()
      modifies opacity
      ensures Valid()
      ensures opacity[..] == Restyle(old(opacity[..]), paths, sel, v)
    {
      var k := 0;
      while k < opacity.Length
        invariant 0 <= k <= opacity.Length
        invariant forall m :: 0 <= m < k ==> opacity[m] == if Matches(sel, paths[m]) then v else old(opacity[m])
        invariant forall m :: k <= m < opacity.Length ==> opacity[m] == old(opacity[m])
      {
        if Matches(sel, paths[k]) {
          opacity[k] := v;
        }
        k := k + 1;
      }
    }

    /** `mousedown` on node `i` (main.js:153-157). */
    method MouseDown(i: int)
      requires Valid()
      modifies opacity
      ensures Valid()
      ensures opacity[..] == Press(old(opacity[..]), paths, i)
      ensures forall k :: 0 <= k < opacity.Length ==> (opacity[k] == 1 <==> Incident(paths[k], i))
      ensures forall k :: 0 <= k < opacity.Length ==> (opacity[k] == 0 <==> !Incident(paths[k], i))
    {
      StylePaths(AllPaths, 0);
      StylePaths(WithDataS(i), 1);
      StylePaths(WithDataT(i), 1);
    }

    /** `mouseup` on a node (main.js:158). */
    method MouseUp()
      requires Valid()
      modifies opacity
      ensures Valid()
      ensures opacity[..] == Release(old(opacity[..]), paths)
      ensures forall k :: 0 <= k < opacity.Length ==> opacity[k] == 1
    {
      StylePaths(AllPaths, 1);
    }

    /** `mouseout` on a node (main.js:159). */
    method MouseOut()
      requires Valid()
      modifies opacity
      ensures Valid()
      ensures opacity[..] == Release(old(opacity[..]), paths)
      ensures forall k :: 0 <= k < opacity.Length ==> opacity[k] == 1
    {
      StylePaths(AllPaths, 1);
    }

    /** The invert button (main.js:33-38). */
    method InvertClick()
      requires Valid()
      modifies this`inverted
      ensures Valid()
      ensures inverted == !old(inverted)
    {
      inverted := !inverted;
    }

    /** The legend button (main.js:39-46): the body's and the svg's `legend`
        classes flip independently, so they stay equal if they were equal. */
    method LegendClick()
      requires Valid()
      modifies this`bodyLegend, this`svgLegend
      ensures Valid()
      ensures bodyLegend == !old(bodyLegend) && svgLegend == !old(svgLegend)
      ensures (bodyLegend == svgLegend) == old(bodyLegend == svgLegend)
    {
      bodyLegend := !bodyLegend;
      svgLegend := !svgLegend;
    }

    /** A drawn link starts exactly where its source node is drawn and ends
        where its target node is drawn, at every zoom level. */
    lemma LinkEndsOnNodes(k: int, j: int)
      requires Valid()
      requires 0 <= k < |links| && 0 <= j < |nodes|
      ensures links[k].source == Some(nodes[j]) ==> linkShape[k].source == HiveEnd(rotation[j], cx[j])
      ensures links[k].target == Some(nodes[j]) ==> linkShape[k].target == HiveEnd(rotation[j], cx[j])
    {
    }
  }

  /** Three clicks of the transform button return the layout to exactly what
      it was, and leave the labels at the opacity of the current level. */
  method TransformThrice(p: HivePlot)
    requires p.Valid()
    modifies p`exp, p.cx, p.linkShape, p.labelOpacity
    ensures p.Valid()
    ensures p.exp == old(p.exp)
    ensures p.cx[..] == old(p.cx[..]) && p.linkShape[..] == old(p.linkShape[..])
    ensures forall t :: 0 <= t < p.labelOpacity.Length ==> p.labelOpacity[t] == LabelOpacity(p.exp == DeepestExp)
  {
    ThreeStepsRestore(p.exp);
    p.Transform();
    p.Transform();
    p.Transform();
  }

  /** Inverting twice restores the flag and touches nothing else. */
  method InvertTwice(p: HivePlot)
    requires p.Valid()
    modifies p`inverted
    ensures p.Valid()
    ensures p.inverted == old(p.inverted)
  {
    p.InvertClick();
    p.InvertClick();
  }

  /** Toggling the legend twice restores both flags and touches nothing else. */
  method LegendTwice(p: HivePlot)
    requires p.Valid()
    modifies p`bodyLegend, p`svgLegend
    ensures p.Valid()
    ensures p.bodyLegend == old(p.bodyLegend) && p.svgLegend == old(p.svgLegend)
  {
    p.LegendClick();
    p.LegendClick();
  }

  /** Pressing the same node twice leaves the paths exactly as one press does. */
  method PressTwice(p: HivePlot, i: int)
    requires p.Valid()
    modifies p.opacity
    ensures p.Valid()
    ensures p.opacity[..] == Press(old(p.opacity[..]), p.paths, i)
  {
    p.MouseDown(i);
    p.MouseDown(i);
    PressIdempotent(old(p.opacity[..]), p.paths, i);
  }
}
