/** The graph data and the hive-link accessors (main.js:84-87, main.js:136-141):
    which angle and radius each link endpoint is drawn at, and the `data-s` /
    `data-t` attributes each link path carries. The scales themselves are
    parameters: `angle` is the ordinal axis scale and `radius` the radial
    power scale currently in use. */
module Hive {
  import opened Wrappers

  /** A node of the dataset: its id, its axis (`d.x`) and its magnitude (`d.y`). */
  datatype NodeDatum = NodeDatum(id: int, x: int, y: real)

  /** A link; either endpoint may be missing (`undefined` in the dataset). */
  datatype Link = Link(source: Option<NodeDatum>, target: Option<NodeDatum>)

  predicate Dangling(l: Link)
  {
    l.source.None? || l.target.None?
  }

  /** The polar coordinates the hive-link generator receives for one endpoint. */
  datatype HiveEnd = HiveEnd(angle: real, radius: real)

  /** What a link's `d` attribute is computed from: its two endpoints. */
  datatype LinkShape = LinkShape(source: HiveEnd, target: HiveEnd)

  /** The plot's centre, where an absent endpoint is anchored. */
  const Centre: HiveEnd := HiveEnd(0.0, 0.0)

  /** Where a node is drawn: rotated onto its axis and pushed out to `cx`
      (main.js:149-150, main.js:76). */
  function NodeEnd(angle: int -> real, radius: real -> real, n: NodeDatum): HiveEnd
  {
    HiveEnd(angle(n.x), radius(n.y))
  }

  /** The `.angle` accessor: `d ? angle(d.x) : 0` (main.js:86, main.js:138). */
  function EndAngle(angle: int -> real, d: Option<NodeDatum>): (a: real)
    ensures d.Some? ==> a == angle(d.value.x)
    ensures d.None? ==> a == Centre.angle
  {
    if d.Some? then angle(d.value.x) else 0.0
  }

  /** The `.radius` accessor: `d ? r(d.y) : 0` (main.js:87, main.js:139). */
  function EndRadius(radius: real -> real, d: Option<NodeDatum>): (r: real)
    ensures d.Some? ==> r == radius(d.value.y)
    ensures d.None? ==> r == Centre.radius
  {
    if d.Some? then radius(d.value.y) else 0.0
  }

  /** One endpoint as the generator sees it: a present endpoint sits exactly
      where its node is drawn, an absent one at the centre. */
  function End(angle: int -> real, radius: real -> real, d: Option<NodeDatum>): (e: HiveEnd)
    ensures d.Some? ==> e == NodeEnd(angle, radius, d.value)
    ensures d.None? ==> e == Centre
  {
    HiveEnd(EndAngle(angle, d), EndRadius(radius, d))
  }

  /** The shape of a link's path under the given scales; the initial draw
      and every transition use this one rule. */
  function Shape(angle: int -> real, radius: real -> real, l: Link): (s: LinkShape)
    ensures l.source.Some? ==> s.source == NodeEnd(angle, radius, l.source.value)
    ensures l.target.Some? ==> s.target == NodeEnd(angle, radius, l.target.value)
    ensures l.source.None? ==> s.source == Centre
    ensures l.target.None? ==> s.target == Centre
  {
    LinkShape(End(angle, radius, l.source), End(angle, radius, l.target))
  }

  /** Changing the radial scale moves link endpoints only along their axes:
      both angles stay what they were. */
  lemma RescaleKeepsAngles(angle: int -> real, r1: real -> real, r2: real -> real, l: Link)
    ensures Shape(angle, r1, l).source.angle == Shape(angle, r2, l).source.angle
    ensures Shape(angle, r1, l).target.angle == Shape(angle, r2, l).target.angle
  {
  }

  /** The `data-s` attribute of a link path: the source's id, or no attribute
      when the source is absent. */
  function DataS(l: Link): (a: Option<int>)
    ensures a.Some? <==> l.source.Some?
    ensures l.source.Some? ==> a.value == l.source.value.id
  {
    match l.source
    case Some(n) => Some(n.id)
    case None => None
  }

  /** The `data-t` attribute of a link path, as `DataS` for the target. */
  function DataT(l: Link): (a: Option<int>)
    ensures a.Some? <==> l.target.Some?
    ensures l.target.Some? ==> a.value == l.target.value.id
  {
    match l.target
    case Some(n) => Some(n.id)
    case None => None
  }

  /** The exception `d.source.id` raises when `d.source` is `undefined`. */
  datatype ScriptError = TypeError

  /** `d.source.id` as main.js:140 writes it, without the guard the accessors have. */
  function SourceIdAsWritten(l: Link): (r: Result<int, ScriptError>)
    ensures r.Success? <==> l.source.Some?
    ensures r.Success? ==> r.value == l.source.value.id
    ensures r.Failure? ==> r.error == TypeError
  {
    if l.source.Some? then Success(l.source.value.id) else Failure(TypeError)
  }

  /** `d.target.id` as main.js:141 writes it. */
  function TargetIdAsWritten(l: Link): (r: Result<int, ScriptError>)
    ensures r.Success? <==> l.target.Some?
    ensures r.Success? ==> r.value == l.target.value.id
    ensures r.Failure? ==> r.error == TypeError
  {
    if l.target.Some? then Success(l.target.value.id) else Failure(TypeError)
  }

  /** The `data-s` pass over every link path (main.js:140): the ids in order,
      or the exception of the first link without a source. */
  function SourceIdsAsWritten(links: seq<Link>): (r: Result<seq<int>, ScriptError>)
    ensures r.Success? ==> |r.value| == |links|
    ensures r.Success? ==> forall k :: 0 <= k < |links| ==> links[k].source.Some? && r.value[k] == links[k].source.value.id
    ensures r.Failure? ==> r.error == TypeError
  {
    if links == [] then Success([])
    else match SourceIdAsWritten(links[0])
      case Failure(e) => Failure(e)
      case Success(id) =>
        match SourceIdsAsWritten(links[1..])
        case Failure(e) => Failure(e)
        case Success(ids) => Success([id] + ids)
  }

  /** The `data-t` pass over every link path (main.js:141). */
  function TargetIdsAsWritten(links: seq<Link>): (r: Result<seq<int>, ScriptError>)
    ensures r.Success? ==> |r.value| == |links|
    ensures r.Success? ==> forall k :: 0 <= k < |links| ==> links[k].target.Some? && r.value[k] == links[k].target.value.id
    ensures r.Failure? ==> r.error == TypeError
  {
    if links == [] then Success([])
    else match TargetIdAsWritten(links[0])
      case Failure(e) => Failure(e)
      case Success(id) =>
        match TargetIdsAsWritten(links[1..])
        case Failure(e) => Failure(e)
        case Success(ids) => Success([id] + ids)
  }

  /** The two attribute passes of the initial link draw as written: the
      `data-s` pass, then the `data-t` pass; an exception in either ends `init`. */
  function LinkAttributesAsWritten(links: seq<Link>): (r: Result<(seq<int>, seq<int>), ScriptError>)
    ensures r.Success? ==> |r.value.0| == |links| && |r.value.1| == |links|
    ensures r.Success? ==> forall k :: 0 <= k < |links| ==>
      DataS(links[k]) == Some(r.value.0[k]) && DataT(links[k]) == Some(r.value.1[k])
    ensures r.Failure? ==> r.error == TypeError
  {
    match SourceIdsAsWritten(links)
    case Failure(e) => Failure(e)
    case Success(s) =>
      match TargetIdsAsWritten(links)
      case Failure(e) => Failure(e)
      case Success(t) => Success((s, t))
  }

  lemma {:induction false} SourceIdsFailIff(links: seq<Link>)
    ensures SourceIdsAsWritten(links).Failure? <==> exists k :: 0 <= k < |links| && links[k].source.None?
  {
    if links != [] {
      SourceIdsFailIff(links[1..]);
      if links[0].source.Some? {
        forall k | 1 <= k < |links|
          ensures links[k] == links[1..][k - 1]
        {
        }
      }
    }
  }

  lemma {:induction false} TargetIdsFailIff(links: seq<Link>)
    ensures TargetIdsAsWritten(links).Failure? <==> exists k :: 0 <= k < |links| && links[k].target.None?
  {
    if links != [] {
      TargetIdsFailIff(links[1..]);
      if links[0].target.Some? {
        forall k | 1 <= k < |links|
          ensures links[k] == links[1..][k - 1]
        {
        }
      }
    }
  }

  /** As written, the initial draw throws exactly when some link is dangling,
      although that link's geometry was drawn at the centre just before. */
  lemma DrawAbortsIffDangling(links: seq<Link>)
    ensures LinkAttributesAsWritten(links).Failure? <==> exists k :: 0 <= k < |links| && Dangling(links[k])
  {
    SourceIdsFailIff(links);
    TargetIdsFailIff(links);
  }

  /** A concrete instance: a link whose source is missing gets a valid shape
      anchored at the centre, and then the draw throws on it. */
  lemma DanglingSourceExample(angle: int -> real, radius: real -> real, n: NodeDatum)
    ensures Shape(angle, radius, Link(None, Some(n))).source == Centre
    ensures LinkAttributesAsWritten([Link(None, Some(n))]) == Failure(TypeError)
  {
  }

  /** With the guard the accessors already use, every link gets its
      attributes, and a dangling link's path simply lacks the missing one; on a
      dataset without dangling links they are exactly the as-written ones. */
  lemma GuardedAttributesAgree(links: seq<Link>)
    requires forall k :: 0 <= k < |links| ==> !Dangling(links[k])
    ensures LinkAttributesAsWritten(links).Success?
    ensures var (s, t) := LinkAttributesAsWritten(links).value;
      && |s| == |links| && |t| == |links|
      && forall k :: 0 <= k < |links| ==> DataS(links[k]) == Some(s[k]) && DataT(links[k]) == Some(t[k])
  {
    SourceIdsAgree(links);
    TargetIdsAgree(links);
  }

  lemma {:induction false} SourceIdsAgree(links: seq<Link>)
    requires forall k :: 0 <= k < |links| ==> links[k].source.Some?
    ensures SourceIdsAsWritten(links).Success?
    ensures |SourceIdsAsWritten(links).value| == |links|
    ensures forall k :: 0 <= k < |links| ==> DataS(links[k]) == Some(SourceIdsAsWritten(links).value[k])
  {
    if links != [] {
      SourceIdsAgree(links[1..]);
      var ids := SourceIdsAsWritten(links[1..]).value;
      assert SourceIdsAsWritten(links).value == [links[0].source.value.id] + ids;
      forall k | 1 <= k < |links|
        ensures DataS(links[k]) == Some(SourceIdsAsWritten(links).value[k])
      {
        assert links[k] == links[1..][k - 1];
      }
    }
  }

  lemma {:induction false} TargetIdsAgree(links: seq<Link>)
    requires forall k :: 0 <= k < |links| ==> links[k].target.Some?
    ensures TargetIdsAsWritten(links).Success?
    ensures |TargetIdsAsWritten(links).value| == |links|
    ensures forall k :: 0 <= k < |links| ==> DataT(links[k]) == Some(TargetIdsAsWritten(links).value[k])
  {
    if links != [] {
      TargetIdsAgree(links[1..]);
      var ids := TargetIdsAsWritten(links[1..]).value;
      assert TargetIdsAsWritten(links).value == [links[0].target.value.id] + ids;
      forall k | 1 <= k < |links|
        ensures DataT(links[k]) == Some(TargetIdsAsWritten(links).value[k])
      {
        assert links[k] == links[1..][k - 1];
      }
    }
  }
}
