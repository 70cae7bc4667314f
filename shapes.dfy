/**
 * The drawing surface: shapes, whose geometry and position the editor
 * changes in place, and the canvas, whose ordered child list says which
 * shapes are visible.
 */
module Shapes {
  import opened Geometry

  /** A paint: none set, fully transparent, or an opaque colour from the sliders. */
  datatype Paint = NoPaint | Transparent | Colour(rgb: int)

  /** The outline a shape is stroked with, if any. */
  datatype Outline = NoOutline | Outline(paint: Paint, width: real)

  /** A shape node: its geometry, style, layout and translate position and highlight. */
  class Shape {
    var geom: Geom
    var fill: Paint
    var outline: Outline
    var layoutX: real
    var layoutY: real
    var translateX: real
    var translateY: real
    var highlighted: bool

    constructor (geom: Geom, fill: Paint, outline: Outline)
      ensures this.geom == geom && this.fill == fill && this.outline == outline
      ensures layoutX == 0.0 && layoutY == 0.0 && translateX == 0.0 && translateY == 0.0
      ensures !highlighted
    {
      this.geom := geom;
      this.fill := fill;
      this.outline := outline;
      layoutX, layoutY := 0.0, 0.0;
      translateX, translateY := 0.0, 0.0;
      highlighted := false;
    }
  }

  function Layout(s: Shape): Point2D
    reads s
  {
    Point2D(s.layoutX, s.layoutY)
  }

  function Translate(s: Shape): Point2D
    reads s
  {
    Point2D(s.translateX, s.translateY)
  }

  /** Between the two states s kept its geometry and paint: it looks the same. */
  twostate predicate SameFigure(s: Shape)
    reads s
  {
    s.geom == old(s.geom) && s.fill == old(s.fill) && s.outline == old(s.outline)
  }

  /** Between the two states s changed at most its highlight. */
  twostate predicate OnlyHighlightChanged(s: Shape)
    reads s
  {
    SameFigure(s) && Layout(s) == old(Layout(s)) && Translate(s) == old(Translate(s))
  }

  /** Between the two states s changed at most its layout position. */
  twostate predicate OnlyLayoutChanged(s: Shape)
    reads s
  {
    SameFigure(s) && Translate(s) == old(Translate(s)) && s.highlighted == old(s.highlighted)
  }

  /** Between the two states s changed at most its translate position. */
  twostate predicate OnlyTranslateChanged(s: Shape)
    reads s
  {
    SameFigure(s) && Layout(s) == old(Layout(s)) && s.highlighted == old(s.highlighted)
  }

  /** No element occurs twice. */
  predicate Distinct<T(==)>(s: seq<T>) {
    forall i, j :: 0 <= i < j < |s| ==> s[i] != s[j]
  }

  /** Index of the first occurrence of x in s. */
  function FirstIndex<T(==)>(s: seq<T>, x: T): (i: nat)
    requires x in s
    ensures i < |s| && s[i] == x && x !in s[..i]
  {
    if s[0] == x then 0 else 1 + FirstIndex(s[1..], x)
  }

  /**
   * s with the first occurrence of x removed (a list's remove(Object)):
   * unchanged when x is absent; one copy of x fewer otherwise.
   */
  function Without<T(==)>(s: seq<T>, x: T): (r: seq<T>)
    ensures x !in s ==> r == s
    ensures multiset(r) == multiset(s) - multiset{x}
  {
    if s == [] then []
    else
      assert s == [s[0]] + s[1..];
      if s[0] == x then s[1..] else [s[0]] + Without(s[1..], x)
  }

  /** The other elements keep their relative order: the list is cut around the first x. */
  lemma {:induction false} WithoutSplits<T>(s: seq<T>, x: T)
    requires x in s
    ensures Without(s, x) == s[..FirstIndex(s, x)] + s[FirstIndex(s, x) + 1..]
  {
    if s[0] != x {
      var t := s[1..];
      StepPast(s, x);
      WithoutPastHead(s, x);
      WithoutSplits(t, x);
      CutAfterHead(s, FirstIndex(t, x));
    }
  }

  /** Past a head other than x, the removal happens in the tail. */
  lemma WithoutPastHead<T>(s: seq<T>, x: T)
    requires s != [] && s[0] != x
    ensures Without(s, x) == [s[0]] + Without(s[1..], x)
  {
  }

  /** Past a head other than x, the first x is found in the tail. */
  lemma StepPast<T>(s: seq<T>, x: T)
    requires x in s && s[0] != x
    ensures x in s[1..] && FirstIndex(s, x) == 1 + FirstIndex(s[1..], x)
  {
    assert s == [s[0]] + s[1..];
  }

  /** Cutting out position i of the tail, then putting the head back, cuts position i + 1. */
  lemma CutAfterHead<T>(s: seq<T>, i: nat)
    requires i + 1 < |s|
    ensures [s[0]] + (s[1..][..i] + s[1..][i + 1..]) == s[..i + 1] + s[i + 2..]
  {
    assert s[..i + 1] == [s[0]] + s[1..][..i];
    assert s[i + 2..] == s[1..][i + 1..];
  }

  /** The tail of a duplicate-free list is duplicate-free and misses the head. */
  lemma DistinctTail<T>(s: seq<T>)
    requires Distinct(s) && s != []
    ensures Distinct(s[1..]) && s[0] !in s[1..]
  {
    var t := s[1..];
    forall i, j | 0 <= i < j < |t| ensures t[i] != t[j] {
      assert t[i] == s[i + 1] && t[j] == s[j + 1];
    }
    forall j | 0 <= j < |t| ensures t[j] != s[0] {
      assert t[j] == s[j + 1];
    }
  }

  /** A fresh head in front of a duplicate-free list keeps it duplicate-free. */
  lemma DistinctCons<T>(h: T, r: seq<T>)
    requires Distinct(r) && h !in r
    ensures Distinct([h] + r)
  {
    var c := [h] + r;
    forall i, j | 0 <= i < j < |c| ensures c[i] != c[j] {
      assert c[j] == r[j - 1];
      if i > 0 {
        assert c[i] == r[i - 1];
      }
    }
  }

  /** Removing an element from a duplicate-free list removes every copy of it. */
  lemma {:induction false} WithoutDistinct<T>(s: seq<T>, x: T)
    requires Distinct(s)
    ensures Distinct(Without(s, x)) && x !in Without(s, x)
  {
    if s != [] {
      DistinctTail(s);
      var t := s[1..];
      if s[0] != x {
        WithoutDistinct(t, x);
        var r' := Without(t, x);
        assert s[0] !in r' by {
          assert multiset(r') <= multiset(t);
          assert s[0] !in multiset(t);
        }
        DistinctCons(s[0], r');
        WithoutPastHead(s, x);
      } else {
        assert Without(s, x) == t;
      }
    }
  }

  /** Appending an absent element and then removing it gives back the list. */
  lemma WithoutAppended<T>(s: seq<T>, x: T)
    requires x !in s
    ensures Without(s + [x], x) == s
  {
    var t := s + [x];
    assert t[|s|] == x;
    WithoutSplits(t, x);
    assert t[..|s|] == s;
    assert FirstIndex(t, x) == |s|;
  }

  /**
   * Removing a present element and appending it again keeps the same
   * members, though the element moves to the end.
   */
  lemma WithoutThenAppend<T>(s: seq<T>, x: T)
    requires Distinct(s) && x in s
    ensures x !in Without(s, x)
    ensures multiset(Without(s, x) + [x]) == multiset(s)
  {
    WithoutDistinct(s, x);
  }

  /** The drawing pane; its children are the visible shapes, in paint order. */
  class Canvas {
    var children: seq<Shape>

    constructor ()
      ensures children == []
    {
      children := [];
    }

    /** Adds a shape on top. The toolkit refuses a shape that is already a child. */
    method Add(s: Shape)
      requires s !in children
      modifies this
      ensures children == old(children) + [s]
      ensures Distinct(old(children)) ==> Distinct(children)
    {
      children := children + [s];
    }

    /** Removes the shape if it is a child; the others keep their order. */
    method Remove(s: Shape)
      modifies this
      ensures children == Without(old(children), s)
      ensures Distinct(old(children)) ==> Distinct(children) && s !in children
    {
      if Distinct(children) {
        WithoutDistinct(children, s);
      }
      children := Without(children, s);
    }
  }
}
