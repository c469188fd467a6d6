/** The circle flyweight: circles whose colour is fixed and whose position
    and radius are set by whoever holds them, and a factory that keeps one
    circle per colour and hands the same circle to everyone asking for that
    colour. */
module Flyweight {
  import opened Common

  /** The line draw prints for a circle. */
  function Drawing(color: string, x: int, y: int, radius: int): string
  {
    "[Color: " + color + (", x :" + (IntToString(x) + (", y:" + (IntToString(y) + (", radius:" + (IntToString(radius) + "]"))))))
  }

  /** For one colour, the drawing tells position and radius apart. */
  lemma DrawingInjective(color: string, x1: int, y1: int, r1: int, x2: int, y2: int, r2: int)
    requires Drawing(color, x1, y1, r1) == Drawing(color, x2, y2, r2)
    ensures x1 == x2 && y1 == y2 && r1 == r2
  {
    var radius1, radius2 := ", radius:" + (IntToString(r1) + "]"), ", radius:" + (IntToString(r2) + "]");
    var ys1, ys2 := ", y:" + (IntToString(y1) + radius1), ", y:" + (IntToString(y2) + radius2);
    IntToStringChars(x1);
    IntToStringChars(x2);
    IntToStringChars(y1);
    IntToStringChars(y2);
    IntToStringChars(r1);
    IntToStringChars(r2);
    CancelPrefix("[Color: " + color, ", x :" + (IntToString(x1) + ys1), ", x :" + (IntToString(x2) + ys2));
    CancelPrefix(", x :", IntToString(x1) + ys1, IntToString(x2) + ys2);
    SplitNumeral(IntToString(x1), ys1, IntToString(x2), ys2);
    CancelPrefix(", y:", IntToString(y1) + radius1, IntToString(y2) + radius2);
    SplitNumeral(IntToString(y1), radius1, IntToString(y2), radius2);
    CancelPrefix(", radius:", IntToString(r1) + "]", IntToString(r2) + "]");
    SplitNumeral(IntToString(r1), "]", IntToString(r2), "]");
    IntToStringInjective(x1, x2);
    IntToStringInjective(y1, y2);
    IntToStringInjective(r1, r2);
  }

  class Circle {
    const color: string
    var x: int
    var y: int
    var radius: int

    /** A new circle of the given colour at the origin with radius 0 (the
        int fields' default). */
    constructor (color: string)
      ensures this.color == color && x == 0 && y == 0 && radius == 0
    {
      this.color := color;
      x, y, radius := 0, 0, 0;
    }

    method SetX(v: int)
      modifies this
      ensures x == v && y == old(y) && radius == old(radius)
    {
      x := v;
    }

    method SetY(v: int)
      modifies this
      ensures y == v && x == old(x) && radius == old(radius)
    {
      y := v;
    }

    method SetRadius(v: int)
      modifies this
      ensures radius == v && x == old(x) && y == old(y)
    {
      radius := v;
    }

    function Draw(): string
      reads this
    {
      Drawing(color, x, y, radius)
    }
  }

  /** The factory's static map, as one object. `created` lists the
      colours of the circles it made, in order: the "Creating circle of
      color" lines. */
  class ShapeFactory {
    var circleMap: map<string, Circle>
    var created: seq<string>

    /** Every circle is filed under its own colour, and one circle was
        made for each colour in the map, never two. */
    predicate Valid()
      reads this
    {
      (forall c :: c in circleMap ==> circleMap[c].color == c)
      && NoDup(created)
      && (forall c :: c in created ==> c in circleMap)
      && (forall c :: c in circleMap ==> c in created)
    }

    constructor ()
      ensures Valid() && circleMap == map[] && created == []
    {
      circleMap := map[];
      created := [];
    }

    /** computeIfAbsent: the circle filed under `color`, made and filed
        first when there is none. */
    method GetCircle(color: string) returns (c: Circle)
      requires Valid()
      modifies this
      ensures Valid()
      ensures c.color == color && color in circleMap && circleMap[color] == c
      ensures color in old(circleMap) ==> c == old(circleMap)[color] && circleMap == old(circleMap) && created == old(created)
      ensures color !in old(circleMap) ==>
        fresh(c) && c.x == 0 && c.y == 0 && c.radius == 0
        && circleMap == old(circleMap)[color := c] && created == old(created) + [color]
    {
      if color in circleMap {
        c := circleMap[color];
      } else {
        c := new Circle(color);
        circleMap := circleMap[color := c];
        created := created + [color];
      }
    }
  }
}

module FlyweightScenarios {
  import opened Common
  import opened Flyweight

  /** Two requests for one colour get one circle: moving it through one
      holder moves it for the other. Another colour gets another circle. */
  method SharedCircle() returns (red1: Circle, red2: Circle, blue: Circle)
    ensures red1 == red2 && red1 != blue
    ensures red2.x == 5 && blue.x == 0
  {
    var factory := new ShapeFactory();
    red1 := factory.GetCircle("Red");
    red2 := factory.GetCircle("Red");
    blue := factory.GetCircle("Blue");
    red1.SetX(5);
  }

  /** The colours occurring in a list. */
  function Distinct(colors: seq<string>): set<string>
  {
    set c | c in colors
  }

  lemma DistinctSnoc(colors: seq<string>, c: string)
    ensures Distinct(colors + [c]) == Distinct(colors) + {c}
  {
  }

  /** One round of the demo's second loop: get the circle of a colour, place
      it, draw it. */
  method PlaceAndDraw(factory: ShapeFactory, color: string, x: int, y: int, r: int) returns (line: string)
    requires factory.Valid()
    modifies factory, factory.circleMap.Values
    ensures factory.Valid()
    ensures factory.circleMap.Keys == old(factory.circleMap.Keys) + {color}
    ensures forall c :: c in factory.circleMap.Values ==> c in old(factory.circleMap.Values) || fresh(c)
    ensures line == Drawing(color, x, y, r)
  {
    var circle := factory.GetCircle(color);
    circle.SetX(x);
    circle.SetY(y);
    circle.SetRadius(r);
    line := circle.Draw();
  }

  /** The first `n` lines drawn are those of the first `n` colours and
      places. */
  predicate Drawn(lines: seq<string>, colors: seq<string>, places: seq<(int, int, int)>, n: nat)
    requires n <= |colors| == |places|
  {
    |lines| == n && forall k :: 0 <= k < n ==> lines[k] == Drawing(colors[k], places[k].0, places[k].1, places[k].2)
  }

  lemma DrawnSnoc(lines: seq<string>, colors: seq<string>, places: seq<(int, int, int)>, n: nat)
    requires n < |colors| == |places| && Drawn(lines, colors, places, n)
    ensures Drawn(lines + [Drawing(colors[n], places[n].0, places[n].1, places[n].2)], colors, places, n + 1)
  {
    var next := lines + [Drawing(colors[n], places[n].0, places[n].1, places[n].2)];
    forall k | 0 <= k < n + 1
      ensures next[k] == Drawing(colors[k], places[k].0, places[k].1, places[k].2)
    {
      if k < n {
        assert next[k] == lines[k];
      }
    }
  }

  /** The demo's loop body for the i-th colour, with what the loop keeps. */
  method DrawNext(factory: ShapeFactory, colors: seq<string>, places: seq<(int, int, int)>, i: nat, lines: seq<string>)
    returns (next: seq<string>)
    requires i < |colors| == |places| && |lines| == i
    requires factory.Valid() && factory.circleMap.Keys == Distinct(colors[..i])
    modifies factory, factory.circleMap.Values
    ensures factory.Valid() && factory.circleMap.Keys == Distinct(colors[..i + 1])
    ensures forall c :: c in factory.circleMap.Values ==> c in old(factory.circleMap.Values) || fresh(c)
    ensures next == lines + [Drawing(colors[i], places[i].0, places[i].1, places[i].2)]
  {
    var color, place := colors[i], places[i];
    assert colors[..i + 1] == colors[..i] + [color];
    DistinctSnoc(colors[..i], color);
    var line := PlaceAndDraw(factory, color, place.0, place.1, place.2);
    next := lines + [line];
  }

  /** The demo's second loop over the colours it happened to pick: each
      line shows the colour asked for and the values just set, and the
      factory ends up with one circle per distinct colour, made once. */
  method Application(colors: seq<string>, places: seq<(int, int, int)>) returns (lines: seq<string>, factory: ShapeFactory)
    requires |places| == |colors|
    ensures Drawn(lines, colors, places, |colors|)
    ensures factory.Valid()
    ensures factory.circleMap.Keys == Distinct(colors)
    ensures |factory.created| == |factory.circleMap.Keys|
  {
    factory := new ShapeFactory();
    lines := [];
    var i := 0;
    while i < |colors|
      invariant 0 <= i <= |colors|
      invariant fresh(factory) && forall c :: c in factory.circleMap.Values ==> fresh(c)
      invariant factory.Valid() && factory.circleMap.Keys == Distinct(colors[..i])
      invariant Drawn(lines, colors, places, i)
    {
      DrawnSnoc(lines, colors, places, i);
      lines := DrawNext(factory, colors, places, i, lines);
      i := i + 1;
    }
    assert colors[..i] == colors;
    NoDupCard(factory.created, factory.circleMap.Keys);
  }

  /** A list without repetitions has as many elements as it has distinct
      members. */
  lemma {:induction false} NoDupCard(s: seq<string>, keys: set<string>)
    requires NoDup(s) && forall c :: c in s <==> c in keys
    ensures |s| == |keys|
  {
    if s != [] {
      var last := s[|s| - 1];
      var init := s[..|s| - 1];
      assert forall c :: c in init <==> c in keys - {last} by {
        assert s == init + [last];
        forall c | c in init ensures c != last {
          var k :| 0 <= k < |init| && init[k] == c;
          assert s[k] == c;
        }
      }
      NoDupCard(init, keys - {last});
    } else {
      assert keys == {};
    }
  }
}
