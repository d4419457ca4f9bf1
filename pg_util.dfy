/** pg_util.py: picking the nearest sprite of a group, justifying one line
    of text inside a block, and stacking rendered lines into a block. */
module PgUtil {
  import opened Util
  import opened Geometry

  // ---------------------------------------------------------------------
  // nearest_of_group
  // ---------------------------------------------------------------------

  /** The sprite nearest to `pos` among the group's rect centres, given in
      the group's iteration order, as an index: a later sprite replaces the
      current choice only when it is strictly nearer. */
  function Nearest(pos: Vec2, centers: seq<Vec2>): (r: Option<nat>)
    ensures r.Some? ==> r.value < |centers|
  {
    if centers == [] then None
    else
      var best := Nearest(pos, centers[..|centers| - 1]);
      var last := |centers| - 1;
      if best.None? || DistSq(pos, centers[last]) < DistSq(pos, centers[best.value]) then Some(last)
      else best
  }

  /** None exactly for an empty group; otherwise a sprite at minimal squared
      distance, and the first such sprite in iteration order. */
  lemma {:induction false} NearestIsFirstMinimum(pos: Vec2, centers: seq<Vec2>)
    ensures Nearest(pos, centers).None? <==> centers == []
    ensures Nearest(pos, centers).Some? ==>
      var k := Nearest(pos, centers).value;
      && k < |centers|
      && (forall j :: 0 <= j < |centers| ==> DistSq(pos, centers[k]) <= DistSq(pos, centers[j]))
      && (forall j :: 0 <= j < k ==> DistSq(pos, centers[k]) < DistSq(pos, centers[j]))
    decreases |centers|
  {
    if centers != [] {
      var init := centers[..|centers| - 1];
      NearestIsFirstMinimum(pos, init);
      assert forall j :: 0 <= j < |init| ==> init[j] == centers[j];
    }
  }

  /** nearest_of_group: one pass over the group keeping the smallest
      squared distance seen so far (starting from infinity, so the first
      sprite is always taken). */
  method NearestOfGroup(pos: Vec2, centers: seq<Vec2>) returns (sprite: Option<nat>)
    ensures sprite == Nearest(pos, centers)
  {
    sprite := None;
    var minDist: real := 0.0;
    for i := 0 to |centers|
      invariant sprite == Nearest(pos, centers[..i])
      invariant sprite.Some? ==> minDist == DistSq(pos, centers[sprite.value])
    {
      assert centers[..i + 1][..i] == centers[..i];
      var dist := DistSq(pos, centers[i]);
      if sprite.None? || dist < minDist {
        minDist := dist;
        sprite := Some(i);
      }
    }
    assert centers[..|centers|] == centers;
  }

  // ---------------------------------------------------------------------
  // justify_rect
  // ---------------------------------------------------------------------

  /** str.lower() on ASCII letters (other characters are kept). */
  function Lower(s: string): (r: string)
    ensures |r| == |s|
    ensures forall i :: 0 <= i < |s| ==> r[i] == (if 'A' <= s[i] <= 'Z' then (s[i] as int + 32) as char else s[i])
  {
    if s == [] then []
    else [if 'A' <= s[0] <= 'Z' then (s[0] as int + 32) as char else s[0]] + Lower(s[1..])
  }

  /** Python's `a in b` on strings: a is a contiguous part of b (the empty
      string is part of every string). */
  predicate Occurs(a: string, b: string)
    decreases |b|
  {
    a <= b || (b != [] && Occurs(a, b[1..]))
  }

  /** justify_rect: works on a copy; 'left' keeps it, any part of 'center'
      (including the empty string) centres it, 'right' aligns its right
      edge, anything else keeps it. Only the horizontal position can change. */
  function JustifyRect(rect: Rect, justify: string, totWidth: real): (r: Rect)
    ensures r.top == rect.top && r.width == rect.width && r.height == rect.height
    ensures Lower(justify) == "left" ==> r == rect
    ensures Lower(justify) != "left" && Occurs(Lower(justify), "center") ==> r.CenterX() == totWidth / 2.0
    ensures Lower(justify) == "right" ==> r.Right() == totWidth
    ensures Lower(justify) != "left" && !Occurs(Lower(justify), "center") && Lower(justify) != "right" ==> r == rect
  {
    var j := Lower(justify);
    if j == "left" then rect
    else if Occurs(j, "center") then rect.WithCenterX(totWidth / 2.0)
    else if j == "right" then rect.WithRight(totWidth)
    else rect
  }

  /** Upper-case 'CENTER' centres: the comparison is case-insensitive. */
  lemma JustifyUpperCenter(rect: Rect, totWidth: real)
    ensures JustifyRect(rect, "CENTER", totWidth).CenterX() == totWidth / 2.0
  {
    assert Lower("CENTER") == "center";
    assert Occurs("center", "center");
  }

  /** Any part of 'center' centres: a prefix such as 'cent', */
  lemma JustifyPrefixOfCenter(rect: Rect, totWidth: real)
    ensures JustifyRect(rect, "cent", totWidth).CenterX() == totWidth / 2.0
  {
    assert Lower("cent") == "cent";
    assert Occurs("cent", "center");
  }

  /** a part further in such as 'ter', */
  lemma JustifyInnerPartOfCenter(rect: Rect, totWidth: real)
    ensures JustifyRect(rect, "ter", totWidth).CenterX() == totWidth / 2.0
  {
    assert Lower("ter") == "ter";
    assert "center"[3..] == "ter";
    assert Occurs("ter", "center"[3..]);
    assert Occurs("ter", "center");
  }

  /** and even the empty string. */
  lemma JustifyEmptyCenters(rect: Rect, totWidth: real)
    ensures JustifyRect(rect, "", totWidth).CenterX() == totWidth / 2.0
  {
    assert Lower("") == "";
  }

  /** 'Right' aligns the right edge. */
  lemma JustifyRightExample(rect: Rect, totWidth: real)
    ensures JustifyRect(rect, "Right", totWidth).Right() == totWidth
  {
    assert Lower("Right") == "right";
    NotInCenter("right");
  }

  /** A justification that is no part of 'center', such as 'middle',
      leaves the rect as it was. */
  lemma JustifyUnknownExample(rect: Rect, totWidth: real)
    ensures JustifyRect(rect, "middle", totWidth) == rect
  {
    assert Lower("middle") == "middle";
    NotInCenter("middle");
  }

  /** A string of two or more characters whose first two are no pair of
      adjacent letters of 'center' is no part of it. */
  lemma NotInCenter(a: string)
    requires |a| >= 2 && a[..2] !in {"ce", "en", "nt", "te", "er"}
    ensures !Occurs(a, "center")
  {
    assert "center"[1..] == "enter";
    assert "enter"[1..] == "nter";
    assert "nter"[1..] == "ter";
    assert "ter"[1..] == "er";
    assert "er"[1..] == "r";
    assert "r"[1..] == "";
    PrefixPair(a, "center");
    PrefixPair(a, "enter");
    PrefixPair(a, "nter");
    PrefixPair(a, "ter");
    PrefixPair(a, "er");
    assert "center"[..2] == "ce" && "enter"[..2] == "en" && "nter"[..2] == "nt";
    assert "ter"[..2] == "te" && "er"[..2] == "er";
    assert !Occurs(a, "r");
  }

  /** A prefix of b with at least two characters shares b's first two. */
  lemma PrefixPair(a: string, b: string)
    requires |a| >= 2
    ensures a <= b ==> |b| >= 2 && a[..2] == b[..2]
  {
  }

  /** Justifying only ever depends on the lower-cased argument. */
  lemma JustifyCaseInsensitive(rect: Rect, a: string, b: string, totWidth: real)
    requires Lower(a) == Lower(b)
    ensures JustifyRect(rect, a, totWidth) == JustifyRect(rect, b, totWidth)
  {
  }

  // ---------------------------------------------------------------------
  // render_text's layout
  // ---------------------------------------------------------------------

  /** The sum of the heights of the rendered lines (sizes as width x height). */
  function TotalHeight(sizes: seq<Vec2>): real
  {
    if sizes == [] then 0.0 else TotalHeight(sizes[..|sizes| - 1]) + sizes[|sizes| - 1].y
  }

  /** max() of the widths; undefined on no lines. */
  function MaxWidth(sizes: seq<Vec2>): (r: real)
    requires sizes != []
    ensures forall i :: 0 <= i < |sizes| ==> sizes[i].x <= r
    ensures exists i :: 0 <= i < |sizes| && sizes[i].x == r
  {
    if |sizes| == 1 then sizes[0].x
    else
      var m := MaxWidth(sizes[..|sizes| - 1]);
      assert forall i :: 0 <= i < |sizes| - 1 ==> sizes[..|sizes| - 1][i] == sizes[i];
      if sizes[|sizes| - 1].x > m then sizes[|sizes| - 1].x else m
  }

  /** The block render_text draws: its size and where each line goes. */
  datatype Layout = Layout(width: real, height: real, lines: seq<Rect>)

  /** Where render_text blits line k: at the left edge, below the lines
      before it, justified within `totWidth`. */
  function LineRect(sizes: seq<Vec2>, k: nat, justify: string, totWidth: real): Rect
    requires k < |sizes|
  {
    JustifyRect(Rect(0.0, TotalHeight(sizes[..k]), sizes[k].x, sizes[k].y), justify, totWidth)
  }

  /** render_text after the lines were rendered: max() raises ValueError on
      an empty text; otherwise line i is placed at y = the heights of the
      lines before it, justified within the widest line. */
  method RenderLayout(sizes: seq<Vec2>, justify: string) returns (r: Result<Layout>)
    ensures r.Err? <==> sizes == []
    ensures r.Err? ==> r.error == ValueError
    ensures r.Ok? ==>
      && r.value.height == TotalHeight(sizes)
      && r.value.width == MaxWidth(sizes)
      && |r.value.lines| == |sizes|
      && forall i :: 0 <= i < |sizes| ==>
           r.value.lines[i] == JustifyRect(Rect(0.0, TotalHeight(sizes[..i]), sizes[i].x, sizes[i].y), justify, r.value.width)
  {
    var totHeight := TotalHeight(sizes);
    if sizes == [] {
      return Err(ValueError);
    }
    var totWidth := MaxWidth(sizes);
    var lines: seq<Rect> := [];
    var y0 := 0.0;
    for i := 0 to |sizes|
      invariant |lines| == i
      invariant y0 == TotalHeight(sizes[..i])
      invariant forall k :: 0 <= k < i ==> lines[k] == LineRect(sizes, k, justify, totWidth)
    {
      lines := lines + [LineRect(sizes, i, justify, totWidth)];
      assert sizes[..i + 1][..i] == sizes[..i];
      y0 := y0 + sizes[i].y;
    }
    r := Ok(Layout(totWidth, totHeight, lines));
  }

  /** Lines are stacked without gaps or overlaps: each line starts where the
      previous one ends, and the last one ends at the block's height. */
  lemma LinesStack(sizes: seq<Vec2>, i: nat)
    requires i < |sizes|
    ensures TotalHeight(sizes[..i + 1]) == TotalHeight(sizes[..i]) + sizes[i].y
    ensures i == |sizes| - 1 ==> TotalHeight(sizes[..i]) + sizes[i].y == TotalHeight(sizes)
  {
    assert sizes[..i + 1][..i] == sizes[..i];
    assert sizes[..|sizes|] == sizes;
  }

  /** With no negative heights, every line lies inside the block. */
  lemma {:induction false} PrefixHeightBounded(sizes: seq<Vec2>, i: nat)
    requires i <= |sizes|
    requires forall k :: 0 <= k < |sizes| ==> sizes[k].y >= 0.0
    ensures 0.0 <= TotalHeight(sizes[..i]) <= TotalHeight(sizes)
    decreases |sizes|
  {
    if i < |sizes| {
      var init := sizes[..|sizes| - 1];
      assert sizes[..i] == init[..i];
      PrefixHeightBounded(init, i);
      assert init[..|init|] == init;
    } else {
      assert sizes[..i] == sizes;
      if sizes != [] {
        var init := sizes[..|sizes| - 1];
        PrefixHeightBounded(init, |init|);
        assert init[..|init|] == init;
      }
    }
  }
}
