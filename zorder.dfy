/** Stacking order on drag start (`updateZIndex`): the moved widget is raised
    above every other widget of the dashboard. */
module ZOrder {
  import opened Values

  /** One step of the scan: a widget with another id whose z is at least the
      running maximum bumps the maximum to its z plus one. */
  function Raise(maxZ: int, movedId: int, w: WidgetRecord): (r: int)
    // the maximum never drops, and ends above every other widget it meets
    ensures maxZ <= r
    ensures movedId != w.id ==> w.z < r
    // it moves only to just above the widget it meets
    ensures r == maxZ || (movedId != w.id && r == w.z + 1)
  {
    if maxZ <= w.z && movedId != w.id then w.z + 1 else maxZ
  }

  /** The running maximum after scanning `ws` in order, starting from the moved
      widget's own z. */
  function NextZ(z: int, movedId: int, ws: seq<WidgetRecord>): (r: int)
    ensures z <= r
  {
    if ws == [] then z else Raise(NextZ(z, movedId, ws[..|ws| - 1]), movedId, ws[|ws| - 1])
  }

  /** `r` is strictly greater than the z of every widget in `ws` whose id is
      not `movedId`. */
  ghost predicate AboveOthers(r: int, movedId: int, ws: seq<WidgetRecord>) {
    forall j :: 0 <= j < |ws| && ws[j].id != movedId ==> ws[j].z < r
  }

  /** `r` is the moved widget's z or one more than the z of another widget. */
  ghost predicate Attained(r: int, z: int, movedId: int, ws: seq<WidgetRecord>) {
    r == z || exists j :: 0 <= j < |ws| && ws[j].id != movedId && r == ws[j].z + 1
  }

  /** The new z never drops below the old one and tops every other widget. */
  lemma {:induction false} NextZAbove(z: int, movedId: int, ws: seq<WidgetRecord>)
    ensures z <= NextZ(z, movedId, ws)
    ensures AboveOthers(NextZ(z, movedId, ws), movedId, ws)
  {
    if ws != [] {
      var init := ws[..|ws| - 1];
      NextZAbove(z, movedId, init);
      assert forall j :: 0 <= j < |init| ==> init[j] == ws[j];
    }
  }

  /** The new z is no larger than it has to be: it is the old z or just above
      some other widget. */
  lemma {:induction false} NextZAttained(z: int, movedId: int, ws: seq<WidgetRecord>)
    ensures Attained(NextZ(z, movedId, ws), z, movedId, ws)
  {
    if ws != [] {
      var init := ws[..|ws| - 1];
      NextZAttained(z, movedId, init);
      var m := NextZ(z, movedId, init);
      if m != z && NextZ(z, movedId, ws) == m {
        var j :| 0 <= j < |init| && init[j].id != movedId && m == init[j].z + 1;
        assert ws[j] == init[j];
      } else if NextZ(z, movedId, ws) != m {
        assert ws[|ws| - 1].id != movedId;
      }
    }
  }

  /** No value that is at least the old z and tops every other widget lies
      below the new z. */
  lemma NextZLeast(z: int, movedId: int, ws: seq<WidgetRecord>, v: int)
    requires z <= v && AboveOthers(v, movedId, ws)
    ensures NextZ(z, movedId, ws) <= v
  {
    NextZAttained(z, movedId, ws);
  }

  /** A widget already strictly on top keeps its z. */
  lemma NextZOnTop(z: int, movedId: int, ws: seq<WidgetRecord>)
    requires AboveOthers(z, movedId, ws)
    ensures NextZ(z, movedId, ws) == z
  {
    NextZAbove(z, movedId, ws);
    NextZAttained(z, movedId, ws);
  }

  /** Moving the widget with z 5 among siblings with z 7, 7 and 10 gives 11. */
  lemma NextZExample()
    ensures NextZ(5, 1, [WidgetRecord(1, 5, "Chart", "A"), WidgetRecord(2, 7, "Chart", "B"),
                         WidgetRecord(3, 7, "Chart", "C"), WidgetRecord(4, 10, "Chart", "D")]) == 11
  {
    var a, b, c, d := WidgetRecord(1, 5, "Chart", "A"), WidgetRecord(2, 7, "Chart", "B"),
                      WidgetRecord(3, 7, "Chart", "C"), WidgetRecord(4, 10, "Chart", "D");
    assert [a, b, c, d][..3] == [a, b, c] && [a, b, c][..2] == [a, b] && [a, b][..1] == [a];
    assert [a][..0] == [];
    assert NextZ(5, 1, [a]) == 5;
    assert NextZ(5, 1, [a, b]) == 8;
    assert NextZ(5, 1, [a, b, c]) == 8;
  }

  /** The scan of `updateZIndex` over the dashboard's widgets. */
  method ComputeZIndex(z: int, movedId: int, ws: seq<WidgetRecord>) returns (maxZ: int)
    ensures maxZ == NextZ(z, movedId, ws)
    ensures z <= maxZ
    ensures AboveOthers(maxZ, movedId, ws) && Attained(maxZ, z, movedId, ws)
  {
    maxZ := z;
    var i := 0;
    while i < |ws|
      invariant 0 <= i <= |ws|
      invariant maxZ == NextZ(z, movedId, ws[..i])
      invariant z <= maxZ
      invariant AboveOthers(maxZ, movedId, ws[..i]) && Attained(maxZ, z, movedId, ws[..i])
    {
      var w := ws[i];
      assert ws[..i + 1][..i] == ws[..i];
      if maxZ <= w.z && movedId != w.id {
        maxZ := w.z + 1;
      }
      i := i + 1;
    }
    assert ws[..|ws|] == ws;
  }
}
