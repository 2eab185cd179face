/**
 * The polygon-drawing state of the map (components/LeafletMap.tsx): whether the user is
 * drawing, the vertices placed so far, the finished polygons and the colour of each dataset
 * name. The answer to the name prompt and the random colour draw are parameters.
 */
module MapDrawing {
  import opened Types
  import Text
  import Lists
  import Colors

  /** A click this close to the first vertex, on both axes, closes the shape. */
  const ClosingTolerance: real := 0.0001
  const MinPoints: nat := 3
  const MaxPoints: nat := 12

  /** The colours the component starts with. */
  const InitialColors: map<string, string> :=
    map["Dataset A" := "#8B5CF6", "Dataset B" := "#10B981", "Dataset C" := "#F59E0B"]

  /** The four state fields of the component, as one value. */
  datatype DrawState = DrawState(
    drawing: bool,
    tempPolygon: seq<LatLng>,
    polygons: seq<PolygonData>,
    datasetColors: map<string, string>)

  const InitialState := DrawState(false, [], [], InitialColors)

  function Abs(x: real): real
  {
    if x < 0.0 then -x else x
  }

  /** The click closes the shape: three vertices exist and the click is near the first. */
  predicate ClosesShape(temp: seq<LatLng>, p: LatLng)
  {
    |temp| >= MinPoints &&
    Abs(temp[0].lat - p.lat) < ClosingTolerance && Abs(temp[0].lng - p.lng) < ClosingTolerance
  }

  /**
   * `window.prompt(...)?.trim()` followed by the emptiness check: the dataset name to use, or
   * None when the prompt was dismissed or answered with white space only.
   */
  function DatasetName(prompt: Option<string>): (name: Option<string>)
    ensures name.None? <==> prompt.None? || Text.AllWhitespace(prompt.value)
    ensures name.Some? ==> name.value == Text.Trim(prompt.value)
    ensures name.Some? ==> name.value != "" && Text.IsTrimmed(name.value) && Text.Trim(name.value) == name.value
  {
    match prompt
    case None => None
    case Some(answer) =>
      Text.TrimEmptyIffBlank(answer);
      Text.TrimFixedPoints(Text.Trim(answer));
      var trimmed := Text.Trim(answer);
      if trimmed == "" then None else Some(trimmed)
  }

  /** `datasetColors[name]` when it is truthy: present and not the empty string. */
  function StoredColor(colors: map<string, string>, name: string): Option<string>
  {
    if name in colors && colors[name] != "" then Some(colors[name]) else None
  }

  /** The colour a polygon of dataset `name` gets. */
  function ColorFor(colors: map<string, string>, name: string, draw: nat): string
  {
    match StoredColor(colors, name)
    case Some(c) => c
    case None => Colors.ColorAsWritten(draw)
  }

  /** The dataset colours after naming a polygon `name`: a new entry only for a new name. */
  function ColorsAfter(colors: map<string, string>, name: string, draw: nat): map<string, string>
  {
    if StoredColor(colors, name).Some? then colors else colors[name := Colors.ColorAsWritten(draw)]
  }

  /** `finishPolygon`. */
  function Finished(s: DrawState, prompt: Option<string>, draw: nat): (r: DrawState)
    ensures |s.tempPolygon| < MinPoints || DatasetName(prompt).None? ==> r == s
    ensures |s.tempPolygon| >= MinPoints && DatasetName(prompt).Some? ==>
            (!r.drawing && r.tempPolygon == [] &&
             |r.polygons| == |s.polygons| + 1 && r.polygons[..|s.polygons|] == s.polygons &&
             r.polygons[|s.polygons|].coords == s.tempPolygon &&
             s.datasetColors.Keys <= r.datasetColors.Keys)
  {
    if |s.tempPolygon| < MinPoints then s
    else match DatasetName(prompt)
      case None => s
      case Some(name) =>
        DrawState(
          false,
          [],
          s.polygons + [PolygonData(s.tempPolygon, name, ColorFor(s.datasetColors, name, draw))],
          ColorsAfter(s.datasetColors, name, draw))
  }

  /** `handleMapClick` behind the click handler's `drawing` guard. */
  function Clicked(s: DrawState, p: LatLng, prompt: Option<string>, draw: nat): (r: DrawState)
    ensures !s.drawing ==> r == s
    ensures |s.tempPolygon| <= MaxPoints ==> |r.tempPolygon| <= MaxPoints
  {
    if !s.drawing then s
    else if ClosesShape(s.tempPolygon, p) then Finished(s, prompt, draw)
    else if |s.tempPolygon| >= MaxPoints then s
    else s.(tempPolygon := s.tempPolygon + [p])
  }

  /** The click handler of the marker at position `i` of the temporary polygon. */
  function MarkerClicked(s: DrawState, i: nat, prompt: Option<string>, draw: nat): (r: DrawState)
    ensures i != 0 || |s.tempPolygon| < MinPoints ==> r == s
    ensures i == 0 && |s.tempPolygon| >= MinPoints ==> r == Finished(s, prompt, draw)
  {
    if i == 0 && |s.tempPolygon| >= MinPoints then Finished(s, prompt, draw) else s
  }

  /** `deletePolygon`. */
  function Deleted(s: DrawState, index: int): (r: DrawState)
    ensures r.drawing == s.drawing && r.tempPolygon == s.tempPolygon && r.datasetColors == s.datasetColors
    ensures |r.polygons| == if 0 <= index < |s.polygons| then |s.polygons| - 1 else |s.polygons|
  {
    s.(polygons := Lists.Without(s.polygons, index))
  }

  /** The "Start Drawing" / "Cancel Drawing" button. */
  function ToggledDrawing(s: DrawState): (r: DrawState)
    ensures r.drawing != s.drawing
    ensures r.tempPolygon == s.tempPolygon && r.polygons == s.polygons && r.datasetColors == s.datasetColors
  {
    s.(drawing := !s.drawing)
  }

  /**
   * A finished polygon is well formed for the colour table: 3 to 12 vertices, a trimmed
   * non-empty name, and the colour its dataset has in the table.
   */
  predicate WellFormed(p: PolygonData, colors: map<string, string>)
  {
    MinPoints <= |p.coords| <= MaxPoints &&
    p.dataSource != "" && Text.IsTrimmed(p.dataSource) &&
    p.dataSource in colors && colors[p.dataSource] == p.color
  }

  /** No dataset colour is the empty string, so a stored colour is always found. */
  predicate ColorsNonEmpty(colors: map<string, string>)
  {
    forall name :: name in colors ==> colors[name] != ""
  }

  /** What every reachable state satisfies. */
  predicate Inv(s: DrawState)
  {
    |s.tempPolygon| <= MaxPoints &&
    ColorsNonEmpty(s.datasetColors) &&
    forall k :: 0 <= k < |s.polygons| ==> WellFormed(s.polygons[k], s.datasetColors)
  }

  lemma InitialStateInv()
    ensures Inv(InitialState)
  {
  }

  /** A click while not drawing changes nothing. */
  lemma ClickWhileIdle(s: DrawState, p: LatLng, prompt: Option<string>, draw: nat)
    requires !s.drawing
    ensures Clicked(s, p, prompt, draw) == s
  {
  }

  /**
   * A closing click finishes the polygon and adds no vertex: the temporary polygon is either
   * unchanged (the name was refused) or emptied.
   */
  lemma ClosingClickFinishes(s: DrawState, p: LatLng, prompt: Option<string>, draw: nat)
    requires s.drawing && ClosesShape(s.tempPolygon, p)
    ensures Clicked(s, p, prompt, draw) == Finished(s, prompt, draw)
    ensures Clicked(s, p, prompt, draw).tempPolygon in {s.tempPolygon, []}
  {
  }

  /** A non-closing click on a full temporary polygon is refused and changes nothing. */
  lemma ClickOnFullPolygon(s: DrawState, p: LatLng, prompt: Option<string>, draw: nat)
    requires s.drawing && !ClosesShape(s.tempPolygon, p) && |s.tempPolygon| >= MaxPoints
    ensures Clicked(s, p, prompt, draw) == s
  {
  }

  /** Any other click while drawing appends exactly the clicked point and touches nothing else. */
  lemma ClickAppends(s: DrawState, p: LatLng, prompt: Option<string>, draw: nat)
    requires s.drawing && !ClosesShape(s.tempPolygon, p) && |s.tempPolygon| < MaxPoints
    ensures var t := Clicked(s, p, prompt, draw);
            |t.tempPolygon| == |s.tempPolygon| + 1 &&
            t.tempPolygon[..|s.tempPolygon|] == s.tempPolygon && t.tempPolygon[|s.tempPolygon|] == p &&
            t.drawing == s.drawing && t.polygons == s.polygons && t.datasetColors == s.datasetColors
  {
  }

  /** Fewer than three vertices, a dismissed prompt or a blank name: finishing changes nothing. */
  lemma FinishRefused(s: DrawState, prompt: Option<string>, draw: nat)
    requires |s.tempPolygon| < MinPoints || prompt.None? || Text.AllWhitespace(prompt.value)
    ensures Finished(s, prompt, draw) == s
  {
  }

  /**
   * A successful finish appends exactly one polygon, made of the temporary vertices under the
   * trimmed name, clears the temporary polygon and stops drawing.
   */
  lemma FinishAppends(s: DrawState, prompt: Option<string>, draw: nat)
    requires |s.tempPolygon| >= MinPoints && prompt.Some? && !Text.AllWhitespace(prompt.value)
    ensures var t := Finished(s, prompt, draw);
            var name := Text.Trim(prompt.value);
            t.polygons == s.polygons + [PolygonData(s.tempPolygon, name, ColorFor(s.datasetColors, name, draw))] &&
            t.tempPolygon == [] && !t.drawing
  {
  }

  /** A finish with enough vertices and a usable name produces this state. */
  lemma FinishedNamed(s: DrawState, prompt: Option<string>, draw: nat)
    requires |s.tempPolygon| >= MinPoints && DatasetName(prompt).Some?
    ensures var name := DatasetName(prompt).value;
            Finished(s, prompt, draw) ==
            DrawState(false, [],
                      s.polygons + [PolygonData(s.tempPolygon, name, ColorFor(s.datasetColors, name, draw))],
                      ColorsAfter(s.datasetColors, name, draw))
  {
  }

  /** The colour table and the chosen colour, for a name already in the table and for a new one. */
  lemma ColorChoice(colors: map<string, string>, name: string, draw: nat)
    requires ColorsNonEmpty(colors)
    ensures name in colors ==>
              ColorFor(colors, name, draw) == colors[name] && ColorsAfter(colors, name, draw) == colors
    ensures name !in colors ==>
              ColorFor(colors, name, draw) == Colors.ColorAsWritten(draw) &&
              ColorsAfter(colors, name, draw) == colors[name := Colors.ColorAsWritten(draw)]
  {
  }

  /**
   * A known dataset name reuses its stored colour and leaves the table alone; a new name gets
   * the drawn colour in exactly one new entry, every other entry unchanged.
   */
  lemma FinishColors(s: DrawState, prompt: Option<string>, draw: nat)
    requires ColorsNonEmpty(s.datasetColors)
    requires |s.tempPolygon| >= MinPoints && prompt.Some? && !Text.AllWhitespace(prompt.value)
    ensures var t := Finished(s, prompt, draw);
            var name := Text.Trim(prompt.value);
            var added := t.polygons[|t.polygons| - 1];
            (name in s.datasetColors ==>
               added.color == s.datasetColors[name] && t.datasetColors == s.datasetColors) &&
            (name !in s.datasetColors ==>
               added.color == Colors.ColorAsWritten(draw) &&
               t.datasetColors.Keys == s.datasetColors.Keys + {name} &&
               |t.datasetColors| == |s.datasetColors| + 1 &&
               forall other :: other in s.datasetColors ==> t.datasetColors[other] == s.datasetColors[other])
  {
    var name := Text.Trim(prompt.value);
    assert DatasetName(prompt) == Some(name);
    FinishedNamed(s, prompt, draw);
    ColorChoice(s.datasetColors, name, draw);
    if name !in s.datasetColors {
      var after := s.datasetColors[name := Colors.ColorAsWritten(draw)];
      assert after.Keys == s.datasetColors.Keys + {name};
      assert |after| == |s.datasetColors| + 1;
    }
  }

  /** Deleting removes exactly the polygon at `index`, keeping the others in order; any other index changes nothing. */
  lemma DeleteRemoves(s: DrawState, index: int)
    ensures var t := Deleted(s, index);
            t.drawing == s.drawing && t.tempPolygon == s.tempPolygon && t.datasetColors == s.datasetColors &&
            t.polygons == if 0 <= index < |s.polygons| then s.polygons[..index] + s.polygons[index + 1..]
                          else s.polygons
  {
    Lists.WithoutIsSplice(s.polygons, index);
  }

  /** The colour table after naming a polygon extends the old one and holds the polygon's colour. */
  lemma ColorsAfterExtends(colors: map<string, string>, name: string, draw: nat)
    requires ColorsNonEmpty(colors)
    ensures var after := ColorsAfter(colors, name, draw);
            ColorsNonEmpty(after) &&
            (forall other :: other in colors ==> other in after && after[other] == colors[other]) &&
            name in after && after[name] == ColorFor(colors, name, draw)
  {
  }

  /** Well-formed polygons stay well formed when the colour table only grows. */
  lemma WellFormedUnderExtension(polygons: seq<PolygonData>, colors: map<string, string>, after: map<string, string>)
    requires forall k :: 0 <= k < |polygons| ==> WellFormed(polygons[k], colors)
    requires forall other :: other in colors ==> other in after && after[other] == colors[other]
    ensures forall k :: 0 <= k < |polygons| ==> WellFormed(polygons[k], after)
  {
    forall k | 0 <= k < |polygons| ensures WellFormed(polygons[k], after) {
      assert WellFormed(polygons[k], colors);
    }
  }

  lemma FinishedInv(s: DrawState, prompt: Option<string>, draw: nat)
    requires Inv(s)
    ensures Inv(Finished(s, prompt, draw))
  {
    if |s.tempPolygon| >= MinPoints && DatasetName(prompt).Some? {
      var name := DatasetName(prompt).value;
      var colors := ColorsAfter(s.datasetColors, name, draw);
      var added := PolygonData(s.tempPolygon, name, ColorFor(s.datasetColors, name, draw));
      FinishedNamed(s, prompt, draw);
      ColorsAfterExtends(s.datasetColors, name, draw);
      WellFormedUnderExtension(s.polygons, s.datasetColors, colors);
      AppendWellFormed(s.polygons, added, colors);
    }
  }

  lemma AppendWellFormed(polygons: seq<PolygonData>, added: PolygonData, colors: map<string, string>)
    requires forall k :: 0 <= k < |polygons| ==> WellFormed(polygons[k], colors)
    requires WellFormed(added, colors)
    ensures forall k :: 0 <= k < |polygons + [added]| ==> WellFormed((polygons + [added])[k], colors)
  {
    var ps := polygons + [added];
    forall k | 0 <= k < |ps| ensures WellFormed(ps[k], colors) {
      if k < |polygons| { assert ps[k] == polygons[k]; }
    }
  }

  lemma DeletedInv(s: DrawState, index: int)
    requires Inv(s)
    ensures Inv(Deleted(s, index))
  {
    var d := Deleted(s, index).polygons;
    Lists.WithoutIsSplice(s.polygons, index);
    forall k | 0 <= k < |d| ensures WellFormed(d[k], s.datasetColors) {
      assert d[k] == s.polygons[if 0 <= index < |s.polygons| && k >= index then k + 1 else k];
    }
  }

  /** Every transition keeps the invariant: in particular the temporary polygon never exceeds 12 points. */
  lemma TransitionsKeepInv(s: DrawState, p: LatLng, i: nat, index: int, prompt: Option<string>, draw: nat)
    requires Inv(s)
    ensures Inv(Clicked(s, p, prompt, draw))
    ensures Inv(MarkerClicked(s, i, prompt, draw))
    ensures Inv(Finished(s, prompt, draw))
    ensures Inv(Deleted(s, index))
    ensures Inv(ToggledDrawing(s))
  {
    FinishedInv(s, prompt, draw);
    DeletedInv(s, index);
  }

  /** Under the invariant, two polygons of the same dataset have the same colour. */
  lemma SameDatasetSameColor(s: DrawState, i: nat, j: nat)
    requires Inv(s) && i < |s.polygons| && j < |s.polygons|
    requires s.polygons[i].dataSource == s.polygons[j].dataSource
    ensures s.polygons[i].color == s.polygons[j].color
  {
    assert WellFormed(s.polygons[i], s.datasetColors) && WellFormed(s.polygons[j], s.datasetColors);
  }

  /** The component, with its four state fields. */
  class LeafletMap {
    var drawing: bool
    var tempPolygon: seq<LatLng>
    var polygons: seq<PolygonData>
    var datasetColors: map<string, string>

    function State(): DrawState
      reads this
    {
      DrawState(drawing, tempPolygon, polygons, datasetColors)
    }

    ghost predicate Valid()
      reads this
    {
      Inv(State())
    }

    constructor ()
      ensures Valid() && State() == InitialState
    {
      drawing := false;
      tempPolygon := [];
      polygons := [];
      datasetColors := InitialColors;
    }

    method FinishPolygon(prompt: Option<string>, draw: nat)
      requires Valid()
      modifies this
      ensures Valid()
      ensures State() == Finished(old(State()), prompt, draw)
    {
      ghost var before := State();
      FinishedInv(before, prompt, draw);
      if |tempPolygon| < MinPoints {
        return;
      }
      var datasetName := DatasetName(prompt);
      if datasetName.None? {
        return;
      }
      FinishedNamed(before, prompt, draw);
      var name := datasetName.value;
      var color: string;
      var stored := StoredColor(datasetColors, name);
      if stored.Some? {
        color := stored.value;
      } else {
        color := Colors.ColorAsWritten(draw);
        datasetColors := datasetColors[name := color];
      }
      polygons := polygons + [PolygonData(tempPolygon, name, color)];
      tempPolygon := [];
      drawing := false;
      assert datasetColors == ColorsAfter(before.datasetColors, name, draw);
      assert color == ColorFor(before.datasetColors, name, draw);
    }

    method HandleMapClick(p: LatLng, prompt: Option<string>, draw: nat)
      requires Valid()
      modifies this
      ensures Valid()
      ensures State() == Clicked(old(State()), p, prompt, draw)
    {
      if !drawing {
        return;
      }
      if ClosesShape(tempPolygon, p) {
        FinishPolygon(prompt, draw);
        return;
      }
      if |tempPolygon| >= MaxPoints {
        return;
      }
      tempPolygon := tempPolygon + [p];
    }

    /** A click on the marker of vertex `i`; only the first vertex reacts. */
    method ClickMarker(i: nat, prompt: Option<string>, draw: nat)
      requires Valid()
      requires i < |tempPolygon|
      modifies this
      ensures Valid()
      ensures State() == MarkerClicked(old(State()), i, prompt, draw)
    {
      if i == 0 && |tempPolygon| >= MinPoints {
        FinishPolygon(prompt, draw);
      }
    }

    method DeletePolygon(index: int)
      requires Valid()
      modifies this
      ensures Valid()
      ensures State() == Deleted(old(State()), index)
    {
      DeletedInv(State(), index);
      polygons := Lists.Without(polygons, index);
    }

    method ToggleDrawing()
      requires Valid()
      modifies this
      ensures Valid()
      ensures State() == ToggledDrawing(old(State()))
    {
      drawing := !drawing;
    }
  }
}
