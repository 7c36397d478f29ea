/** The FITSFigure object: the fields its constructor initialises and its
    layer methods update, with each method proved to leave exactly the state
    that the matching function of module Registry describes. */
module Figure {
  import opened Naming
  import opened Registry
  import opened Downsampling
  import RegistryProperties

  class FITSFigure {
    /** `self.layers_list` */
    var layersList: seq<Layer>
    /** `self.ax1.collections` */
    var collections: seq<Primitive>
    /** `self.contour_counter` and `self.scatter_counter` */
    var contourCounter: nat
    var scatterCounter: nat
    /** `self.wcs.nx`, `self.wcs.ny` after downsampling */
    var nx: int
    var ny: int
    /** `self.extent`: the pixel-centre bounds (x0, x1, y0, y1) of the image */
    var extent: (real, real, real, real)

    /** The registry part of the object as a value. */
    function Snapshot(): State
      reads this
    {
      State(layersList, collections, contourCounter, scatterCounter)
    }

    /** Opening an image of naxis1 x naxis2 pixels; a non-zero downsample
        cuts both sizes to a multiple of it. */
    constructor (naxis1: nat, naxis2: nat, downsample: int)
      ensures Snapshot() == Initial
      ensures nx == Downsampled(naxis1, downsample) && ny == Downsampled(naxis2, downsample)
      ensures extent == (0.5, nx as real + 0.5, 0.5, ny as real + 0.5)
    {
      var w, h := naxis1 as int, naxis2 as int;
      if downsample != 0 {
        w := w - FloorMod(w, downsample);
        h := h - FloorMod(h, downsample);
      }
      layersList := [];
      collections := [];
      contourCounter := 0;
      scatterCounter := 0;
      nx := w;
      ny := h;
      extent := (0.5, w as real + 0.5, 0.5, h as real + 0.5);
    }

    /** layer_exists: true exactly when some entry carries the name. */
    method LayerExists(name: string) returns (found: bool)
      ensures found <==> Named(layersList, name)
    {
      for i := 0 to |layersList|
        invariant forall j :: 0 <= j < i ==> layersList[j].name != name
      {
        if layersList[i].name == name {
          return true;
        }
      }
      return false;
    }

    /** The first loop of name_empty_layers: the indices, in increasing
        order, of the primitives that have no tag. */
    method UntaggedIndices() returns (empty: seq<nat>)
      ensures forall j :: 0 <= j < |empty| ==> empty[j] < |collections| && collections[empty[j]].tag.None?
      ensures forall j :: 0 <= j < |collections| && collections[j].tag.None? ==> j in empty
      ensures forall a, b :: 0 <= a < b < |empty| ==> empty[a] < empty[b]
    {
      empty := [];
      for i := 0 to |collections|
        invariant forall j :: 0 <= j < |empty| ==> empty[j] < i && collections[empty[j]].tag.None?
        invariant forall j :: 0 <= j < i && collections[j].tag.None? ==> j in empty
        invariant forall a, b :: 0 <= a < b < |empty| ==> empty[a] < empty[b]
      {
        if collections[i].tag.None? {
          empty := empty + [i];
        }
      }
    }

    /** The second loop of name_empty_layers: tag the primitives at the given
        indices. */
    method TagAt(indices: seq<nat>, name: string)
      requires forall j :: 0 <= j < |indices| ==> indices[j] < |collections|
      modifies this`collections
      ensures |collections| == |old(collections)|
      ensures forall m :: 0 <= m < |collections| ==>
        collections[m] == if m in indices then old(collections)[m].(tag := Some(name)) else old(collections)[m]
    {
      for j := 0 to |indices|
        invariant |collections| == |old(collections)|
        invariant forall m :: 0 <= m < |collections| ==>
          collections[m] == if m in indices[..j] then old(collections)[m].(tag := Some(name)) else old(collections)[m]
      {
        var i := indices[j];
        assert indices[..j + 1] == indices[..j] + [i];
        collections := collections[i := collections[i].(tag := Some(name))];
      }
      assert indices[..|indices|] == indices;
    }

    /** name_empty_layers: tag every untagged primitive with name, and
        register name if there were any. */
    method NameEmptyLayers(name: string)
      modifies this`layersList, this`collections
      ensures Snapshot() == NameEmpty(old(Snapshot()), name)
    {
      ghost var before := collections;
      var empty := UntaggedIndices();
      TagAt(empty, name);
      SweepTagsIs(before, collections, name);
      if |empty| > 0 {
        assert before[empty[0]].tag.None?;
        layersList := layersList + [Layer(name, true)];
      } else {
        assert AllTagged(before);
      }
    }

    /** SweepTags(before, name) characterised element by element. */
    static lemma SweepTagsIs(before: seq<Primitive>, after: seq<Primitive>, name: string)
      requires |after| == |before|
      requires forall m :: 0 <= m < |before| ==>
        after[m] == if before[m].tag.None? then before[m].(tag := Some(name)) else before[m]
      ensures after == SweepTags(before, name)
    {
    }

    /** The collections loop of remove. */
    method DeleteTagged(name: string) returns (status: Status)
      modifies this`collections
      ensures (status, collections) == Registry.DeleteTagged(old(collections), name)
    {
      ghost var cs := collections;
      var i := |collections|;
      while i > 0
        invariant 0 <= i <= |cs|
        invariant collections == cs[..i] + WithoutTagged(cs[i..], name)
        invariant forall j :: i <= j < |cs| ==> cs[j].tag.Some?
      {
        i := i - 1;
        RegistryProperties.FilterStepBack(cs, i, NotTagged(name), collections);
        if collections[i].tag.None? {
          RegistryProperties.LastUntaggedIs(cs, i);
          return UntaggedAt(i);
        }
        if collections[i].tag.value == name {
          collections := collections[..i] + collections[i + 1..];
        }
      }
      assert cs[0..] == cs && cs[..0] == [];
      assert AllTagged(cs);
      assert LastUntagged(cs) == None;
      assert collections == WithoutTagged(cs, name);
      return Done;
    }

    /** The layers_list loop of remove. */
    method DropEntries(name: string)
      modifies this`layersList
      ensures layersList == WithoutLayer(old(layersList), name)
    {
      ghost var ls := layersList;
      var j := |layersList|;
      while j > 0
        invariant 0 <= j <= |ls|
        invariant layersList == ls[..j] + WithoutLayer(ls[j..], name)
      {
        j := j - 1;
        RegistryProperties.FilterStepBack(ls, j, NotNamed(name), layersList);
        if layersList[j].name == name {
          layersList := layersList[..j] + layersList[j + 1..];
        }
      }
      assert ls[0..] == ls;
    }

    /** remove: an unknown name is reported and nothing changes; for a set
        name the tagged primitives go first; then the entries. */
    method Remove(name: string) returns (status: Status)
      modifies this`layersList, this`collections
      ensures Outcome(status, Snapshot()) == Registry.Remove(old(Snapshot()), name)
    {
      var found := LayerExists(name);
      if !found {
        return NoSuchLayer;
      }
      if IsSetName(name) {
        status := DeleteTagged(name);
        if status != Done {
          return;
        }
      }
      DropEntries(name);
      status := Done;
    }

    /** The collections loop of hide and show. */
    method RestyleTagged(name: string, v: bool) returns (status: Status)
      modifies this`collections
      ensures (status, collections) == Registry.RestyleTagged(old(collections), name, v)
    {
      ghost var cs := collections;
      var i := |collections|;
      while i > 0
        invariant 0 <= i <= |cs|
        invariant collections == RestyleFrom(cs, name, v, i)
        invariant forall j :: i <= j < |cs| ==> cs[j].tag.Some?
      {
        i := i - 1;
        if collections[i].tag.None? {
          RegistryProperties.LastUntaggedIs(cs, i);
          return UntaggedAt(i);
        }
        if collections[i].tag.value == name {
          collections := collections[i := collections[i].(visible := v)];
        }
      }
      assert AllTagged(cs);
      return Done;
    }

    /** The layers_list loop of hide and show. */
    method RestyleEntries(name: string, v: bool)
      modifies this`layersList
      ensures layersList == RestyleLayers(old(layersList), name, v)
    {
      ghost var ls := layersList;
      var j := |layersList|;
      while j > 0
        invariant 0 <= j <= |ls|
        invariant |layersList| == |ls|
        invariant forall m :: 0 <= m < |ls| ==>
          layersList[m] == if j <= m && ls[m].name == name then ls[m].(visible := v) else ls[m]
      {
        j := j - 1;
        if layersList[j].name == name {
          layersList := layersList[j := layersList[j].(visible := v)];
        }
      }
    }

    /** The common body of hide and show. */
    method SetVisibility(name: string, v: bool) returns (status: Status)
      modifies this`layersList, this`collections
      ensures Outcome(status, Snapshot()) == Registry.SetVisibility(old(Snapshot()), name, v)
    {
      var found := LayerExists(name);
      if !found {
        return NoSuchLayer;
      }
      if IsSetName(name) {
        status := RestyleTagged(name, v);
        if status != Done {
          return;
        }
      }
      RestyleEntries(name, v);
      status := Done;
    }

    /** hide */
    method Hide(name: string) returns (status: Status)
      modifies this`layersList, this`collections
      ensures Outcome(status, Snapshot()) == Registry.SetVisibility(old(Snapshot()), name, false)
    {
      status := SetVisibility(name, false);
    }

    /** show */
    method Show(name: string) returns (status: Status)
      modifies this`layersList, this`collections
      ensures Outcome(status, Snapshot()) == Registry.SetVisibility(old(Snapshot()), name, true)
    {
      status := SetVisibility(name, true);
    }

    /** The registry steps shared by contour and markers, with the plotting
        call standing as the k untagged primitives it adds. */
    method Overlay(f: Family, replace: Option<string>, k: nat) returns (status: Status)
      modifies this`layersList, this`collections, this`contourCounter, this`scatterCounter
      ensures Outcome(status, Snapshot()) == Registry.Overlay(old(Snapshot()), f, replace, k)
    {
      if Truthy(replace) {
        var found := LayerExists(replace.value);
        if !found {
          return NoSuchLayer;
        }
        status := Remove(replace.value);
        if status != Done {
          return;
        }
      }
      DrawAndName(f, replace, k);
      status := Done;
    }

    /** contour/markers after the replace check: sweep strays into 'user',
        draw, pick the name (bumping the family's counter when there is no
        replace) and sweep the new primitives into it. */
    method DrawAndName(f: Family, replace: Option<string>, k: nat)
      modifies this`layersList, this`collections, this`contourCounter, this`scatterCounter
      ensures Snapshot() == Draw(old(Snapshot()), f, replace, k)
    {
      NameEmptyLayers("user");
      collections := collections + Fresh(k);
      ghost var drawn := Snapshot();
      var setName: string;
      if Truthy(replace) {
        setName := replace.value;
      } else if f == ContourSets {
        contourCounter := contourCounter + 1;
        setName := AutoName(ContourPrefix, contourCounter);
      } else {
        scatterCounter := scatterCounter + 1;
        setName := AutoName(ScatterPrefix, scatterCounter);
      }
      assert Snapshot() == Drawn(old(Snapshot()), f, replace, k);
      assert setName == ChosenName(old(Snapshot()), f, replace);
      NameEmptyLayers(setName);
    }

    /** contour: k is the number of primitives the contour plot adds. */
    method Contour(replace: Option<string>, k: nat) returns (status: Status)
      modifies this`layersList, this`collections, this`contourCounter, this`scatterCounter
      ensures Outcome(status, Snapshot()) == Registry.Overlay(old(Snapshot()), ContourSets, replace, k)
    {
      status := Overlay(ContourSets, replace, k);
    }

    /** markers: k is the number of primitives the scatter plot adds. */
    method Markers(replace: Option<string>, k: nat) returns (status: Status)
      modifies this`layersList, this`collections, this`contourCounter, this`scatterCounter
      ensures Outcome(status, Snapshot()) == Registry.Overlay(old(Snapshot()), ScatterSets, replace, k)
    {
      status := Overlay(ScatterSets, replace, k);
    }
  }
}
