/** The layer registry of a FITSFigure as a value: the `layers_list`
    entries, the drawn primitives of `ax1.collections` and the two
    auto-naming counters, with one function per public operation giving the
    state that operation leaves behind. The class in module Figure performs
    the same operations step by step and is proved to agree with these. */
module Registry {
  import opened Naming

  datatype Option<T> = None | Some(value: T)

  /** One `{'name': ..., 'visible': ...}` record of `layers_list`. */
  datatype Layer = Layer(name: string, visible: bool)

  /** One drawn primitive of `ax1.collections`. `tag` is its
      `aplpy_layer_name` attribute, None while that attribute was never set. */
  datatype Primitive = Primitive(tag: Option<string>, visible: bool)

  datatype State = State(
    layers: seq<Layer>,
    collections: seq<Primitive>,
    contourCounter: nat,
    scatterCounter: nat)

  /** How an operation ended. NoSuchLayer is the printed "layer ... does not
      exist" no-op; UntaggedAt(i) is the AttributeError raised when a loop of
      remove, hide or show reads the missing `aplpy_layer_name` of
      primitive i. */
  datatype Status = Done | NoSuchLayer | UntaggedAt(index: nat)

  datatype Outcome = Outcome(status: Status, after: State)

  /** The registry as the constructor leaves it. */
  const Initial: State := State([], [], 0, 0)

  // ---------------------------------------------------------------------
  // Sequences

  /** The elements of s that satisfy keep, in their original order. */
  function Filter<T(==)>(s: seq<T>, keep: T -> bool): (r: seq<T>)
    ensures |r| <= |s|
    ensures forall i :: 0 <= i < |r| ==> r[i] in s && keep(r[i])
    ensures forall i :: 0 <= i < |s| && keep(s[i]) ==> s[i] in r
  {
    if s == [] then [] else (if keep(s[0]) then [s[0]] else []) + Filter(s[1..], keep)
  }

  /** a can be obtained from b by deleting elements: b's relative order is kept. */
  predicate Subsequence<T(==)>(a: seq<T>, b: seq<T>)
    decreases |b|
  {
    if a == [] then true
    else if b == [] then false
    else if a[0] == b[0] then Subsequence(a[1..], b[1..])
    else Subsequence(a, b[1..])
  }

  // ---------------------------------------------------------------------
  // Queries

  /** Some entry of the registry carries this name. */
  predicate Named(ls: seq<Layer>, name: string)
  {
    exists i :: 0 <= i < |ls| && ls[i].name == name
  }

  predicate AllTagged(cs: seq<Primitive>)
  {
    forall i :: 0 <= i < |cs| ==> cs[i].tag.Some?
  }

  /** The index of the last primitive without a tag, which is where a loop
      running from the end of the collections first reads a missing
      attribute. */
  function LastUntagged(cs: seq<Primitive>): (r: Option<nat>)
    ensures r.None? <==> AllTagged(cs)
    ensures r.Some? ==> r.value < |cs| && cs[r.value].tag.None?
    ensures r.Some? ==> forall i :: r.value < i < |cs| ==> cs[i].tag.Some?
  {
    if cs == [] then None
    else if cs[|cs| - 1].tag.None? then Some(|cs| - 1)
    else LastUntagged(cs[..|cs| - 1])
  }

  // ---------------------------------------------------------------------
  // name_empty_layers

  /** Every untagged primitive gets the tag name; the others are left alone. */
  function SweepTags(cs: seq<Primitive>, name: string): (r: seq<Primitive>)
    ensures |r| == |cs| && AllTagged(r)
    ensures forall i :: 0 <= i < |cs| ==> r[i].visible == cs[i].visible
    ensures forall i :: 0 <= i < |cs| && cs[i].tag.Some? ==> r[i] == cs[i]
    ensures forall i :: 0 <= i < |cs| && cs[i].tag.None? ==> r[i].tag == Some(name)
  {
    if cs == [] then []
    else [if cs[0].tag.None? then cs[0].(tag := Some(name)) else cs[0]] + SweepTags(cs[1..], name)
  }

  /** name_empty_layers(name): tag the untagged primitives and, only if there
      were any, register one visible entry for name (without looking for an
      existing one). */
  function NameEmpty(s: State, name: string): (r: State)
    ensures AllTagged(r.collections) && |r.collections| == |s.collections|
    ensures |r.layers| >= |s.layers| && r.layers[..|s.layers|] == s.layers
    ensures r.contourCounter == s.contourCounter && r.scatterCounter == s.scatterCounter
  {
    s.(collections := SweepTags(s.collections, name),
       layers := if AllTagged(s.collections) then s.layers else s.layers + [Layer(name, true)])
  }

  // ---------------------------------------------------------------------
  // remove

  function NotNamed(name: string): Layer -> bool
  {
    (l: Layer) => l.name != name
  }

  function NotTagged(name: string): Primitive -> bool
  {
    (p: Primitive) => p.tag != Some(name)
  }

  function WithoutLayer(ls: seq<Layer>, name: string): seq<Layer>
  {
    Filter(ls, NotNamed(name))
  }

  function WithoutTagged(cs: seq<Primitive>, name: string): seq<Primitive>
  {
    Filter(cs, NotTagged(name))
  }

  /** The collections loop of remove(name), run from the last primitive to
      the first: primitives tagged name are deleted, and the loop raises at
      the first (from the end) primitive without a tag, leaving the part
      below it as it was. */
  function DeleteTagged(cs: seq<Primitive>, name: string): (r: (Status, seq<Primitive>))
    ensures r.0 == Done <==> AllTagged(cs)
    ensures r.0 != Done ==> r.0.UntaggedAt?
    ensures |r.1| <= |cs|
    ensures r.0 == Done ==> forall i :: 0 <= i < |r.1| ==> r.1[i].tag.Some? && r.1[i].tag != Some(name)
  {
    match LastUntagged(cs)
    case Some(j) => (UntaggedAt(j), cs[..j + 1] + WithoutTagged(cs[j + 1..], name))
    case None => (Done, WithoutTagged(cs, name))
  }

  /** remove(name): unknown names are a no-op; for contour/scatter set names
      the primitives tagged name are deleted first, and if that raises the
      registry is left as it is; then every entry named name leaves the
      registry. */
  function Remove(s: State, name: string): (o: Outcome)
    ensures o.status == NoSuchLayer <==> !Named(s.layers, name)
    ensures o.status.UntaggedAt? <==> Named(s.layers, name) && IsSetName(name) && !AllTagged(s.collections)
    ensures o.status != Done ==> o.after.layers == s.layers
    ensures o.after.contourCounter == s.contourCounter && o.after.scatterCounter == s.scatterCounter
  {
    if !Named(s.layers, name) then Outcome(NoSuchLayer, s)
    else if !IsSetName(name) then Outcome(Done, s.(layers := WithoutLayer(s.layers, name)))
    else
      var (status, cs) := DeleteTagged(s.collections, name);
      if status != Done then Outcome(status, s.(collections := cs))
      else Outcome(Done, s.(layers := WithoutLayer(s.layers, name), collections := cs))
  }

  // ---------------------------------------------------------------------
  // hide and show

  /** The entries named name get visibility v. */
  function RestyleLayers(ls: seq<Layer>, name: string, v: bool): seq<Layer>
  {
    seq(|ls|, i requires 0 <= i < |ls| => if ls[i].name == name then ls[i].(visible := v) else ls[i])
  }

  /** The primitives at index lo or above that are tagged name get
      visibility v. */
  function RestyleFrom(cs: seq<Primitive>, name: string, v: bool, lo: nat): seq<Primitive>
  {
    seq(|cs|, i requires 0 <= i < |cs| =>
      if lo <= i && cs[i].tag == Some(name) then cs[i].(visible := v) else cs[i])
  }

  /** The collections loop of hide/show, run from the last primitive to
      the first: primitives tagged name get visibility v, and the loop raises
      at the first (from the end) primitive without a tag. */
  function RestyleTagged(cs: seq<Primitive>, name: string, v: bool): (r: (Status, seq<Primitive>))
    ensures r.0 == Done <==> AllTagged(cs)
    ensures r.0 != Done ==> r.0.UntaggedAt?
    ensures |r.1| == |cs| && forall i :: 0 <= i < |cs| ==> r.1[i].tag == cs[i].tag
  {
    match LastUntagged(cs)
    case Some(j) => (UntaggedAt(j), RestyleFrom(cs, name, v, j + 1))
    case None => (Done, RestyleFrom(cs, name, v, 0))
  }

  /** hide(name) is SetVisibility(s, name, false), show(name) is
      SetVisibility(s, name, true). */
  function SetVisibility(s: State, name: string, v: bool): (o: Outcome)
    ensures o.status == NoSuchLayer <==> !Named(s.layers, name)
    ensures o.status.UntaggedAt? <==> Named(s.layers, name) && IsSetName(name) && !AllTagged(s.collections)
    ensures o.status != Done ==> o.after.layers == s.layers
    ensures o.after.contourCounter == s.contourCounter && o.after.scatterCounter == s.scatterCounter
  {
    if !Named(s.layers, name) then Outcome(NoSuchLayer, s)
    else if !IsSetName(name) then Outcome(Done, s.(layers := RestyleLayers(s.layers, name, v)))
    else
      var (status, cs) := RestyleTagged(s.collections, name, v);
      if status != Done then Outcome(status, s.(collections := cs))
      else Outcome(Done, s.(layers := RestyleLayers(s.layers, name, v), collections := cs))
  }

  // ---------------------------------------------------------------------
  // contour and markers

  /** contour draws contour sets, markers draws scatter sets; each family has
      its own counter and name prefix. */
  datatype Family = ContourSets | ScatterSets

  function Prefix(f: Family): string
  {
    if f == ContourSets then ContourPrefix else ScatterPrefix
  }

  function Counter(s: State, f: Family): nat
  {
    if f == ContourSets then s.contourCounter else s.scatterCounter
  }

  function Bump(s: State, f: Family): State
  {
    if f == ContourSets then s.(contourCounter := s.contourCounter + 1)
    else s.(scatterCounter := s.scatterCounter + 1)
  }

  /** The name a contour or markers call without replace gives its layer. */
  function NextAutoName(s: State, f: Family): string
  {
    AutoName(Prefix(f), Counter(s, f) + 1)
  }

  /** Python truthiness of the `replace` argument (default False): a name
      counts only when it is a non-empty string. */
  predicate Truthy(replace: Option<string>)
  {
    replace.Some? && replace.value != ""
  }

  /** The k primitives the plotting library adds, none of them tagged yet. */
  function Fresh(k: nat): seq<Primitive>
  {
    seq(k, _ => Primitive(None, true))
  }

  /** The name contour or markers give the primitives they draw: replace's
      name, or else the next auto-name of the family. */
  function ChosenName(s: State, f: Family, replace: Option<string>): string
  {
    if Truthy(replace) then replace.value else NextAutoName(s, f)
  }

  /** The state just before the final sweep of contour or markers: stray
      untagged primitives are swept into 'user', the k new primitives are
      drawn, and without a truthy replace the family's counter is bumped. */
  function Drawn(s: State, f: Family, replace: Option<string>, k: nat): (b: State)
    ensures |b.collections| == |s.collections| + k && AllTagged(b.collections[..|s.collections|])
    ensures forall i :: |s.collections| <= i < |b.collections| ==> b.collections[i] == Primitive(None, true)
    ensures Counter(b, f) == Counter(s, f) + (if Truthy(replace) then 0 else 1)
  {
    var swept := NameEmpty(s, "user");
    var drawn := swept.(collections := swept.collections + Fresh(k));
    if Truthy(replace) then drawn else Bump(drawn, f)
  }

  /** What contour or markers do once any replaced layer is gone: the drawn
      primitives are swept into the chosen name. */
  function Draw(s: State, f: Family, replace: Option<string>, k: nat): (r: State)
    ensures AllTagged(r.collections) && |r.collections| == |s.collections| + k
    ensures |r.layers| >= |s.layers| && r.layers[..|s.layers|] == s.layers
  {
    NameEmpty(Drawn(s, f, replace, k), ChosenName(s, f, replace))
  }

  /** contour or markers drawing k primitives: with a truthy replace the
      named layer must exist and is removed first, and an exception raised by
      that remove propagates before anything is drawn. */
  function Overlay(s: State, f: Family, replace: Option<string>, k: nat): (o: Outcome)
    ensures Truthy(replace) && !Named(s.layers, replace.value) ==> o == Outcome(NoSuchLayer, s)
    ensures o.status == NoSuchLayer <==> Truthy(replace) && !Named(s.layers, replace.value)
    ensures o.status.UntaggedAt? <==>
      Truthy(replace) && Named(s.layers, replace.value) && IsSetName(replace.value) && !AllTagged(s.collections)
    ensures o.status.UntaggedAt? ==> o == Remove(s, replace.value)
    ensures !Truthy(replace) ==> o.status == Done
    ensures o.status == Done ==> AllTagged(o.after.collections)
  {
    if Truthy(replace) && !Named(s.layers, replace.value) then Outcome(NoSuchLayer, s)
    else
      var removed := if Truthy(replace) then Remove(s, replace.value) else Outcome(Done, s);
      if removed.status != Done then removed
      else Outcome(Done, Draw(removed.after, f, replace, k))
  }

  // ---------------------------------------------------------------------
  // Sequences of calls

  /** A call on the public registry operations of a figure. */
  datatype Call =
    | RemoveCall(name: string)
    | HideCall(name: string)
    | ShowCall(name: string)
    | NameEmptyCall(name: string)
    | ContourCall(replace: Option<string>, k: nat)
    | MarkersCall(replace: Option<string>, k: nat)

  function Step(s: State, c: Call): State
  {
    match c
    case RemoveCall(n) => Remove(s, n).after
    case HideCall(n) => SetVisibility(s, n, false).after
    case ShowCall(n) => SetVisibility(s, n, true).after
    case NameEmptyCall(n) => NameEmpty(s, n)
    case ContourCall(r, k) => Overlay(s, ContourSets, r, k).after
    case MarkersCall(r, k) => Overlay(s, ScatterSets, r, k).after
  }

  /** The state after the calls, in order. */
  function Run(s: State, calls: seq<Call>): State
    decreases |calls|
  {
    if calls == [] then s else Run(Step(s, calls[0]), calls[1..])
  }

  /** One hide (visible false) or show (visible true) call. */
  datatype Toggle = Toggle(name: string, visible: bool)

  /** The state after the hide/show calls, in order. */
  function ToggleAll(s: State, ts: seq<Toggle>): State
    decreases |ts|
  {
    if ts == [] then s
    else SetVisibility(ToggleAll(s, ts[..|ts| - 1]), ts[|ts| - 1].name, ts[|ts| - 1].visible).after
  }

  /** The visibility asked for by the last of the calls that names name. */
  function LastFor(ts: seq<Toggle>, name: string): Option<bool>
    decreases |ts|
  {
    if ts == [] then None
    else if ts[|ts| - 1].name == name then Some(ts[|ts| - 1].visible)
    else LastFor(ts[..|ts| - 1], name)
  }
}
