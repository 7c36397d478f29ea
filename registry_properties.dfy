/** What the registry operations promise, proved about the functions of
    module Registry. */
module RegistryProperties {
  import opened Naming
  import opened Registry

  // ---------------------------------------------------------------------
  // Filter

  /** Filtering keeps the survivors in their original relative order. */
  lemma {:induction false} FilterIsSubsequence<T>(s: seq<T>, keep: T -> bool)
    ensures Subsequence(Filter(s, keep), s)
  {
    if s != [] {
      FilterIsSubsequence(s[1..], keep);
      var r := Filter(s[1..], keep);
      if keep(s[0]) {
        assert Filter(s, keep) == [s[0]] + r;
        assert ([s[0]] + r)[1..] == r;
      } else {
        assert Filter(s, keep) == r;
        if r != [] {
          assert r[0] in s[1..] && keep(r[0]);
          assert r[0] != s[0];
        }
      }
    }
  }

  /** One step of a filter that walks s from the end and deletes in place:
      cur holds s[..j + 1] followed by the filtered rest; deleting or keeping
      s[j] extends the filtered part by one. */
  lemma FilterStepBack<T>(s: seq<T>, j: nat, keep: T -> bool, cur: seq<T>)
    requires j < |s| && cur == s[..j + 1] + Filter(s[j + 1..], keep)
    ensures j < |cur| && cur[j] == s[j]
    ensures keep(s[j]) ==> cur == s[..j] + Filter(s[j..], keep)
    ensures !keep(s[j]) ==> cur[..j] + cur[j + 1..] == s[..j] + Filter(s[j..], keep)
  {
    assert s[j..][0] == s[j];
    assert s[j..][1..] == s[j + 1..];
    assert s[..j + 1] == s[..j] + [s[j]];
    assert cur[..j] == s[..j];
    assert cur[j + 1..] == Filter(s[j + 1..], keep);
  }

  /** Filtering keeps every copy of a kept element and no copy of a dropped one. */
  lemma {:induction false} FilterCounts<T>(s: seq<T>, keep: T -> bool)
    ensures forall x :: multiset(Filter(s, keep))[x] == if keep(x) then multiset(s)[x] else 0
  {
    if s != [] {
      FilterCounts(s[1..], keep);
      assert s == [s[0]] + s[1..];
      assert multiset(s) == multiset([s[0]]) + multiset(s[1..]);
      var head := if keep(s[0]) then [s[0]] else [];
      assert multiset(Filter(s, keep)) == multiset(head) + multiset(Filter(s[1..], keep));
    }
  }

  /** Nothing is dropped when everything is kept. */
  lemma {:induction false} FilterKeepsAll<T>(s: seq<T>, keep: T -> bool)
    requires forall i :: 0 <= i < |s| ==> keep(s[i])
    ensures Filter(s, keep) == s
  {
    if s != [] {
      assert keep(s[0]);
      FilterKeepsAll(s[1..], keep);
    }
  }

  /** LastUntagged is pinned down by the untagged primitive above which
      everything is tagged. */
  lemma LastUntaggedIs(cs: seq<Primitive>, i: nat)
    requires i < |cs| && cs[i].tag.None?
    requires forall j :: i < j < |cs| ==> cs[j].tag.Some?
    ensures LastUntagged(cs) == Some(i)
  {
  }

  /** Filtering distributes over concatenation. */
  lemma {:induction false} FilterConcat<T>(a: seq<T>, b: seq<T>, keep: T -> bool)
    ensures Filter(a + b, keep) == Filter(a, keep) + Filter(b, keep)
  {
    if a == [] {
      assert a + b == b;
    } else {
      var head := if keep(a[0]) then [a[0]] else [];
      assert (a + b)[0] == a[0];
      assert (a + b)[1..] == a[1..] + b;
      FilterConcat(a[1..], b, keep);
      assert Filter(a + b, keep) == head + (Filter(a[1..], keep) + Filter(b, keep));
      assert Filter(a, keep) == head + Filter(a[1..], keep);
    }
  }

  /** Everything is dropped when nothing is kept. */
  lemma {:induction false} FilterDropsAll<T>(s: seq<T>, keep: T -> bool)
    requires forall i :: 0 <= i < |s| ==> !keep(s[i])
    ensures Filter(s, keep) == []
  {
    if s != [] {
      assert !keep(s[0]);
      FilterDropsAll(s[1..], keep);
    }
  }

  // ---------------------------------------------------------------------
  // layer_exists and name_empty_layers

  lemma SweepTagsOnTagged(cs: seq<Primitive>, name: string)
    requires AllTagged(cs)
    ensures SweepTags(cs, name) == cs
  {
  }

  /** A second sweep, under any name, finds nothing left to tag. */
  lemma SweepIsIdempotent(s: State, n: string, m: string)
    ensures NameEmpty(NameEmpty(s, n), m) == NameEmpty(s, n)
  {
  }

  /** After name_empty_layers(n) a name is registered exactly when it was
      before or it is n and some primitive had been untagged. The entry for n
      is appended at the end, visible. */
  lemma SweepRegisters(s: State, n: string, m: string)
    ensures Named(NameEmpty(s, n).layers, m) <==> Named(s.layers, m) || (m == n && !AllTagged(s.collections))
    ensures !AllTagged(s.collections) ==> NameEmpty(s, n).layers == s.layers + [Layer(n, true)]
    ensures AllTagged(s.collections) ==> NameEmpty(s, n).layers == s.layers
  {
    var ls := NameEmpty(s, n).layers;
    if Named(s.layers, m) {
      var i :| 0 <= i < |s.layers| && s.layers[i].name == m;
      assert ls[i] == s.layers[i];
    }
    if m == n && !AllTagged(s.collections) {
      assert ls[|ls| - 1].name == n;
    }
    if Named(ls, m) && !Named(s.layers, m) {
      var i :| 0 <= i < |ls| && ls[i].name == m;
      assert i == |s.layers|;
    }
  }

  /** Sweeping after drawing k fresh primitives onto tagged ones tags
      exactly the fresh ones, and finds something to tag exactly when k > 0. */
  lemma SweepFresh(c: seq<Primitive>, k: nat, name: string)
    requires AllTagged(c)
    ensures AllTagged(c + Fresh(k)) <==> k == 0
    ensures SweepTags(c + Fresh(k), name) == c + seq(k, _ => Primitive(Some(name), true))
  {
    if k > 0 {
      assert (c + Fresh(k))[|c|].tag.None?;
    }
  }

  // ---------------------------------------------------------------------
  // remove

  /** The error paths of remove: a missing layer changes nothing, and the
      AttributeError can only come from a set name meeting an untagged
      primitive, before the registry is touched. */
  lemma RemoveErrors(s: State, n: string)
    ensures Remove(s, n).status == NoSuchLayer <==> !Named(s.layers, n)
    ensures Remove(s, n).status == NoSuchLayer ==> Remove(s, n).after == s
    ensures Remove(s, n).status.UntaggedAt? <==> Named(s.layers, n) && IsSetName(n) && !AllTagged(s.collections)
    ensures Remove(s, n).status.UntaggedAt? ==> Remove(s, n).after.layers == s.layers
  {
  }

  /** After a remove that did not raise, no entry is named n. */
  lemma RemoveUnregisters(s: State, n: string)
    requires !Remove(s, n).status.UntaggedAt?
    ensures !Named(Remove(s, n).after.layers, n)
  {
  }

  /** A completed remove(n) keeps every other entry, in order; for a set
      name it deletes exactly the primitives tagged n and keeps the rest in
      order, otherwise it leaves the primitives alone. Counters never move. */
  lemma RemoveKeepsOthers(s: State, n: string)
    requires Remove(s, n).status == Done
    ensures var t := Remove(s, n).after;
      && Subsequence(t.layers, s.layers)
      && (forall i :: 0 <= i < |s.layers| && s.layers[i].name != n ==> s.layers[i] in t.layers)
      && (forall x: Layer :: multiset(t.layers)[x] == if x.name != n then multiset(s.layers)[x] else 0)
      && (IsSetName(n) ==>
            && Subsequence(t.collections, s.collections)
            && (forall x: Primitive ::
                  multiset(t.collections)[x] == if x.tag != Some(n) then multiset(s.collections)[x] else 0)
            && (forall i :: 0 <= i < |t.collections| ==> t.collections[i].tag != Some(n))
            && (forall i :: 0 <= i < |s.collections| && s.collections[i].tag != Some(n) ==>
                  s.collections[i] in t.collections))
      && (!IsSetName(n) ==> t.collections == s.collections)
      && t.contourCounter == s.contourCounter && t.scatterCounter == s.scatterCounter
  {
    var t := Remove(s, n).after;
    assert t.layers == WithoutLayer(s.layers, n);
    assert Subsequence(t.layers, s.layers) by {
      FilterIsSubsequence(s.layers, NotNamed(n));
    }
    assert forall x: Layer :: multiset(t.layers)[x] == if x.name != n then multiset(s.layers)[x] else 0 by {
      FilterCounts(s.layers, NotNamed(n));
    }
    forall i | 0 <= i < |s.layers| && s.layers[i].name != n
      ensures s.layers[i] in t.layers
    {
      assert NotNamed(n)(s.layers[i]);
    }
    if IsSetName(n) {
      assert t.collections == WithoutTagged(s.collections, n);
      assert Subsequence(t.collections, s.collections) by {
        FilterIsSubsequence(s.collections, NotTagged(n));
      }
      assert forall x: Primitive ::
          multiset(t.collections)[x] == if x.tag != Some(n) then multiset(s.collections)[x] else 0 by {
        FilterCounts(s.collections, NotTagged(n));
      }
      forall i | 0 <= i < |t.collections|
        ensures t.collections[i].tag != Some(n)
      {
        assert NotTagged(n)(t.collections[i]);
      }
      forall i | 0 <= i < |s.collections| && s.collections[i].tag != Some(n)
        ensures s.collections[i] in t.collections
      {
        assert NotTagged(n)(s.collections[i]);
      }
    }
  }

  // ---------------------------------------------------------------------
  // hide and show

  /** hide and show never rename, retag, reorder, add or delete anything,
      leave entries and primitives of other names alone, and do not move the
      counters. */
  lemma VisibilityKeepsShape(s: State, n: string, v: bool)
    ensures var t := SetVisibility(s, n, v).after;
      && |t.layers| == |s.layers|
      && (forall i :: 0 <= i < |s.layers| ==> t.layers[i].name == s.layers[i].name)
      && (forall i :: 0 <= i < |s.layers| && s.layers[i].name != n ==> t.layers[i] == s.layers[i])
      && |t.collections| == |s.collections|
      && (forall i :: 0 <= i < |s.collections| ==> t.collections[i].tag == s.collections[i].tag)
      && (forall i :: 0 <= i < |s.collections| && s.collections[i].tag != Some(n) ==>
            t.collections[i] == s.collections[i])
      && t.contourCounter == s.contourCounter && t.scatterCounter == s.scatterCounter
  {
  }

  /** A completed hide/show sets every entry named n, and for a set name
      every primitive tagged n, to the requested visibility; for any other
      name the primitives are untouched. */
  lemma VisibilityApplies(s: State, n: string, v: bool)
    requires SetVisibility(s, n, v).status == Done
    ensures var t := SetVisibility(s, n, v).after;
      && (forall i :: 0 <= i < |t.layers| && t.layers[i].name == n ==> t.layers[i].visible == v)
      && (IsSetName(n) ==>
            forall i :: 0 <= i < |t.collections| && t.collections[i].tag == Some(n) ==> t.collections[i].visible == v)
      && (!IsSetName(n) ==> t.collections == s.collections)
  {
  }

  /** The error paths of hide and show, as for remove. */
  lemma VisibilityErrors(s: State, n: string, v: bool)
    ensures SetVisibility(s, n, v).status == NoSuchLayer <==> !Named(s.layers, n)
    ensures SetVisibility(s, n, v).status == NoSuchLayer ==> SetVisibility(s, n, v).after == s
    ensures SetVisibility(s, n, v).status.UntaggedAt? <==> Named(s.layers, n) && IsSetName(n) && !AllTagged(s.collections)
    ensures SetVisibility(s, n, v).status.UntaggedAt? ==> SetVisibility(s, n, v).after.layers == s.layers
  {
  }

  /** LastUntagged only looks at the tags. */
  lemma LastUntaggedByTags(a: seq<Primitive>, b: seq<Primitive>)
    requires |a| == |b| && forall i :: 0 <= i < |a| ==> a[i].tag == b[i].tag
    ensures LastUntagged(a) == LastUntagged(b)
  {
  }

  /** Hiding (showing) twice is hiding (showing) once, on every path,
      including the one that raises. */
  lemma VisibilityIsIdempotent(s: State, n: string, v: bool)
    ensures SetVisibility(SetVisibility(s, n, v).after, n, v) == SetVisibility(s, n, v)
  {
    var t := SetVisibility(s, n, v).after;
    VisibilityKeepsShape(s, n, v);
    LastUntaggedByTags(s.collections, t.collections);
    if Named(s.layers, n) {
      var i :| 0 <= i < |s.layers| && s.layers[i].name == n;
      assert t.layers[i].name == n;
    }
  }

  /** A run of hide/show calls keeps every name, tag and length. */
  lemma {:induction false} ToggleAllKeepsShape(s: State, ts: seq<Toggle>)
    ensures var t := ToggleAll(s, ts);
      && |t.layers| == |s.layers|
      && (forall i :: 0 <= i < |s.layers| ==> t.layers[i].name == s.layers[i].name)
      && |t.collections| == |s.collections|
      && (forall i :: 0 <= i < |s.collections| ==> t.collections[i].tag == s.collections[i].tag)
    decreases |ts|
  {
    if ts != [] {
      var last := ts[|ts| - 1];
      ToggleAllKeepsShape(s, ts[..|ts| - 1]);
      VisibilityKeepsShape(ToggleAll(s, ts[..|ts| - 1]), last.name, last.visible);
    }
  }

  /** After any sequence of hide/show calls on a registered name, the
      entries named n, and for a set name the primitives tagged n, have the
      visibility of the last call naming n. A set name needs every primitive
      tagged: otherwise the calls on it raise before touching the registry. */
  lemma {:induction false} LastCallWins(s: State, ts: seq<Toggle>, n: string, v: bool)
    requires Named(s.layers, n) && (IsSetName(n) ==> AllTagged(s.collections))
    requires LastFor(ts, n) == Some(v)
    ensures var t := ToggleAll(s, ts);
      && (forall i :: 0 <= i < |t.layers| && t.layers[i].name == n ==> t.layers[i].visible == v)
      && (IsSetName(n) ==>
            forall i :: 0 <= i < |t.collections| && t.collections[i].tag == Some(n) ==> t.collections[i].visible == v)
    decreases |ts|
  {
    var init := ts[..|ts| - 1];
    var last := ts[|ts| - 1];
    var u := ToggleAll(s, init);
    ToggleAllKeepsShape(s, init);
    assert IsSetName(n) ==> AllTagged(u.collections) by {
      if IsSetName(n) {
        forall i | 0 <= i < |u.collections| ensures u.collections[i].tag.Some? {
          assert u.collections[i].tag == s.collections[i].tag;
        }
      }
    }
    if last.name == n {
      var i :| 0 <= i < |s.layers| && s.layers[i].name == n;
      assert u.layers[i].name == n;
      VisibilityApplies(u, n, v);
    } else {
      LastCallWins(s, init, n, v);
      VisibilityKeepsShape(u, last.name, last.visible);
    }
  }

  // ---------------------------------------------------------------------
  // contour and markers

  /** The no-op error path shared by remove, hide, show and the replace
      argument of contour and markers. */
  lemma MissingLayerIsNoOp(s: State, n: string, v: bool, f: Family, k: nat)
    requires !Named(s.layers, n)
    ensures Remove(s, n) == Outcome(NoSuchLayer, s)
    ensures SetVisibility(s, n, v) == Outcome(NoSuchLayer, s)
    ensures n != "" ==> Overlay(s, f, Some(n), k) == Outcome(NoSuchLayer, s)
  {
  }

  /** Without a truthy replace the family's counter goes up by exactly one and
      the call cannot fail; with one, neither counter moves. */
  lemma OverlayCounters(s: State, f: Family, replace: Option<string>, k: nat)
    ensures var o := Overlay(s, f, replace, k);
      && (!Truthy(replace) ==> o.status == Done && Counter(o.after, f) == Counter(s, f) + 1)
      && (Truthy(replace) ==> Counter(o.after, f) == Counter(s, f))
      && (forall g :: g != f ==> Counter(o.after, g) == Counter(s, g))
  {
  }

  /** Sweeping a state whose collections are tagged ones followed by k
      fresh ones. */
  lemma SweepAfterDrawing(b: State, c: seq<Primitive>, k: nat, name: string)
    requires AllTagged(c) && b.collections == c + Fresh(k)
    ensures var t := NameEmpty(b, name);
      && AllTagged(t.collections)
      && |t.collections| >= k
      && (forall i :: |t.collections| - k <= i < |t.collections| ==> t.collections[i] == Primitive(Some(name), true))
      && (k > 0 ==> |t.layers| > 0 && t.layers[|t.layers| - 1] == Layer(name, true))
  {
    SweepFresh(c, k, name);
    var t := NameEmpty(b, name);
    assert t.collections == c + seq(k, _ => Primitive(Some(name), true));
    assert k > 0 ==> t.layers == b.layers + [Layer(name, true)];
  }

  /** Drawing leaves every primitive tagged, tags the k new ones (at the
      end of the collections) with the chosen name, and, when it drew
      anything, registers that name last and visible. */
  lemma DrawRegisters(d: State, f: Family, replace: Option<string>, k: nat)
    ensures var t := Draw(d, f, replace, k);
      && AllTagged(t.collections)
      && |t.collections| >= k
      && (forall i :: |t.collections| - k <= i < |t.collections| ==>
            t.collections[i] == Primitive(Some(ChosenName(d, f, replace)), true))
      && (k > 0 ==> |t.layers| > 0 && t.layers[|t.layers| - 1] == Layer(ChosenName(d, f, replace), true))
  {
    var before := Drawn(d, f, replace, k);
    SweepAfterDrawing(before, NameEmpty(d, "user").collections, k, ChosenName(d, f, replace));
  }

  /** A completed contour/markers call draws as above, with the name chosen
      from the state it started in. */
  lemma OverlayRegisters(s: State, f: Family, replace: Option<string>, k: nat)
    requires Overlay(s, f, replace, k).status == Done
    ensures var t := Overlay(s, f, replace, k).after;
      && AllTagged(t.collections)
      && |t.collections| >= k
      && (forall i :: |t.collections| - k <= i < |t.collections| ==>
            t.collections[i] == Primitive(Some(ChosenName(s, f, replace)), true))
      && (k > 0 ==> |t.layers| > 0 && t.layers[|t.layers| - 1] == Layer(ChosenName(s, f, replace), true))
  {
    var removed := if Truthy(replace) then Remove(s, replace.value) else Outcome(Done, s);
    assert Counter(removed.after, f) == Counter(s, f);
    DrawRegisters(removed.after, f, replace, k);
  }

  /** contour/markers with replace naming a registered layer, when every
      primitive is tagged: the old entries (and, for a set name, the old
      primitives) go, the k new primitives take the same name, and the name
      is registered again, once, at the end, when anything was drawn. */
  lemma ReplaceReusesName(s: State, f: Family, n: string, k: nat)
    requires n != "" && Named(s.layers, n) && AllTagged(s.collections)
    ensures var o := Overlay(s, f, Some(n), k);
      && o.status == Done
      && o.after.layers == WithoutLayer(s.layers, n) + (if k > 0 then [Layer(n, true)] else [])
      && o.after.collections ==
           (if IsSetName(n) then WithoutTagged(s.collections, n) else s.collections)
           + seq(k, _ => Primitive(Some(n), true))
      && o.after.contourCounter == s.contourCounter && o.after.scatterCounter == s.scatterCounter
  {
    var removed := Remove(s, n);
    var kept := if IsSetName(n) then WithoutTagged(s.collections, n) else s.collections;
    assert removed == Outcome(Done, s.(layers := WithoutLayer(s.layers, n), collections := kept));
    assert AllTagged(kept) by {
      forall i | 0 <= i < |kept| ensures kept[i].tag.Some? {
        if IsSetName(n) {
          assert kept[i] in s.collections;
        }
      }
    }
    SweepTagsOnTagged(kept, "user");
    SweepFresh(kept, k, n);
    assert Overlay(s, f, Some(n), k).after == Draw(removed.after, f, Some(n), k);
  }

  /** Without replace and with every primitive tagged, the 'user' sweep
      finds nothing and the call sweeps the k fresh primitives into the next
      auto-name. */
  lemma AutoDrawUnfolds(s: State, f: Family, k: nat)
    requires AllTagged(s.collections)
    ensures Overlay(s, f, None, k)
         == Outcome(Done, NameEmpty(Bump(s, f).(collections := s.collections + Fresh(k)), NextAutoName(s, f)))
  {
    SweepTagsOnTagged(s.collections, "user");
    assert NameEmpty(s, "user") == s;
    assert Drawn(s, f, None, k) == Bump(s, f).(collections := s.collections + Fresh(k));
  }

  /** Sweeping tagged primitives followed by k fresh ones under name. */
  lemma SweepDrawn(b: State, c: seq<Primitive>, k: nat, name: string)
    requires AllTagged(c) && b.collections == c + Fresh(k)
    ensures NameEmpty(b, name) == b.(
      layers := b.layers + (if k > 0 then [Layer(name, true)] else []),
      collections := c + seq(k, _ => Primitive(Some(name), true)))
  {
    SweepFresh(c, k, name);
  }

  /** contour/markers without replace, when every primitive is tagged:
      the family's counter goes up by one, and if anything was drawn one
      visible entry under the next auto-name is appended, with the k new
      primitives tagged with it. */
  lemma AutoNamedOverlay(s: State, f: Family, k: nat)
    requires AllTagged(s.collections)
    ensures Overlay(s, f, None, k) == Outcome(Done, Bump(s, f).(
      layers := s.layers + (if k > 0 then [Layer(NextAutoName(s, f), true)] else []),
      collections := s.collections + seq(k, _ => Primitive(Some(NextAutoName(s, f)), true))))
  {
    AutoDrawUnfolds(s, f, k);
    SweepDrawn(Bump(s, f).(collections := s.collections + Fresh(k)), s.collections, k, NextAutoName(s, f));
  }

  /** The drawing steps from any state d: stray untagged primitives are
      swept into 'user', which is registered once if there were any; the k
      new primitives take the chosen name, registered last when k > 0; the
      counter moves only without a truthy replace. */
  lemma DrawIs(d: State, f: Family, replace: Option<string>, k: nat)
    ensures Draw(d, f, replace, k) == (if Truthy(replace) then d else Bump(d, f)).(
      layers := d.layers + (if AllTagged(d.collections) then [] else [Layer("user", true)])
                         + (if k > 0 then [Layer(ChosenName(d, f, replace), true)] else []),
      collections := SweepTags(d.collections, "user") + seq(k, _ => Primitive(Some(ChosenName(d, f, replace)), true)))
  {
    var u := NameEmpty(d, "user");
    assert Drawn(d, f, replace, k).collections == u.collections + Fresh(k);
    assert Drawn(d, f, replace, k).layers == u.layers;
    SweepRegisters(d, "user", "user");
    SweepDrawn(Drawn(d, f, replace, k), u.collections, k, ChosenName(d, f, replace));
  }

  /** contour/markers without replace from any state: stray untagged
      primitives join a 'user' entry appended first, then the k new
      primitives join one entry under the next auto-name; the family's
      counter goes up by one. */
  lemma AutoNamedOverlaySweepsStrays(s: State, f: Family, k: nat)
    ensures Overlay(s, f, None, k) == Outcome(Done, Bump(s, f).(
      layers := s.layers + (if AllTagged(s.collections) then [] else [Layer("user", true)])
                         + (if k > 0 then [Layer(NextAutoName(s, f), true)] else []),
      collections := SweepTags(s.collections, "user") + seq(k, _ => Primitive(Some(NextAutoName(s, f)), true))))
  {
    DrawIs(s, f, None, k);
  }

  /** contour/markers replacing a registered layer, whenever the remove does
      not raise: the old entries go (and for a set name its primitives), the
      remaining strays join a 'user' entry, and the k new primitives join one
      entry under the replaced name, appended last; no counter moves. */
  lemma ReplaceSweepsStrays(s: State, f: Family, n: string, k: nat)
    requires n != "" && Named(s.layers, n) && (IsSetName(n) ==> AllTagged(s.collections))
    ensures var o := Overlay(s, f, Some(n), k);
      var kept := if IsSetName(n) then WithoutTagged(s.collections, n) else s.collections;
      && o.status == Done
      && o.after.layers == WithoutLayer(s.layers, n)
           + (if AllTagged(kept) then [] else [Layer("user", true)])
           + (if k > 0 then [Layer(n, true)] else [])
      && o.after.collections == SweepTags(kept, "user") + seq(k, _ => Primitive(Some(n), true))
      && o.after.contourCounter == s.contourCounter && o.after.scatterCounter == s.scatterCounter
  {
    var kept := if IsSetName(n) then WithoutTagged(s.collections, n) else s.collections;
    var d := s.(layers := WithoutLayer(s.layers, n), collections := kept);
    assert Remove(s, n) == Outcome(Done, d);
    DrawIs(d, f, Some(n), k);
  }

  /** The contour set names of the scenario below, and k primitives tagged
      with one of them. */
  function SetN(i: nat): string
  {
    AutoName(ContourPrefix, i)
  }

  function TaggedN(i: nat, k: nat): seq<Primitive>
  {
    seq(k, _ => Primitive(Some(SetN(i)), true))
  }

  lemma FirstContour(k: nat)
    requires k > 0
    ensures Step(Initial, ContourCall(None, k)) == State([Layer(SetN(1), true)], TaggedN(1, k), 1, 0)
  {
    AutoNamedOverlay(Initial, ContourSets, k);
    assert [] + TaggedN(1, k) == TaggedN(1, k);
  }

  lemma SecondContour(k: nat)
    requires k > 0
    ensures Step(State([Layer(SetN(1), true)], TaggedN(1, k), 1, 0), ContourCall(None, k))
         == State([Layer(SetN(1), true), Layer(SetN(2), true)], TaggedN(1, k) + TaggedN(2, k), 2, 0)
  {
    AutoNamedOverlay(State([Layer(SetN(1), true)], TaggedN(1, k), 1, 0), ContourSets, k);
  }

  /** Deleting contour_set_1's primitives leaves contour_set_2's. */
  lemma FirstSetPrimitivesGo(k: nat)
    ensures AllTagged(TaggedN(1, k) + TaggedN(2, k))
    ensures WithoutTagged(TaggedN(1, k) + TaggedN(2, k), SetN(1)) == TaggedN(2, k)
  {
    var keep := NotTagged(SetN(1));
    assert SetN(1) != SetN(2) by {
      if SetN(1) == SetN(2) {
        AutoNameInjective(ContourPrefix, 1, 2);
      }
    }
    FilterConcat(TaggedN(1, k), TaggedN(2, k), keep);
    FilterDropsAll(TaggedN(1, k), keep);
    FilterKeepsAll(TaggedN(2, k), keep);
  }

  /** Unregistering contour_set_1 leaves contour_set_2. */
  lemma FirstSetEntryGoes()
    ensures Named([Layer(SetN(1), true), Layer(SetN(2), true)], SetN(1))
    ensures WithoutLayer([Layer(SetN(1), true), Layer(SetN(2), true)], SetN(1)) == [Layer(SetN(2), true)]
  {
    var n1, n2 := SetN(1), SetN(2);
    assert n1 != n2 by {
      if n1 == n2 {
        AutoNameInjective(ContourPrefix, 1, 2);
      }
    }
    var ls := [Layer(n1, true), Layer(n2, true)];
    assert ls[0].name == n1;
    assert ls[1..] == [Layer(n2, true)];
    assert ls[1..][1..] == [];
    assert Filter(ls[1..], NotNamed(n1)) == [Layer(n2, true)];
  }

  lemma RemoveFirst(k: nat)
    ensures Step(State([Layer(SetN(1), true), Layer(SetN(2), true)], TaggedN(1, k) + TaggedN(2, k), 2, 0),
                 RemoveCall(SetN(1)))
         == State([Layer(SetN(2), true)], TaggedN(2, k), 2, 0)
  {
    AutoNameIsSetName(1);
    FirstSetPrimitivesGo(k);
    FirstSetEntryGoes();
  }

  lemma ThirdContour(k: nat)
    requires k > 0
    ensures Step(State([Layer(SetN(2), true)], TaggedN(2, k), 2, 0), ContourCall(None, k)).layers
         == [Layer(SetN(2), true), Layer(SetN(3), true)]
  {
    AutoNamedOverlay(State([Layer(SetN(2), true)], TaggedN(2, k), 2, 0), ContourSets, k);
  }

  /** Two contour calls, a remove of the first set, and a third call: the
      registry holds contour_set_2 and contour_set_3; the number 1 is not
      reused. */
  lemma NumbersAreNotReused(k: nat)
    requires k > 0
    ensures Run(Initial, [ContourCall(None, k), ContourCall(None, k), RemoveCall("contour_set_1"), ContourCall(None, k)]).layers
         == [Layer("contour_set_2", true), Layer("contour_set_3", true)]
  {
    assert SetN(1) == "contour_set_1" && SetN(2) == "contour_set_2" && SetN(3) == "contour_set_3";
    var c, r := ContourCall(None, k), RemoveCall(SetN(1));
    var s1 := State([Layer(SetN(1), true)], TaggedN(1, k), 1, 0);
    var s2 := State([Layer(SetN(1), true), Layer(SetN(2), true)], TaggedN(1, k) + TaggedN(2, k), 2, 0);
    var s3 := State([Layer(SetN(2), true)], TaggedN(2, k), 2, 0);
    FirstContour(k);
    SecondContour(k);
    RemoveFirst(k);
    ThirdContour(k);
    assert Run(s3, [c]) == Step(s3, c) by {
      assert [c][1..] == [];
    }
    assert Run(s2, [r, c]) == Run(s3, [c]) by {
      assert [r, c][1..] == [c];
    }
    assert Run(s1, [c, r, c]) == Run(s2, [r, c]) by {
      assert [c, r, c][1..] == [r, c];
    }
    assert Run(Initial, [c, c, r, c]) == Run(s1, [c, r, c]) by {
      assert [c, c, r, c][1..] == [c, r, c];
    }
  }

  // ---------------------------------------------------------------------
  // Monotonic counters

  lemma StepCounters(s: State, c: Call)
    ensures Step(s, c).contourCounter >= s.contourCounter
    ensures Step(s, c).scatterCounter >= s.scatterCounter
  {
  }

  /** No sequence of calls, removes included, ever decreases a counter. */
  lemma {:induction false} CountersNeverDecrease(s: State, calls: seq<Call>)
    ensures Run(s, calls).contourCounter >= s.contourCounter
    ensures Run(s, calls).scatterCounter >= s.scatterCounter
    decreases |calls|
  {
    if calls != [] {
      StepCounters(s, calls[0]);
      CountersNeverDecrease(Step(s, calls[0]), calls[1..]);
    }
  }

  /** Once a contour/markers call without replace has used an auto-name, no
      later such call of the same family, whatever happened in between, gets
      that name again. */
  lemma AutoNamesNeverRepeat(s: State, f: Family, k: nat, calls: seq<Call>)
    ensures NextAutoName(Run(Overlay(s, f, None, k).after, calls), f) != NextAutoName(s, f)
  {
    var t := Overlay(s, f, None, k).after;
    OverlayCounters(s, f, None, k);
    CountersNeverDecrease(t, calls);
    LaterCounterNewName(s, Run(t, calls), f);
  }

  lemma LaterCounterNewName(s: State, u: State, f: Family)
    requires Counter(u, f) > Counter(s, f)
    ensures NextAutoName(u, f) != NextAutoName(s, f)
  {
  }

  // ---------------------------------------------------------------------
  // Tagging is kept

  /** No public call leaves a primitive untagged once all are tagged. */
  lemma StepKeepsAllTagged(s: State, c: Call)
    requires AllTagged(s.collections)
    ensures AllTagged(Step(s, c).collections)
  {
    match c
    case RemoveCall(n) =>
      var t := Remove(s, n).after;
      if IsSetName(n) && Named(s.layers, n) {
        RemoveKeepsOthers(s, n);
        forall i | 0 <= i < |t.collections| ensures t.collections[i].tag.Some? {
          assert t.collections[i].tag != Some(n);
          assert multiset(t.collections)[t.collections[i]] > 0;
          assert t.collections[i] in s.collections;
        }
      }
    case HideCall(n) => VisibilityKeepsShape(s, n, false);
    case ShowCall(n) => VisibilityKeepsShape(s, n, true);
    case NameEmptyCall(n) =>
    case ContourCall(r, k) =>
    case MarkersCall(r, k) =>
  }

  /** Once every primitive is tagged, every run of public calls keeps it so:
      the AttributeError of remove, hide and show needs a primitive added by
      other means. */
  lemma {:induction false} RunKeepsAllTagged(s: State, calls: seq<Call>)
    requires AllTagged(s.collections)
    ensures AllTagged(Run(s, calls).collections)
    decreases |calls|
  {
    if calls != [] {
      StepKeepsAllTagged(s, calls[0]);
      RunKeepsAllTagged(Step(s, calls[0]), calls[1..]);
    }
  }
}
