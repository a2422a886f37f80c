/** Editing one facet's selection: the clicks of a filter dropdown (plain
    click, meta-click, the "any" entry) and the "remove" buttons of the
    no-results alert. Each edits one input key and nothing else. */
module Selection {
  import opened Seqs
  import opened AppState

  /** A click on a dropdown entry; `Meta` is a click with the meta key held. */
  datatype Click = Plain(value: string) | Meta(value: string) | Any

  /** No value is selected twice. */
  predicate Distinct(sel: seq<string>) {
    forall i, j :: 0 <= i < j < |sel| ==> sel[i] != sel[j]
  }

  /** The facet's selection after a click. */
  function Pick(sel: seq<string>, click: Click): (r: seq<string>)
    ensures click.Plain? ==> r == [click.value]
    ensures click.Any? ==> r == []
    ensures click.Meta? && click.value !in sel ==>
              |r| == |sel| + 1 && r[..|sel|] == sel && r[|sel|] == click.value
    ensures click.Meta? && click.value in sel ==>
              && click.value !in r
              && IsSubsequence(r, sel)
              && (forall i :: 0 <= i < |sel| && sel[i] != click.value ==> sel[i] in r)
  {
    match click
    case Plain(v) => [v]
    case Any => []
    case Meta(v) =>
      if v in sel then
        FilterIsSubsequence(Unequal(v), sel);
        Filter(Unequal(v), sel)
      else sel + [v]
  }

  /** A meta-click on a value of a selection without repeats drops exactly
      one element. */
  lemma {:induction false} MetaRemovesOne(sel: seq<string>, v: string)
    requires Distinct(sel) && v in sel
    ensures |Pick(sel, Meta(v))| == |sel| - 1
    decreases |sel|
  {
    var i :| 0 <= i < |sel| && sel[i] == v;
    assert sel == sel[..i] + [v] + sel[i + 1..];
    FilterAppend(Unequal(v), sel[..i] + [v], sel[i + 1..]);
    FilterAppend(Unequal(v), sel[..i], [v]);
    assert Filter(Unequal(v), [v]) == [] by {
      assert [v][1..] == [];
    }
    FilterKeepsAll(Unequal(v), sel[..i]);
    FilterKeepsAll(Unequal(v), sel[i + 1..]);
  }

  /** Clicks keep a selection free of repeats. */
  lemma PickKeepsDistinct(sel: seq<string>, click: Click)
    requires Distinct(sel)
    ensures Distinct(Pick(sel, click))
  {
    if click.Meta? && click.value in sel {
      SubsequenceKeepsDistinct(Pick(sel, click), sel);
    }
  }

  lemma {:induction false} SubsequenceKeepsDistinct(a: seq<string>, b: seq<string>)
    requires IsSubsequence(a, b) && Distinct(b)
    ensures Distinct(a)
    decreases |b|
  {
    if |b| > 0 {
      assert Distinct(b[1..]) by {
        forall i, j | 0 <= i < j < |b[1..]| ensures b[1..][i] != b[1..][j] {
          assert b[1..][i] == b[i + 1] && b[1..][j] == b[j + 1];
        }
      }
      if |a| > 0 && a[0] == b[0] && IsSubsequence(a[1..], b[1..]) {
        SubsequenceKeepsDistinct(a[1..], b[1..]);
        SubsequenceMembers(a[1..], b[1..]);
        forall i, j | 0 <= i < j < |a| ensures a[i] != a[j] {
          if i == 0 {
            assert a[j] == a[1..][j - 1];
            assert a[j] in b[1..];
            var k :| 0 <= k < |b[1..]| && b[1..][k] == a[j];
            assert b[k + 1] == a[j];
          } else {
            assert a[i] == a[1..][i - 1] && a[j] == a[1..][j - 1];
          }
        }
      } else {
        SubsequenceKeepsDistinct(a, b[1..]);
      }
    }
  }

  lemma {:induction false} SubsequenceMembers(a: seq<string>, b: seq<string>)
    requires IsSubsequence(a, b)
    ensures forall i :: 0 <= i < |a| ==> a[i] in b
    decreases |b|
  {
    if |b| > 0 {
      if |a| > 0 && a[0] == b[0] && IsSubsequence(a[1..], b[1..]) {
        SubsequenceMembers(a[1..], b[1..]);
        forall i | 0 <= i < |a| ensures a[i] in b {
          if i > 0 { assert a[i] == a[1..][i - 1]; }
        }
      } else {
        SubsequenceMembers(a, b[1..]);
      }
    }
  }

  /** Meta-clicking a value twice undoes the first click. */
  lemma MetaTwiceRestores(sel: seq<string>, v: string)
    requires v !in sel
    ensures Pick(Pick(sel, Meta(v)), Meta(v)) == sel
  {
    FilterAppend(Unequal(v), sel, [v]);
    FilterKeepsAll(Unequal(v), sel);
    assert Filter(Unequal(v), [v]) == [] by {
      assert [v][1..] == [];
    }
  }

  /** A click on a dropdown of `facet`. */
  function Choose(s: State, facet: Facet, click: Click): (r: State)
    ensures Selected(r.input, facet) == Pick(Selected(s.input, facet), click)
    ensures InputFrame(s.input, r.input, {Selection(facet)})
    ensures r == s.(input := r.input)
  {
    s.(input := WithSelected(s.input, facet, Pick(Selected(s.input, facet), click)))
  }

  /** A "remove" button of the no-results alert. */
  datatype Removal = RemoveSearch | RemoveFacet(facet: Facet)

  function Remove(s: State, removal: Removal): (r: State)
    ensures removal.RemoveSearch? ==>
              r.input.search == "" && InputFrame(s.input, r.input, {SearchKey})
    ensures removal.RemoveFacet? ==>
              Selected(r.input, removal.facet) == []
              && InputFrame(s.input, r.input, {Selection(removal.facet)})
    ensures r == s.(input := r.input)
  {
    match removal
    case RemoveSearch => s.(input := s.input.(search := ""))
    case RemoveFacet(f) => s.(input := WithSelected(s.input, f, []))
  }

  /** Removing a facet from the alert is the dropdown's "any" entry. */
  lemma RemoveIsAny(s: State, facet: Facet)
    ensures Remove(s, RemoveFacet(facet)) == Choose(s, facet, Any)
  {
  }

  /** Removing twice is removing once. */
  lemma RemoveIdempotent(s: State, removal: Removal)
    ensures Remove(Remove(s, removal), removal) == Remove(s, removal)
  {
  }

  /** The dropdown test's click sequence on the type facet: a click selects
      `foo`, a meta-click adds `bar`, a meta-click on `foo` drops it and
      "any" clears the facet, each step touching only `input.type`. */
  lemma DropdownScenario(s: State)
    requires s.input.types == []
    ensures var s1 := Choose(s, Type, Plain("foo"));
            var s2 := Choose(s1, Type, Meta("bar"));
            var s3 := Choose(s2, Type, Meta("foo"));
            var s4 := Choose(s3, Type, Any);
            && s1 == s.(input := s.input.(types := ["foo"]))
            && s2 == s.(input := s.input.(types := ["foo", "bar"]))
            && s3 == s.(input := s.input.(types := ["bar"]))
            && s4 == s.(input := s.input.(types := []))
  {
    var s1 := Choose(s, Type, Plain("foo"));
    assert s1.input == s.input.(types := ["foo"]);
    var s2 := Choose(s1, Type, Meta("bar"));
    assert "bar" !in ["foo"];
    assert Pick(["foo"], Meta("bar")) == ["foo", "bar"];
    assert s2.input == s.input.(types := ["foo", "bar"]);
    var s3 := Choose(s2, Type, Meta("foo"));
    assert Pick(["foo", "bar"], Meta("foo")) == ["bar"] by {
      var sel := ["foo", "bar"];
      assert sel[0] == "foo";
      assert sel[1..] == ["bar"] && ["bar"][1..] == [];
      assert Filter(Unequal("foo"), ["bar"]) == ["bar"] + Filter(Unequal("foo"), []);
      assert Filter(Unequal("foo"), sel) == [] + Filter(Unequal("foo"), ["bar"]);
    }
    assert s3.input == s.input.(types := ["bar"]);
    var s4 := Choose(s3, Type, Any);
    assert s4.input == s.input.(types := []);
  }

  /** The alert test's remove buttons, each pressed on the same state: the
      search text becomes empty, or one facet's selection does. */
  lemma AlertScenario(s: State)
    ensures Remove(s, RemoveSearch) == s.(input := s.input.(search := ""))
    ensures Remove(s, RemoveFacet(Region)) == s.(input := s.input.(region := []))
    ensures Remove(s, RemoveFacet(Time)) == s.(input := s.input.(time := []))
    ensures Remove(s, RemoveFacet(Type)) == s.(input := s.input.(types := []))
    ensures Remove(s, RemoveFacet(Weekday)) == s.(input := s.input.(weekday := []))
  {
  }
}
