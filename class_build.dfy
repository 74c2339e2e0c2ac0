/**
 * The build loop of the asset-sync script (scripts/fetch_assets.py): walk the
 * playable units in order and, for each one with a display name, append its
 * sanitised name to `classes` and its metadata to `champ_meta`.
 */
module ClassBuild {
  import opened Py
  import opened PyJson
  import opened Text
  import opened Sanitize
  import opened SeqFacts

  /** One entry of `champ_meta.json`. */
  datatype ChampMeta = ChampMeta(characterName: Json, apiName: Json, name: string, cost: Json, traits: Json)

  /** The two parallel lists the loop fills. */
  datatype Built = Built(classes: seq<string>, champMeta: seq<ChampMeta>) {
    /** These lists followed by `next`'s. */
    function Then(next: Built): Built {
      Built(classes + next.classes, champMeta + next.champMeta)
    }
  }

  /** Every class is the sanitised name of the entry at the same position. */
  predicate Parallel(b: Built) {
    |b.classes| == |b.champMeta| &&
    forall i :: 0 <= i < |b.classes| ==> b.classes[i] == SafeName(b.champMeta[i].name)
  }

  predicate AllObjects(units: seq<Json>) {
    forall j :: 0 <= j < |units| ==> units[j].Object?
  }

  /** `u.get("name") or u.get("characterName") or u.get("apiName")` */
  function DisplayName(u: Json): Json
    requires u.Object?
  {
    Or(Or(Get(u, "name"), Get(u, "characterName")), Get(u, "apiName"))
  }

  /** The `champ_meta` entry appended for `u` under the display name `name`. */
  function MetaOf(u: Json, name: string): ChampMeta
    requires u.Object?
  {
    ChampMeta(Or(Get(u, "characterName"), Get(u, "apiName")), Or(Get(u, "apiName"), Get(u, "characterName")),
              name, Get(u, "cost"), Or(Get(u, "traits"), List([])))
  }

  /** One pass of the loop body: skip `u`, give the entry it appends, or raise in `safe_name`. */
  function EntryFor(u: Json): (r: Result<Option<ChampMeta>>)
    requires u.Object?
    ensures r == Ok(None) <==> !Truthy(DisplayName(u))
    ensures r.Err? <==> Truthy(DisplayName(u)) && !DisplayName(u).Str?
    ensures r.Err? ==> r.error == AttributeError
    ensures r.Ok? && r.value.Some? ==> DisplayName(u) == Str(r.value.value.name) && r.value.value.name != []
  {
    var name := DisplayName(u);
    if !Truthy(name) then Ok(None)
    else if !name.Str? then Err(AttributeError)   // `name.strip()` on a number, list or dict
    else Ok(Some(MetaOf(u, name.s)))
  }

  /** The units the loop does not skip, in order. */
  function Named(units: seq<Json>): (r: seq<Json>)
    requires AllObjects(units)
    ensures |r| <= |units| && AllObjects(r)
    ensures forall j :: 0 <= j < |r| ==> Truthy(DisplayName(r[j]))
    ensures forall x :: x in r ==> x in units
    ensures forall j :: 0 <= j < |units| && Truthy(DisplayName(units[j])) ==> units[j] in r
  {
    if units == [] then []
    else
      var init := Named(units[..|units| - 1]);
      var u := units[|units| - 1];
      if Truthy(DisplayName(u)) then init + [u] else init
  }

  /** The positions of the units the loop does not skip, in increasing order. */
  function NamedPositions(units: seq<Json>): (r: seq<nat>)
    requires AllObjects(units)
    ensures forall k :: 0 <= k < |r| ==> r[k] < |units| && Truthy(DisplayName(units[r[k]]))
    ensures forall k, l :: 0 <= k < l < |r| ==> r[k] < r[l]
    ensures forall i :: 0 <= i < |units| && Truthy(DisplayName(units[i])) ==> i in r
  {
    if units == [] then []
    else
      var p := NamedPositions(units[..|units| - 1]);
      if Truthy(DisplayName(units[|units| - 1])) then p + [|units| - 1] else p
  }

  /**
   * The k-th unit kept is the unit at the k-th named position: the loop keeps
   * exactly the units with a display name, in unit order.
   */
  lemma {:induction false} NamedAtPositions(units: seq<Json>)
    requires AllObjects(units)
    ensures var r, p := Named(units), NamedPositions(units);
      |r| == |p| && forall k :: 0 <= k < |r| ==> r[k] == units[p[k]]
  {
    if units != [] {
      var init, x := units[..|units| - 1], units[|units| - 1];
      assert forall j :: 0 <= j < |init| ==> init[j] == units[j];
      assert units == init + [x];
      NamedAtPositions(init);
      NamedSnoc(init, x);
      PositionsStep(units, Named(init), NamedPositions(init));
    }
  }

  /** `NamedAtPositions` for `units` from the same fact about all but its last unit. */
  lemma {:induction false} PositionsStep(units: seq<Json>, r0: seq<Json>, p0: seq<nat>)
    requires AllObjects(units) && units != []
    requires |r0| == |p0| && forall k :: 0 <= k < |r0| ==> p0[k] < |units| - 1 && r0[k] == units[p0[k]]
    ensures var x := units[|units| - 1];
      var r, p := if Truthy(DisplayName(x)) then r0 + [x] else r0, if Truthy(DisplayName(x)) then p0 + [|units| - 1] else p0;
      |r| == |p| && forall k :: 0 <= k < |r| ==> r[k] == units[p[k]]
  {
  }

  /** The lists after one more pass of the loop body, which gave `entry`. */
  function Extend(prev: Result<Built>, entry: Result<Option<ChampMeta>>): Result<Built> {
    if prev.Err? then prev
    else match entry
      case Err(e) => Err(e)
      case Ok(None) => prev
      case Ok(Some(m)) => Ok(Built(prev.value.classes + [SafeName(m.name)], prev.value.champMeta + [m]))
  }

  /** The lists after the loop has run over `units`, or the exception it stopped on. */
  function Build(units: seq<Json>): (r: Result<Built>)
    requires AllObjects(units)
    ensures r.Err? ==> r.error == AttributeError
    ensures r.Ok? ==> Parallel(r.value) && |r.value.champMeta| <= |units|
  {
    if units == [] then Ok(Built([], []))
    else
      var init := units[..|units| - 1];
      assert forall j :: 0 <= j < |init| ==> init[j] == units[j];
      var prev, e := Build(init), EntryFor(units[|units| - 1]);
      ExtendParallel(prev, e);
      Extend(prev, e)
  }

  /** One pass of the loop body keeps the lists parallel and raises nothing but AttributeError. */
  lemma {:induction false} ExtendParallel(prev: Result<Built>, e: Result<Option<ChampMeta>>)
    requires prev.Err? ==> prev.error == AttributeError
    requires prev.Ok? ==> Parallel(prev.value)
    requires e.Err? ==> e.error == AttributeError
    ensures Extend(prev, e).Err? ==> Extend(prev, e).error == AttributeError
    ensures Extend(prev, e).Ok? ==>
              prev.Ok? && Parallel(Extend(prev, e).value) &&
              |Extend(prev, e).value.champMeta| <= |prev.value.champMeta| + 1
  {
  }

  /** The loop of lines 88-101, over the playable units. */
  method BuildClasses(playable: seq<Json>) returns (r: Result<Built>)
    requires AllObjects(playable)
    ensures r == Build(playable)
    ensures r.Ok? ==> Parallel(r.value)
  {
    var classes: seq<string> := [];
    var champMeta: seq<ChampMeta> := [];
    var i := 0;
    while i < |playable|
      invariant 0 <= i <= |playable|
      invariant Build(playable[..i]) == Ok(Built(classes, champMeta))
    {
      var u := playable[i];
      assert playable[..i + 1][..i] == playable[..i];
      var name := DisplayName(u);
      if Truthy(name) {
        if !name.Str? {
          BuildStopsAtError(playable, i + 1);
          return Err(AttributeError);
        }
        var cname := SafeName(name.s);
        classes := classes + [cname];
        champMeta := champMeta + [MetaOf(u, name.s)];
      }
      i := i + 1;
    }
    assert playable[..i] == playable;
    return Ok(Built(classes, champMeta));
  }

  /** The i-th entry belongs to the i-th of `named`, under that unit's display name. */
  predicate Follows(champMeta: seq<ChampMeta>, named: seq<Json>)
    requires AllObjects(named)
  {
    |champMeta| == |named| &&
    forall i :: 0 <= i < |named| ==>
      DisplayName(named[i]) == Str(champMeta[i].name) && champMeta[i] == MetaOf(named[i], champMeta[i].name)
  }

  /** One entry per unit with a display name, in unit order. */
  lemma {:induction false} BuildFollowsNamed(units: seq<Json>)
    requires AllObjects(units) && Build(units).Ok?
    ensures Follows(Build(units).value.champMeta, Named(units))
  {
    if units != [] {
      var init, x := units[..|units| - 1], units[|units| - 1];
      assert units == init + [x];
      assert AllObjects(init);
      BuildSnoc(init, x);
      NamedSnoc(init, x);
      BuildFollowsNamed(init);
      FollowsStep(Build(init).value, Named(init), x);
    }
  }

  lemma {:induction false} FollowsStep(prev: Built, named: seq<Json>, x: Json)
    requires AllObjects(named) && x.Object? && Follows(prev.champMeta, named)
    requires Extend(Ok(prev), EntryFor(x)).Ok?
    ensures AllObjects(named + [x])
    ensures Truthy(DisplayName(x)) ==> Follows(Extend(Ok(prev), EntryFor(x)).value.champMeta, named + [x])
    ensures !Truthy(DisplayName(x)) ==> Follows(Extend(Ok(prev), EntryFor(x)).value.champMeta, named)
  {
    if Truthy(DisplayName(x)) {
      var m := EntryFor(x).value.value;
      var ms, ns := prev.champMeta + [m], named + [x];
      forall i | 0 <= i < |ns|
        ensures DisplayName(ns[i]) == Str(ms[i].name) && ms[i] == MetaOf(ns[i], ms[i].name)
      {
        if i < |named| {
          assert ns[i] == named[i] && ms[i] == prev.champMeta[i];
        }
      }
    }
  }

  lemma {:induction false} NamedSnoc(units: seq<Json>, x: Json)
    requires AllObjects(units) && x.Object?
    ensures AllObjects(units + [x])
    ensures Named(units + [x]) == if Truthy(DisplayName(x)) then Named(units) + [x] else Named(units)
  {
    assert (units + [x])[..|units|] == units;
  }

  /** The loop raises exactly when some unit has a display name that is not a string. */
  lemma {:induction false} BuildRaisesIff(units: seq<Json>)
    requires AllObjects(units)
    ensures Build(units).Err? <==> exists j :: 0 <= j < |units| && EntryFor(units[j]).Err?
  {
    if units != [] {
      var init, x := units[..|units| - 1], units[|units| - 1];
      assert units == init + [x];
      assert AllObjects(init);
      BuildSnoc(init, x);
      BuildRaisesIff(init);
      assert forall j :: 0 <= j < |init| ==> units[j] == init[j];
    }
  }

  /** Once the loop has raised, later units cannot undo it. */
  lemma {:induction false} BuildStopsAtError(units: seq<Json>, n: nat)
    requires AllObjects(units) && n <= |units|
    requires Build(units[..n]).Err?
    ensures Build(units) == Build(units[..n])
    decreases |units| - n
  {
    if n < |units| {
      assert units[..n + 1][..n] == units[..n];
      BuildStopsAtError(units, n + 1);
    } else {
      assert units[..n] == units;
    }
  }

  /** The loop keeps unit order: the lists for `a + b` are those for `a` followed by those for `b`. */
  lemma {:induction false} BuildConcat(a: seq<Json>, b: seq<Json>)
    requires AllObjects(a) && AllObjects(b)
    requires Build(a).Ok? && Build(b).Ok?
    ensures AllObjects(a + b) && Build(a + b) == Ok(Build(a).value.Then(Build(b).value))
    decreases |b|
  {
    if b == [] {
      BuildConcatNil(a, b);
    } else {
      var b0, x := SplitLast(b);
      BuildConcat(a, b0);
      BuildConcatStep(a, b0, x);
    }
  }

  lemma {:induction false} BuildConcatNil(a: seq<Json>, b: seq<Json>)
    requires AllObjects(a) && b == [] && Build(a).Ok?
    ensures AllObjects(a + b) && Build(a + b) == Ok(Build(a).value.Then(Build(b).value))
  {
    assert a + b == a;
    var x := Build(a).value;
    assert x.classes + [] == x.classes;
    assert x.champMeta + [] == x.champMeta;
  }

  lemma {:induction false} SplitLast(units: seq<Json>) returns (init: seq<Json>, x: Json)
    requires AllObjects(units) && units != []
    ensures units == init + [x] && AllObjects(init) && x.Object? && |init| < |units|
  {
    init, x := units[..|units| - 1], units[|units| - 1];
    assert units == init + [x];
  }

  /** The loop over one more unit is one more pass of its body. */
  lemma {:induction false} BuildSnoc(units: seq<Json>, x: Json)
    requires AllObjects(units) && x.Object?
    ensures AllObjects(units + [x]) && Build(units + [x]) == Extend(Build(units), EntryFor(x))
  {
    assert (units + [x])[..|units|] == units;
  }

  /** Appending one entry to `b`, spelled out on sequence displays. */
  lemma {:induction false} AppendEntry(b: Built, m: ChampMeta)
    ensures |b.classes| == 0 && |b.champMeta| == 0 ==>
      Extend(Ok(b), Ok(Some(m))) == Ok(Built([SafeName(m.name)], [m]))
    ensures |b.classes| == 1 && |b.champMeta| == 1 ==>
      Extend(Ok(b), Ok(Some(m))) == Ok(Built([b.classes[0], SafeName(m.name)], [b.champMeta[0], m]))
  {
    var c := SafeName(m.name);
    assert Extend(Ok(b), Ok(Some(m))) == Ok(Built(b.classes + [c], b.champMeta + [m]));
    Snoc(b.classes, c);
    Snoc(b.champMeta, m);
  }

  /** The loop over one unit that has a string display name. */
  lemma {:induction false} BuildOne(u: Json, m: ChampMeta)
    requires u.Object? && EntryFor(u) == Ok(Some(m))
    ensures AllObjects([u])
    ensures Build([u]) == Ok(Built([SafeName(m.name)], [m]))
  {
    assert [u] == [] + [u];
    BuildSnoc([], u);
    AppendEntry(Built([], []), m);
  }

  /** The loop over two units that both have a string display name. */
  lemma {:induction false} BuildTwo(u1: Json, u2: Json)
    requires u1.Object? && u2.Object?
    requires EntryFor(u1).Ok? && EntryFor(u1).value.Some?
    requires EntryFor(u2).Ok? && EntryFor(u2).value.Some?
    ensures AllObjects([u1, u2])
    ensures var m1, m2 := EntryFor(u1).value.value, EntryFor(u2).value.value;
      Build([u1, u2]) == Ok(Built([SafeName(m1.name), SafeName(m2.name)], [m1, m2]))
  {
    BuildOne(u1, EntryFor(u1).value.value);
    assert [u1, u2] == [u1] + [u2];
    BuildSnoc([u1], u2);
    AppendEntry(Build([u1]).value, EntryFor(u2).value.value);
  }

  lemma {:induction false} BuildConcatStep(a: seq<Json>, b0: seq<Json>, x: Json)
    requires AllObjects(a) && AllObjects(b0) && x.Object? && AllObjects(a + b0)
    requires Build(a).Ok? && Build(b0 + [x]).Ok? && Build(b0).Ok?
    requires Build(a + b0) == Ok(Build(a).value.Then(Build(b0).value))
    ensures AllObjects(a + (b0 + [x]))
    ensures Build(a + (b0 + [x])) == Ok(Build(a).value.Then(Build(b0 + [x]).value))
  {
    SeqAssoc(a, b0, [x]);
    BuildSnoc(a + b0, x);
    BuildSnoc(b0, x);
    ExtendThen(Build(a).value, Build(b0).value, EntryFor(x));
  }

  lemma {:induction false} ExtendThen(x: Built, y: Built, e: Result<Option<ChampMeta>>)
    requires Extend(Ok(y), e).Ok?
    ensures Extend(Ok(x.Then(y)), e) == Ok(x.Then(Extend(Ok(y), e).value))
  {
    if e.Ok? && e.value.Some? {
      var m := e.value.value;
      SeqAssoc(x.classes, y.classes, [SafeName(m.name)]);
      SeqAssoc(x.champMeta, y.champMeta, [m]);
    }
  }

  /**
   * Two units sharing a display name give the same class twice, and two
   * metadata entries that each keep their own unit's fields: nothing is
   * merged before de-duplication.
   */
  lemma {:induction false} SameNameTwice(u1: Json, u2: Json)
    requires u1.Object? && u2.Object? && DisplayName(u1) == DisplayName(u2)
    requires DisplayName(u1).Str? && DisplayName(u1).s != []
    ensures AllObjects([u1, u2])
    ensures var n := DisplayName(u1).s;
      Build([u1, u2]) == Ok(Built([SafeName(n), SafeName(n)], [MetaOf(u1, n), MetaOf(u2, n)]))
  {
    BuildTwo(u1, u2);
  }
}
