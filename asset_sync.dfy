/**
 * The asset-sync pipeline of scripts/fetch_assets.py, from the parsed feed to
 * the class list and the metadata record it writes. `MainAsWritten` follows
 * `main()` as it stands; `Sync` is the same pipeline with the metadata record
 * assembled after the lists exist, as the write at the end of `main()` does.
 */
module AssetSync {
  import opened Py
  import opened PyJson
  import opened Text
  import opened Sanitize
  import opened Playable
  import opened LatestSet
  import opened ClassBuild
  import opened Dedup

  const NoPlayableMessage := "No playable champions found; check schema/filters."

  /** The record written to `champ_meta.json`. */
  datatype Meta = Meta(setNumber: Json, count: int, champions: seq<ChampMeta>)

  /** What one run of the script produces: the lines of `classes.txt` and the metadata record. */
  datatype SyncOutput = SyncOutput(classes: seq<string>, meta: Meta)

  /** `latest.get("champions") or latest.get("units") or []`, as the list the comprehension walks. */
  function UnitsOf(latest: Json): (r: Result<seq<Json>>)
    requires latest.Object?
    ensures Get(latest, "champions").List? && Truthy(Get(latest, "champions")) ==>
              r == Ok(Get(latest, "champions").items)
    ensures !Truthy(Get(latest, "champions")) && Get(latest, "units").List? && Truthy(Get(latest, "units")) ==>
              r == Ok(Get(latest, "units").items)
    ensures !Truthy(Get(latest, "champions")) && !Truthy(Get(latest, "units")) ==> r == Ok([])
    // a truthy number or bool is what the `or` chain yields, and it is not iterable
    ensures var v := Or(Or(Get(latest, "champions"), Get(latest, "units")), List([]));
              r.Err? <==> v.Int? || v.Bool?
    ensures r.Err? ==> r.error == TypeError
    // a dict walks its keys and a string its characters, none of them a dict
    ensures var v := Or(Or(Get(latest, "champions"), Get(latest, "units")), List([]));
              v.Object? ==> r == Ok(KeysAsStrings(v.fields))
    ensures var v := Or(Or(Get(latest, "champions"), Get(latest, "units")), List([]));
              v.Str? ==> r == Ok(Chars(v.s))
    ensures var v := Or(Or(Get(latest, "champions"), Get(latest, "units")), List([]));
              r.Ok? && !v.List? ==> forall u :: u in r.value ==> !u.Object?
  {
    match Or(Or(Get(latest, "champions"), Get(latest, "units")), List([]))
    case List(xs) => Ok(xs)
    case Object(fs) => Ok(KeysAsStrings(fs))   // iterating a dict yields its keys
    case Str(s) => Ok(Chars(s))                // iterating a string yields its characters
    case _ => Err(TypeError)                   // a number is not iterable
  }

  /** The lists the build loop produces for the feed, with the set number, or the exception raised first. */
  function Collected(tft: Json): (r: Result<(Json, Built)>)
  {
    var latest :- LatestSet.LatestSet(tft);
    var units :- UnitsOf(latest);
    var playable :- PlayableUnits(units);
    if playable == [] then Err(SystemExit(NoPlayableMessage))
    else
      assert forall j :: 0 <= j < |playable| ==> playable[j] in playable;
      var built :- Build(playable);
      Ok((Get(latest, "number"), built))
  }

  /**
   * `main()` as written: once the latest set is chosen, line 73 reads
   * `classes_uni` before anything assigns it, so no run gets further.
   */
  function MainAsWritten(tft: Json): (r: Result<SyncOutput>)
    ensures r.Err?
    ensures LatestSet.LatestSet(tft).Ok? ==> r == Err(UnboundLocalError("classes_uni"))
    ensures LatestSet.LatestSet(tft).Err? ==> r == Err(LatestSet.LatestSet(tft).error)
  {
    var latest :- LatestSet.LatestSet(tft);
    Err(UnboundLocalError("classes_uni"))
  }

  /**
   * `main()` without line 73: select the set, filter the playable units,
   * build the two lists, de-duplicate the classes and assemble the record.
   */
  method Sync(tft: Json) returns (r: Result<SyncOutput>)
    ensures Collected(tft).Err? ==> r == Err(Collected(tft).error)
    ensures Collected(tft).Ok? ==> r.Ok?
    ensures r.Ok? ==>
      var (setNumber, built) := Collected(tft).value;
      var out := r.value;
      NoDuplicates(out.classes) &&
      (forall c :: c in out.classes <==> c in built.classes) &&
      (forall i, j :: 0 <= i < j < |out.classes| ==>
         FirstIndex(built.classes, out.classes[i]) < FirstIndex(built.classes, out.classes[j])) &&
      (forall c :: c in out.classes ==> AllWord(c)) &&
      out.meta == Meta(setNumber, |out.classes|, built.champMeta) &&
      |out.classes| == |Elements(built.classes)| <= |built.champMeta|
  {
    var latest :- LatestSet.LatestSet(tft);
    var units :- UnitsOf(latest);
    var playable :- PlayableUnits(units);
    if playable == [] {
      return Err(SystemExit(NoPlayableMessage));
    }
    assert forall j :: 0 <= j < |playable| ==> playable[j] in playable;
    var built :- BuildClasses(playable);
    var classesUni := DedupPreservingOrder(built.classes);
    r := Ok(SyncOutput(classesUni, Meta(Get(latest, "number"), |classesUni|, built.champMeta)));
  }

  /** A one-set feed listing the unit "Vi" twice, at costs `c1` and `c2`. */
  function ViUnit(cost: int): Json {
    Object([("name", Str("Vi")), ("cost", Int(cost)), ("traits", List([Str("Enforcer")]))])
  }

  function ViSet(c1: int, c2: int): Json {
    Object([("number", Int(13)), ("champions", List([ViUnit(c1), ViUnit(c2)]))])
  }

  function ViFeed(c1: int, c2: int): Json {
    Object([("sets", Object([("13", ViSet(c1, c2))]))])
  }

  /** On this feed `main()` as written stops with UnboundLocalError at line 73. */
  lemma {:induction false} ViFeedRaises(c1: int, c2: int)
    ensures MainAsWritten(ViFeed(c1, c2)) == Err(UnboundLocalError("classes_uni"))
  {
    ViSetChosen(c1, c2);
  }

  /**
   * With both costs positive, the corrected pipeline keeps both units, and the
   * record's `count` (distinct class names, here one) falls short of its two
   * `champions` entries.
   */
  lemma {:induction false} ViFeedOutcome(c1: int, c2: int)
    requires c1 > 0 && c2 > 0
    ensures Collected(ViFeed(c1, c2)).Ok?
    ensures Collected(ViFeed(c1, c2)).value.0 == Int(13)
    ensures Collected(ViFeed(c1, c2)).value.1.classes == ["Vi", "Vi"]
    ensures |Elements(Collected(ViFeed(c1, c2)).value.1.classes)| == 1
    ensures |Collected(ViFeed(c1, c2)).value.1.champMeta| == 2
  {
    ViBuilt(c1, c2);
    ViFeedCollected(c1, c2);
    RepeatedOnce("Vi");
  }

  lemma {:induction false} RepeatedOnce(x: string)
    ensures |Elements([x, x])| == 1
  {
    assert Elements([x, x]) == {x};
  }

  lemma {:induction false} ViFeedCollected(c1: int, c2: int)
    requires c1 > 0 && c2 > 0
    ensures Build([ViUnit(c1), ViUnit(c2)]).Ok?
    ensures Collected(ViFeed(c1, c2)) == Ok((Int(13), Build([ViUnit(c1), ViUnit(c2)]).value))
  {
    ViSetChosen(c1, c2);
    ViUnitsPlayable(c1, c2);
    ViBuilt(c1, c2);
    var us := [ViUnit(c1), ViUnit(c2)];
    CollectedSteps(ViFeed(c1, c2), ViSet(c1, c2), us, us);
    ViSetFields(c1, c2);
  }

  /** The pipeline's stages, when each succeeds, give `Collected`. */
  lemma {:induction false} CollectedSteps(tft: Json, latest: Json, units: seq<Json>, playable: seq<Json>)
    requires LatestSet.LatestSet(tft) == Ok(latest) && latest.Object?
    requires UnitsOf(latest) == Ok(units) && PlayableUnits(units) == Ok(playable) && playable != []
    ensures AllObjects(playable)
    ensures Build(playable).Ok? ==> Collected(tft) == Ok((Get(latest, "number"), Build(playable).value))
  {
    assert forall j :: 0 <= j < |playable| ==> playable[j] in playable;
  }

  lemma {:induction false} ViSetChosen(c1: int, c2: int)
    ensures LatestSet.LatestSet(ViFeed(c1, c2)) == Ok(ViSet(c1, c2))
    ensures UnitsOf(ViSet(c1, c2)) == Ok([ViUnit(c1), ViUnit(c2)])
  {
    ViSetFields(c1, c2);
    var fs := [("13", ViSet(c1, c2))];
    assert Values(fs) == [ViSet(c1, c2)];
    assert SetList(ViFeed(c1, c2)) == Ok([ViSet(c1, c2)]);
    assert Ordered(ViSet(c1, c2));
    assert LatestIndex([ViSet(c1, c2)]) == Ok(0);
  }

  lemma {:induction false} ViUnitsPlayable(c1: int, c2: int)
    requires c1 > 0 && c2 > 0
    ensures PlayableUnits([ViUnit(c1), ViUnit(c2)]) == Ok([ViUnit(c1), ViUnit(c2)])
  {
    var u1, u2 := ViUnit(c1), ViUnit(c2);
    ViUnitFields(c1);
    ViUnitFields(c2);
    ViPlayable(u1);
    ViPlayable(u2);
    KeptUnit(u2, []);
    assert [u2] + [] == [u2];
    KeptUnit(u1, [u2]);
    assert [u1] + [u2] == [u1, u2];
  }

  /** A playable unit at the head of the list is kept in front of what the rest gives. */
  lemma {:induction false} KeptUnit(u: Json, rest: seq<Json>)
    requires u.Object? && IsPlayableChampion(u) == Ok(true) && PlayableUnits(rest).Ok?
    ensures PlayableUnits([u] + rest) == Ok([u] + PlayableUnits(rest).value)
  {
    var us := [u] + rest;
    assert us[0] == u && us[1..] == rest;
  }

  lemma {:induction false} ViBuilt(c1: int, c2: int)
    ensures Build([ViUnit(c1), ViUnit(c2)]).Ok?
    ensures Build([ViUnit(c1), ViUnit(c2)]).value.classes == ["Vi", "Vi"]
    ensures |Build([ViUnit(c1), ViUnit(c2)]).value.champMeta| == 2
  {
    ViEntry(c1);
    ViEntry(c2);
    ViClean();
    BuildTwo(ViUnit(c1), ViUnit(c2));
  }

  lemma {:induction false} ViEntry(cost: int)
    ensures EntryFor(ViUnit(cost)) == Ok(Some(MetaOf(ViUnit(cost), "Vi")))
  {
    ViUnitFields(cost);
    assert DisplayName(ViUnit(cost)) == Str("Vi");
  }

  lemma {:induction false} ViClean()
    ensures SafeName("Vi") == "Vi"
  {
    SafeNameClean("Vi");
  }

  lemma {:induction false} ViUnitFields(cost: int)
    ensures Get(ViUnit(cost), "name") == Str("Vi")
    ensures Get(ViUnit(cost), "traits") == List([Str("Enforcer")])
    ensures Get(ViUnit(cost), "apiName") == Null && Get(ViUnit(cost), "characterName") == Null
    ensures GetOr(ViUnit(cost), "cost", Int(0)) == Int(cost)
  {
    var fs := ViUnit(cost).fields;
    var f1, f2 := fs[1..], fs[1..][1..];
    assert f1 == [("cost", Int(cost)), ("traits", List([Str("Enforcer")]))];
    assert f2 == [("traits", List([Str("Enforcer")]))] && f2[1..] == [];
    assert Lookup(fs, "cost") == Lookup(f1, "cost") == Some(Int(cost));
    assert Lookup(fs, "traits") == Lookup(f1, "traits") == Lookup(f2, "traits");
    assert Lookup(fs, "apiName") == Lookup(f1, "apiName") == Lookup(f2, "apiName") == None;
    assert Lookup(fs, "characterName") == Lookup(f1, "characterName") == Lookup(f2, "characterName") == None;
  }

  lemma {:induction false} ViSetFields(c1: int, c2: int)
    ensures Get(ViSet(c1, c2), "number") == Int(13)
    ensures Get(ViSet(c1, c2), "champions") == List([ViUnit(c1), ViUnit(c2)])
  {
    var fs := ViSet(c1, c2).fields;
    assert fs[1..] == [("champions", List([ViUnit(c1), ViUnit(c2)]))];
    assert Lookup(fs, "champions") == Lookup(fs[1..], "champions");
  }

  lemma {:induction false} ViPlayable(u: Json)
    requires u.Object? && Get(u, "name") == Str("Vi") && Get(u, "traits") == List([Str("Enforcer")])
    requires Get(u, "apiName") == Null && Get(u, "characterName") == Null
    requires GetOr(u, "cost", Int(0)).Int? && GetOr(u, "cost", Int(0)).i > 0
    ensures IsPlayableChampion(u) == Ok(true)
  {
    assert NameText(u) == Ok(Lower("Vi"));
    assert Lower("") == [];
    assert ApiText(u) == Ok("");
    ShortNotFlagged(Lower("Vi"), "");
  }
}
