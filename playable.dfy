/**
 * `is_playable_champion` and the `playable` comprehension of the asset-sync
 * script (scripts/fetch_assets.py): a unit counts when it has a positive shop
 * cost, at least one trait, and no NPC / summon / test keyword in its names.
 */
module Playable {
  import opened Py
  import opened PyJson
  import opened Text

  const BadKeywords: seq<string> := [
    "dummy", "training", "scuttler", "golem", "minion", "plant",
    "spine", "root", "test", "mech_core", "mercenary", "chest",
    "anvil", "tome", "artifact", "component", "support_item"
  ]

  /** `isinstance(cost, (int, float)) and cost > 0`; a bool is an int to Python, `True` being 1. */
  predicate PositiveCost(cost: Json) {
    match cost
    case Int(i) => i > 0
    case Bool(b) => b
    case _ => false
  }

  /** `(x or "").lower()`: AttributeError when `x` is truthy but not a string. */
  function LowerOrEmpty(x: Json): Result<string> {
    var v := Or(x, Str(""));
    if v.Str? then Ok(Lower(v.s)) else Err(AttributeError)
  }

  /** `name_l` */
  function NameText(u: Json): Result<string>
    requires u.Object?
  {
    LowerOrEmpty(Get(u, "name"))
  }

  /** `api_l`: the API name, falling back to the character name. */
  function ApiText(u: Json): Result<string>
    requires u.Object?
  {
    LowerOrEmpty(Or(Get(u, "apiName"), Get(u, "characterName")))
  }

  /** `any(k in name_l or k in api_l for k in bad_kw)` */
  predicate Flagged(nameL: string, apiL: string) {
    exists k | k in BadKeywords :: Contains(nameL, k) || Contains(apiL, k)
  }

  /** `is_playable_champion(u)` */
  function IsPlayableChampion(u: Json): (r: Result<bool>)
    requires u.Object?
    // a missing, non-numeric or non-positive cost rejects the unit
    ensures Lookup(u.fields, "cost").None? ==> r == Ok(false)
    ensures (match Lookup(u.fields, "cost")
             case Some(Int(i)) => i <= 0
             case Some(Bool(b)) => !b
             case Some(_) => true
             case None => true) ==> r == Ok(false)
    // with a valid cost, missing, falsy, non-list or empty traits reject it
    ensures (PositiveCost(GetOr(u, "cost", Int(0))) && !(Get(u, "traits").List? && Get(u, "traits").items != []))
            ==> r == Ok(false)
    // a bad keyword in either lower-cased name rejects it
    ensures forall k :: (k in BadKeywords && NameText(u).Ok? && ApiText(u).Ok? &&
                         (Contains(NameText(u).value, k) || Contains(ApiText(u).value, k)))
                        ==> r == Ok(false)
    // and a unit passing every test is accepted
    ensures r == Ok(true) <==>
              PositiveCost(GetOr(u, "cost", Int(0))) && Get(u, "traits").List? && Get(u, "traits").items != [] &&
              NameText(u).Ok? && ApiText(u).Ok? && !Flagged(NameText(u).value, ApiText(u).value)
    // it raises only once cost and traits have passed, and only on a name that is not a string
    ensures r.Err? ==>
              r.error == AttributeError && PositiveCost(GetOr(u, "cost", Int(0))) &&
              Get(u, "traits").List? && Get(u, "traits").items != [] &&
              (NameText(u).Err? || ApiText(u).Err?)
    // and once they have, a name that is truthy but not a string does raise
    ensures PositiveCost(GetOr(u, "cost", Int(0))) && Get(u, "traits").List? && Get(u, "traits").items != [] &&
              (NameText(u).Err? || ApiText(u).Err?)
            ==> r == Err(AttributeError)
  {
    var cost := GetOr(u, "cost", Int(0));
    if !PositiveCost(cost) then Ok(false)
    else
      var traits := Or(Get(u, "traits"), List([]));
      if !traits.List? || |traits.items| == 0 then Ok(false)
      else
        var nameL :- LowerOrEmpty(Get(u, "name"));
        var apiL :- LowerOrEmpty(Or(Get(u, "apiName"), Get(u, "characterName")));
        Ok(!Flagged(nameL, apiL))
  }

  /** Accepted by `isinstance(u, dict) and is_playable_champion(u)`. */
  predicate Accepted(u: Json) {
    u.Object? && IsPlayableChampion(u) == Ok(true)
  }

  /** `[u for u in units if isinstance(u, dict) and is_playable_champion(u)]` */
  function PlayableUnits(units: seq<Json>): (r: Result<seq<Json>>)
    ensures r.Err? <==> exists u :: u in units && u.Object? && IsPlayableChampion(u).Err?
    ensures r.Err? ==> r.error == AttributeError
    ensures r.Ok? ==> |r.value| <= |units|
    ensures r.Ok? ==> forall p :: p in r.value ==> p in units && Accepted(p)
    ensures r.Ok? ==> forall u :: u in units && Accepted(u) ==> u in r.value
  {
    if units == [] then Ok([])
    else
      var u := units[0];
      var rest := PlayableUnits(units[1..]);
      assert forall x :: x in units <==> x == u || x in units[1..];
      if !u.Object? then rest
      else match IsPlayableChampion(u)
        case Err(e) => Err(e)
        case Ok(keep) =>
          if rest.Err? || !keep then rest
          else Ok([u] + rest.value)
  }

  /** The filter keeps input order: it works piece by piece over a concatenation. */
  lemma {:induction false} PlayableUnitsConcat(a: seq<Json>, b: seq<Json>)
    requires PlayableUnits(a).Ok? && PlayableUnits(b).Ok?
    ensures PlayableUnits(a + b) == Ok(PlayableUnits(a).value + PlayableUnits(b).value)
  {
    if a == [] {
      assert a + b == b;
      assert PlayableUnits(a).value == [];
      assert [] + PlayableUnits(b).value == PlayableUnits(b).value;
    } else {
      PlayableUnitsConcat(a[1..], b);
      ConcatHead(a, b);
    }
  }

  /** The step of `PlayableUnitsConcat` from `a[1..]` to `a`. */
  lemma {:induction false} ConcatHead(a: seq<Json>, b: seq<Json>)
    requires a != [] && PlayableUnits(a).Ok? && PlayableUnits(b).Ok?
    requires PlayableUnits(a[1..] + b) == Ok(PlayableUnits(a[1..]).value + PlayableUnits(b).value)
    ensures PlayableUnits(a + b) == Ok(PlayableUnits(a).value + PlayableUnits(b).value)
  {
    assert (a + b)[0] == a[0] && (a + b)[1..] == a[1..] + b;
    PlayableUnitsHead(a);
    PlayableUnitsHead(a + b);
    ConsStepConcat(a[0], PlayableUnits(a[1..]), PlayableUnits(b).value);
  }

  /** What the comprehension does with one more unit `u` in front of a list whose result is `rest`. */
  function ConsStep(u: Json, rest: Result<seq<Json>>): Result<seq<Json>> {
    if !u.Object? then rest
    else match IsPlayableChampion(u)
      case Err(e) => Err(e)
      case Ok(keep) => if rest.Err? || !keep then rest else Ok([u] + rest.value)
  }

  lemma {:induction false} PlayableUnitsHead(s: seq<Json>)
    requires s != []
    ensures PlayableUnits(s) == ConsStep(s[0], PlayableUnits(s[1..]))
  {
  }

  lemma {:induction false} ConsStepConcat(u: Json, x: Result<seq<Json>>, y: seq<Json>)
    requires ConsStep(u, x).Ok?
    ensures x.Ok? && ConsStep(u, Ok(x.value + y)) == Ok(ConsStep(u, x).value + y)
  {
    if u.Object? && IsPlayableChampion(u) == Ok(true) {
      assert [u] + (x.value + y) == ([u] + x.value) + y;
    }
  }

  /** Every keyword has at least four letters, so shorter names are never flagged. */
  lemma {:induction false} ShortNotFlagged(nameL: string, apiL: string)
    requires |nameL| < 4 && |apiL| < 4
    ensures !Flagged(nameL, apiL)
  {
    forall k | k in BadKeywords ensures !Contains(nameL, k) && !Contains(apiL, k) {
      assert |k| >= 4;
    }
  }

  /** A unit whose cost is missing is never playable. */
  lemma {:induction false} NoCostNotPlayable()
    ensures IsPlayableChampion(Object([("name", Str("Vi")), ("traits", List([Str("Enforcer")]))])) == Ok(false)
  {
  }

  /** A unit with no traits is never playable. */
  lemma {:induction false} NoTraitsNotPlayable()
    ensures IsPlayableChampion(Object([("name", Str("Vi")), ("cost", Int(1)), ("traits", List([]))])) == Ok(false)
  {
  }

  /** A training dummy is filtered out by its API name. */
  lemma {:induction false} TrainingDummyNotPlayable()
    ensures IsPlayableChampion(Object([("cost", Int(1)), ("traits", List([Str("X")])),
                                       ("apiName", Str("TFT_TrainingDummy"))])) == Ok(false)
  {
    var u := Object([("cost", Int(1)), ("traits", List([Str("X")])), ("apiName", Str("TFT_TrainingDummy"))]);
    var apiL := Lower("TFT_TrainingDummy");
    assert ApiText(u) == Ok(apiL);
    assert apiL[12] == 'd' && apiL[13] == 'u' && apiL[14] == 'm' && apiL[15] == 'm' && apiL[16] == 'y';
    assert apiL[12..17] == "dummy";
    assert OccursAt(apiL, "dummy", 12);
    assert NameText(u) == Ok(Lower(""));
    assert "dummy" in BadKeywords;
    assert Flagged(Lower(""), apiL);
  }

  /** A truthy name that is not a string makes `.lower()` raise. */
  lemma {:induction false} NumericNameRaises()
    ensures IsPlayableChampion(Object([("name", Int(7)), ("cost", Int(2)), ("traits", List([Str("X")]))]))
            == Err(AttributeError)
  {
  }

  /** `True` passes the cost test, because Python's bool is an int. */
  lemma {:induction false} BoolCostPasses()
    ensures IsPlayableChampion(Object([("name", Str("Vi")), ("cost", Bool(true)), ("traits", List([Str("X")]))]))
            == Ok(true)
  {
    var u := Object([("name", Str("Vi")), ("cost", Bool(true)), ("traits", List([Str("X")]))]);
    assert NameText(u) == Ok(Lower("Vi"));
    assert Lower("") == [];
    assert ApiText(u) == Ok("");
    ShortNotFlagged(Lower("Vi"), "");
  }
}
