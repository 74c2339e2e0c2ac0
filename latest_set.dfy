/**
 * Choosing the newest set of the feed (scripts/fetch_assets.py): the sets are
 * sorted by their `number` (a missing number counting as 0) with Python's
 * stable sort, and the last one is taken.
 */
module LatestSet {
  import opened Py
  import opened PyJson

  const NoSetsMessage := "No sets found in TFT JSON; abort."

  /** `sets_raw = tft.get("sets", {})`, the abort when it is falsy, and `list(sets_raw.values())` for a dict. */
  function SetList(tft: Json): (r: Result<seq<Json>>)
    ensures r.Ok? ==> r.value != []
    // `tft.get` on a feed that is not a dict
    ensures !tft.Object? ==> r == Err(AttributeError)
    ensures tft.Object? && !Truthy(GetOr(tft, "sets", Object([]))) ==> r == Err(SystemExit(NoSetsMessage))
    ensures tft.Object? && GetOr(tft, "sets", Object([])).Object? && Truthy(GetOr(tft, "sets", Object([]))) ==>
              r == Ok(Values(GetOr(tft, "sets", Object([])).fields))
    // anything else is used as given: a list is the sets, a string iterates its characters, a number raises
    ensures tft.Object? && GetOr(tft, "sets", Object([])).List? && Truthy(GetOr(tft, "sets", Object([]))) ==>
              r == Ok(GetOr(tft, "sets", Object([])).items)
    ensures tft.Object? && GetOr(tft, "sets", Object([])).Str? && Truthy(GetOr(tft, "sets", Object([]))) ==>
              r == Ok(Chars(GetOr(tft, "sets", Object([])).s))
    ensures tft.Object? && Truthy(GetOr(tft, "sets", Object([]))) &&
              (GetOr(tft, "sets", Object([])).Int? || GetOr(tft, "sets", Object([])).Bool?)
            ==> r == Err(TypeError)
  {
    if !tft.Object? then Err(AttributeError)
    else
      var raw := GetOr(tft, "sets", Object([]));
      if !Truthy(raw) then Err(SystemExit(NoSetsMessage))
      else match raw
        case Object(fs) => Ok(Values(fs))
        case List(xs) => Ok(xs)
        case Str(s) => Ok(Chars(s))
        case _ => Err(TypeError)   // a number is not iterable
  }

  /** The set's `number` is one Python can order against ints: an int, a bool, or missing (read as 0). */
  predicate Ordered(s: Json) {
    s.Object? && (GetOr(s, "number", Int(0)).Int? || GetOr(s, "number", Int(0)).Bool?)
  }

  /** `s.get("number", 0)` as an int. */
  function SetNumber(s: Json): int {
    if !s.Object? then 0
    else match GetOr(s, "number", Int(0))
      case Int(i) => i
      case Bool(b) => if b then 1 else 0
      case _ => 0
  }

  function Numbers(sets: seq<Json>): (keys: seq<int>)
    ensures |keys| == |sets| && forall j :: 0 <= j < |sets| ==> keys[j] == SetNumber(sets[j])
  {
    seq(|sets|, j requires 0 <= j < |sets| => SetNumber(sets[j]))
  }

  predicate IndicesBelow(s: seq<nat>, n: int) {
    forall a :: 0 <= a < |s| ==> s[a] < n
  }

  /** Keys never decrease along `s`. */
  predicate SortedBy(keys: seq<int>, s: seq<nat>)
    requires IndicesBelow(s, |keys|)
  {
    forall a, b :: 0 <= a < b < |s| ==> keys[s[a]] <= keys[s[b]]
  }

  /** Indices with equal keys keep their original order. */
  predicate StableBy(keys: seq<int>, s: seq<nat>)
    requires IndicesBelow(s, |keys|)
  {
    forall a, b :: 0 <= a < b < |s| && keys[s[a]] == keys[s[b]] ==> s[a] < s[b]
  }

  /** Inserts index `i` after every entry whose key is at most `keys[i]`: one step of a stable insertion sort. */
  function Insert(keys: seq<int>, sorted: seq<nat>, i: nat): (r: seq<nat>)
    requires i < |keys| && IndicesBelow(sorted, |keys|)
    ensures |r| == |sorted| + 1 && IndicesBelow(r, |keys|)
    ensures forall x :: x in r <==> x in sorted || x == i
    ensures forall a :: 0 <= a < |r| ==> r[a] == i || r[a] in sorted
    decreases |sorted|
  {
    if sorted == [] then [i]
    else
      var last := sorted[|sorted| - 1];
      if keys[last] <= keys[i] then sorted + [i]
      else
        var init := sorted[..|sorted| - 1];
        assert forall x :: x in init ==> x in sorted;
        Insert(keys, init, i) + [last]
  }

  /** `sorted(range(n), key=lambda j: keys[j])` */
  function SortedIndices(keys: seq<int>, n: nat): (r: seq<nat>)
    requires n <= |keys|
    ensures |r| == n && IndicesBelow(r, n)
    ensures forall j :: 0 <= j < n ==> j in r
  {
    if n == 0 then []
    else
      var prev := SortedIndices(keys, n - 1);
      var r := Insert(keys, prev, n - 1);
      assert forall a :: 0 <= a < |r| ==> r[a] == n - 1 || r[a] in prev;
      r
  }

  lemma {:induction false} InsertSortedStable(keys: seq<int>, sorted: seq<nat>, i: nat)
    requires i < |keys| && IndicesBelow(sorted, i)
    requires SortedBy(keys, sorted) && StableBy(keys, sorted)
    ensures SortedBy(keys, Insert(keys, sorted, i)) && StableBy(keys, Insert(keys, sorted, i))
    decreases |sorted|
  {
    if sorted != [] {
      var last := sorted[|sorted| - 1];
      if keys[last] <= keys[i] {
        forall a | 0 <= a < |sorted| ensures Before(keys, sorted[a], i) {
          assert keys[sorted[a]] <= keys[last];
        }
        AppendSortedStable(keys, sorted, i);
      } else {
        var init := sorted[..|sorted| - 1];
        InsertSortedStable(keys, init, i);
        var ins := Insert(keys, init, i);
        forall a | 0 <= a < |ins| ensures Before(keys, ins[a], last) {
          if ins[a] != i {
            var p :| 0 <= p < |init| && init[p] == ins[a];
            assert sorted[p] == init[p];
          }
        }
        AppendSortedStable(keys, ins, last);
      }
    }
  }

  /** `x` may stand before `y` in a stable sort by `keys`. */
  predicate Before(keys: seq<int>, x: nat, y: nat)
    requires x < |keys| && y < |keys|
  {
    keys[x] < keys[y] || (keys[x] == keys[y] && x < y)
  }

  lemma {:induction false} AppendSortedStable(keys: seq<int>, s: seq<nat>, y: nat)
    requires y < |keys| && IndicesBelow(s, |keys|)
    requires SortedBy(keys, s) && StableBy(keys, s)
    requires forall a :: 0 <= a < |s| ==> Before(keys, s[a], y)
    ensures IndicesBelow(s + [y], |keys|)
    ensures SortedBy(keys, s + [y]) && StableBy(keys, s + [y])
  {
  }

  lemma {:induction false} SortedIndicesSortedStable(keys: seq<int>, n: nat)
    requires n <= |keys|
    ensures SortedBy(keys, SortedIndices(keys, n)) && StableBy(keys, SortedIndices(keys, n))
  {
    if n > 0 {
      SortedIndicesSortedStable(keys, n - 1);
      InsertSortedStable(keys, SortedIndices(keys, n - 1), n - 1);
    }
  }

  /**
   * The last index of the stable sort holds a greatest key, and every index
   * after it holds a strictly smaller one: among equal greatest keys the last
   * in input order wins.
   */
  lemma {:induction false} LastOfSorted(keys: seq<int>)
    requires keys != []
    ensures var top := SortedIndices(keys, |keys|)[|keys| - 1];
      top < |keys| &&
      (forall j :: 0 <= j < |keys| ==> keys[j] <= keys[top]) &&
      (forall j :: top < j < |keys| ==> keys[j] < keys[top])
  {
    var n := |keys|;
    var r := SortedIndices(keys, n);
    SortedIndicesSortedStable(keys, n);
    forall j | 0 <= j < n ensures keys[j] <= keys[r[n - 1]] && (r[n - 1] < j ==> keys[j] < keys[r[n - 1]]) {
      LastIsGreatest(keys, r, j);
    }
  }

  /** In a stably sorted run of indices, the last one beats every index listed before it. */
  lemma {:induction false} LastIsGreatest(keys: seq<int>, r: seq<nat>, j: nat)
    requires r != [] && IndicesBelow(r, |keys|) && SortedBy(keys, r) && StableBy(keys, r) && j in r
    ensures j < |keys| && keys[j] <= keys[r[|r| - 1]]
    ensures r[|r| - 1] < j ==> keys[j] < keys[r[|r| - 1]]
  {
    var p :| 0 <= p < |r| && r[p] == j;
    if p < |r| - 1 {
      assert keys[r[p]] <= keys[r[|r| - 1]];
    }
  }

  /** `sorted(sets, key=lambda s: s.get("number", 0))[-1]`, as an index into `sets`. */
  function LatestIndex(sets: seq<Json>): (r: Result<nat>)
    requires sets != []
    // every key is computed first: a set that is not a dict has no `.get`
    ensures (exists j :: 0 <= j < |sets| && !sets[j].Object?) ==> r == Err(AttributeError)
    // ordering keys Python cannot compare raises
    ensures ((forall j :: 0 <= j < |sets| ==> sets[j].Object?) && |sets| >= 2 &&
             (exists j :: 0 <= j < |sets| && !Ordered(sets[j])))
            ==> r == Err(TypeError)
    ensures r.Ok? <==>
              (forall j :: 0 <= j < |sets| ==> sets[j].Object?) &&
              (|sets| == 1 || forall j :: 0 <= j < |sets| ==> Ordered(sets[j]))
    ensures r.Ok? ==> r.value < |sets|
    ensures r.Ok? ==> forall j :: 0 <= j < |sets| ==> SetNumber(sets[j]) <= SetNumber(sets[r.value])
    ensures r.Ok? ==> forall j :: r.value < j < |sets| ==> SetNumber(sets[j]) < SetNumber(sets[r.value])
  {
    if exists j :: 0 <= j < |sets| && !sets[j].Object? then Err(AttributeError)
    else if |sets| >= 2 && exists j :: 0 <= j < |sets| && !Ordered(sets[j]) then Err(TypeError)
    else
      var keys := Numbers(sets);
      LastOfSorted(keys);
      Ok(SortedIndices(keys, |keys|)[|keys| - 1])
  }

  /** `latest`: the set the rest of the script reads its units and number from. */
  function LatestSet(tft: Json): (r: Result<Json>)
    ensures r.Ok? ==> r.value.Object?
    ensures r.Ok? ==> SetList(tft).Ok? && r.value in SetList(tft).value &&
                      forall s :: s in SetList(tft).value ==> SetNumber(s) <= SetNumber(r.value)
    ensures SetList(tft).Err? ==> r == Err(SetList(tft).error)
    // with a set list, `latest` is the set the stable sort puts last, or the sort raises
    ensures SetList(tft).Ok? ==>
              match LatestIndex(SetList(tft).value)
              case Ok(k) => r == Ok(SetList(tft).value[k])
              case Err(e) => r == Err(e)
    // so among the sets numbered highest, the one listed last is chosen
    ensures r.Ok? ==> exists k :: 0 <= k < |SetList(tft).value| && r.value == SetList(tft).value[k] &&
                        forall j :: k < j < |SetList(tft).value| ==> SetNumber(SetList(tft).value[j]) < SetNumber(r.value)
  {
    var sets :- SetList(tft);
    var k :- LatestIndex(sets);
    Ok(sets[k])
  }

  /** Two sets numbered alike: the one listed later is taken. */
  lemma {:induction false} TieGoesToLaterSet()
    ensures LatestSet(Object([("sets", List([Object([("number", Int(13)), ("name", Str("A"))]),
                                              Object([("number", Int(13)), ("name", Str("B"))]),
                                              Object([("number", Int(12))])]))]))
            == Ok(Object([("number", Int(13)), ("name", Str("B"))]))
  {
    var a := Object([("number", Int(13)), ("name", Str("A"))]);
    var b := Object([("number", Int(13)), ("name", Str("B"))]);
    var c := Object([("number", Int(12))]);
    var sets := [a, b, c];
    assert SetList(Object([("sets", List(sets))])) == Ok(sets);
    var r := LatestIndex(sets);
    assert Ordered(a) && Ordered(b) && Ordered(c);
    assert r.Ok?;
    assert sets[0] == a && sets[1] == b && sets[2] == c;
    assert SetNumber(a) == 13 && SetNumber(b) == 13 && SetNumber(c) == 12;
    var v := r.value;
    assert SetNumber(sets[1]) <= SetNumber(sets[v]);
    assert v == 1;
  }
}
