/**
 * The labelling of detector output in inference.py: class ids become unit
 * names through the detector's id-to-name table, screenshot by screenshot.
 * The detector itself (YOLO, the crop and the temporary PNG) is a parameter:
 * a function from an image to what the prediction yielded.
 */
module Inference {
  import opened Py
  import opened SeqFacts

  /** What one prediction yields: nothing (it raised), or the name table and the detected class ids in box order. */
  datatype Detection =
    | PredictionFailed
    | Detected(names: map<int, string>, cls: seq<int>)

  /** The second value `process_image_and_predict` returns: the `[]` literal of the failure path, or the class tensor. */
  datatype UnitIds = PyList(xs: seq<int>) | Tensor(xs: seq<int>)

  /** The triple `process_image_and_predict` returns, without its third value (the first box). */
  datatype Triple = Triple(champList: map<int, string>, unitIds: UnitIds)

  const FailureTriple := Triple(map[], PyList([]))

  /**
   * Lines 19-25: the values of the first detection, or the empty triple when
   * the prediction raised; `boxes.xyxy[0]` raises too when nothing was
   * detected, so an empty detection also gives the empty triple.
   */
  function ProcessImageAndPredict(d: Detection): (t: Triple)
    ensures d.PredictionFailed? ==> t == FailureTriple
    ensures d.Detected? && d.cls == [] ==> t == FailureTriple
    ensures t != FailureTriple <==> d.Detected? && d.cls != []
    ensures t != FailureTriple ==> t.champList == d.names && t.unitIds == Tensor(d.cls)
  {
    match d
    case PredictionFailed => FailureTriple
    case Detected(names, cls) => if cls == [] then FailureTriple else Triple(names, Tensor(cls))
  }

  /** `champ_list[unit_id] for unit_id in unit_ids if unit_id in champ_list` */
  function GetChampionNames(champList: map<int, string>, ids: seq<int>): (r: seq<string>)
    ensures |r| <= |ids|
  {
    if ids == [] then []
    else
      var init := GetChampionNames(champList, ids[..|ids| - 1]);
      var last := ids[|ids| - 1];
      if last in champList then init + [champList[last]] else init
  }

  /** Every name returned is a value of `champ_list`. */
  lemma {:induction false} NamesAreTableValues(champList: map<int, string>, ids: seq<int>)
    ensures forall n :: n in GetChampionNames(champList, ids) ==> n in champList.Values
  {
    if ids != [] {
      NamesAreTableValues(champList, ids[..|ids| - 1]);
    }
  }

  /** When no id is known, nothing is returned. */
  lemma {:induction false} NoKnownIdNoNames(champList: map<int, string>, ids: seq<int>)
    requires forall i :: 0 <= i < |ids| ==> ids[i] !in champList
    ensures GetChampionNames(champList, ids) == []
  {
    if ids != [] {
      var init := ids[..|ids| - 1];
      assert forall i :: 0 <= i < |init| ==> init[i] == ids[i];
      NoKnownIdNoNames(champList, init);
    }
  }

  /** The positions of `ids` whose id the table knows, in increasing order. */
  function KnownPositions(champList: map<int, string>, ids: seq<int>): (r: seq<nat>)
    ensures forall k :: 0 <= k < |r| ==> r[k] < |ids| && ids[r[k]] in champList
    ensures forall k, l :: 0 <= k < l < |r| ==> r[k] < r[l]
    ensures forall i :: 0 <= i < |ids| && ids[i] in champList ==> i in r
  {
    if ids == [] then []
    else
      var init := KnownPositions(champList, ids[..|ids| - 1]);
      if ids[|ids| - 1] in champList then init + [|ids| - 1] else init
  }

  /**
   * Line 31: the k-th name is the table's entry for the k-th id the table
   * knows; unknown ids are skipped and the ids' order is kept.
   */
  lemma {:induction false} NamesAtKnownPositions(champList: map<int, string>, ids: seq<int>)
    ensures var r, p := GetChampionNames(champList, ids), KnownPositions(champList, ids);
      |r| == |p| && forall k :: 0 <= k < |r| ==> r[k] == champList[ids[p[k]]]
  {
    if ids != [] {
      var init := ids[..|ids| - 1];
      NamesAtKnownPositions(champList, init);
      assert forall i :: 0 <= i < |init| ==> init[i] == ids[i];
    }
  }

  /** When every id is known, the names are the ids looked up one by one. */
  lemma {:induction false} AllKnownNames(champList: map<int, string>, ids: seq<int>)
    requires forall i :: 0 <= i < |ids| ==> ids[i] in champList
    ensures var r := GetChampionNames(champList, ids);
      |r| == |ids| && forall i :: 0 <= i < |ids| ==> r[i] == champList[ids[i]]
  {
    if ids != [] {
      var init := ids[..|ids| - 1];
      assert forall i :: 0 <= i < |init| ==> init[i] == ids[i];
      AllKnownNames(champList, init);
    }
  }

  /** The comprehension distributes over concatenation of the ids. */
  lemma {:induction false} NamesConcat(champList: map<int, string>, a: seq<int>, b: seq<int>)
    ensures GetChampionNames(champList, a + b) == GetChampionNames(champList, a) + GetChampionNames(champList, b)
    decreases |b|
  {
    if b == [] {
      assert a + b == a;
    } else {
      var b0, x := b[..|b| - 1], b[|b| - 1];
      assert b == b0 + [x];
      NamesConcat(champList, a, b0);
      LastIdStep(champList, a, b0, x);
    }
  }

  lemma {:induction false} LastIdStep(champList: map<int, string>, a: seq<int>, b0: seq<int>, x: int)
    requires GetChampionNames(champList, a + b0) == GetChampionNames(champList, a) + GetChampionNames(champList, b0)
    ensures GetChampionNames(champList, a + (b0 + [x])) == GetChampionNames(champList, a) + GetChampionNames(champList, b0 + [x])
  {
    SeqAssoc(a, b0, [x]);
    NamesSnoc(champList, a + b0, x);
    NamesSnoc(champList, b0, x);
    var ga, gb, step := GetChampionNames(champList, a), GetChampionNames(champList, b0), if x in champList then [champList[x]] else [];
    SeqAssoc(ga, gb, step);
  }

  /** One more id appends its name, if the table knows it. */
  lemma {:induction false} NamesSnoc(champList: map<int, string>, ids: seq<int>, x: int)
    ensures GetChampionNames(champList, ids + [x]) ==
            GetChampionNames(champList, ids) + (if x in champList then [champList[x]] else [])
  {
    assert (ids + [x])[..|ids|] == ids;
  }

  /** Line 31 drops an id the table does not know, wherever it stands. */
  lemma {:induction false} UnknownIdDropped(champList: map<int, string>, a: seq<int>, x: int, b: seq<int>)
    requires x !in champList
    ensures GetChampionNames(champList, a + [x] + b) == GetChampionNames(champList, a + b)
  {
    NamesConcat(champList, a + [x], b);
    NamesConcat(champList, a, [x]);
    NamesConcat(champList, a, b);
    assert [x][..0] == [];
  }

  /** A known id detected n times yields its name at least n times. */
  lemma {:induction false} RepeatedIdRepeatedName(champList: map<int, string>, ids: seq<int>, id: int)
    requires id in champList
    ensures multiset(GetChampionNames(champList, ids))[champList[id]] >= multiset(ids)[id]
  {
    if ids != [] {
      var init := ids[..|ids| - 1];
      var last := ids[|ids| - 1];
      RepeatedIdRepeatedName(champList, init, id);
      assert ids == init + [last];
    }
  }

  /** `bool()` of the second value: a list is true when non-empty; a tensor needs exactly one element. */
  function Truthiness(u: UnitIds): (r: Result<bool>)
    ensures r.Err? <==> u.Tensor? && |u.xs| != 1
    ensures r == Ok(true) <==> (u.PyList? && u.xs != []) || (u.Tensor? && |u.xs| == 1 && u.xs[0] != 0)
  {
    match u
    case PyList(xs) => Ok(xs != [])
    case Tensor(xs) => if |xs| == 1 then Ok(xs[0] != 0) else Err(RuntimeError)
  }

  /** Lines 37-39 as written: what the try block adds to `champions`, or the exception it raises. */
  function ScreenshotStepAsWritten(d: Detection): Result<seq<string>> {
    var t := ProcessImageAndPredict(d);
    if t.champList == map[] then Ok([])
    else
      var nonEmpty :- Truthiness(t.unitIds);
      Ok(if nonEmpty then GetChampionNames(t.champList, t.unitIds.xs) else [])
  }

  /**
   * Lines 36-42 as written: an exception from line 38 is caught at line 41,
   * so a screenshot contributes names only when it holds exactly one
   * detection, of a class other than 0.
   */
  function ScreenshotNamesAsWritten(d: Detection): (r: seq<string>)
    ensures |r| <= 1
    ensures r != [] ==> d.Detected? && |d.cls| == 1 && d.cls[0] != 0 && d.cls[0] in d.names &&
                        r == [d.names[d.cls[0]]]
  {
    match ScreenshotStepAsWritten(d)
    case Ok(names) => names
    case Err(_) => []
  }

  /** What a screenshot adds when line 38 tests for a non-empty table and a non-empty id list. */
  function ScreenshotNames(d: Detection): (r: seq<string>)
    ensures d.PredictionFailed? ==> r == []
    ensures d.Detected? ==> |r| <= |d.cls|
  {
    if d.Detected? then GetChampionNames(d.names, d.cls) else []
  }

  /** With one detection of a non-zero class, or none, the two readings of line 38 agree. */
  lemma {:induction false} AsWrittenAgrees(d: Detection)
    requires d.PredictionFailed? || d.cls == [] || (|d.cls| == 1 && d.cls[0] != 0)
    ensures ScreenshotNamesAsWritten(d) == ScreenshotNames(d)
  {
    if d.Detected? && d.cls != [] && d.names != map[] {
      assert Truthiness(Tensor(d.cls)) == Ok(true);
    }
  }

  /** Two detected units: `bool()` of the tensor raises, the exception is swallowed and both are lost. */
  lemma {:induction false} TwoDetectionsLost()
    ensures ScreenshotNamesAsWritten(Detected(map[1 := "Ahri", 2 := "Jinx"], [1, 2])) == []
    ensures ScreenshotNames(Detected(map[1 := "Ahri", 2 := "Jinx"], [1, 2])) == ["Ahri", "Jinx"]
  {
    AllKnownNames(map[1 := "Ahri", 2 := "Jinx"], [1, 2]);
  }

  /** One detection of class 0: the tensor is falsy and the unit is lost. */
  lemma {:induction false} ClassZeroLost()
    ensures ScreenshotNamesAsWritten(Detected(map[0 := "Aatrox"], [0])) == []
    ensures ScreenshotNames(Detected(map[0 := "Aatrox"], [0])) == ["Aatrox"]
  {
    AllKnownNames(map[0 := "Aatrox"], [0]);
  }

  /** The names all screenshots contribute, in screenshot order. */
  function AllNames<Img>(predict: Img -> Detection, shots: seq<Img>): seq<string> {
    if shots == [] then []
    else AllNames(predict, shots[..|shots| - 1]) + ScreenshotNames(predict(shots[|shots| - 1]))
  }

  /** `name` is an entry of the name table of some screenshot whose prediction succeeded. */
  predicate FromSomeScreenshot<Img>(predict: Img -> Detection, shots: seq<Img>, name: string) {
    exists j :: 0 <= j < |shots| && predict(shots[j]).Detected? && name in predict(shots[j]).names.Values
  }

  /** Every name reported is the table entry of a screenshot whose prediction succeeded. */
  lemma {:induction false} NamesComeFromScreenshots<Img>(predict: Img -> Detection, shots: seq<Img>)
    ensures forall n :: n in AllNames(predict, shots) ==> FromSomeScreenshot(predict, shots, n)
  {
    if shots != [] {
      var init := shots[..|shots| - 1];
      var x := shots[|shots| - 1];
      NamesComeFromScreenshots(predict, init);
      var a, b := AllNames(predict, init), ScreenshotNames(predict(x));
      forall n | n in a + b
        ensures FromSomeScreenshot(predict, shots, n)
      {
        if n in a {
          assert FromSomeScreenshot(predict, init, n);
          var j :| 0 <= j < |init| && predict(init[j]).Detected? && n in predict(init[j]).names.Values;
          assert init[j] == shots[j];
        } else {
          assert predict(x).Detected?;
          assert b == GetChampionNames(predict(x).names, predict(x).cls);
          NamesAreTableValues(predict(x).names, predict(x).cls);
          assert shots[|shots| - 1] == x;
        }
      }
    }
  }

  /** The result for a run of screenshots is the results for its parts, concatenated. */
  lemma {:induction false} AllNamesConcat<Img>(predict: Img -> Detection, a: seq<Img>, b: seq<Img>)
    ensures AllNames(predict, a + b) == AllNames(predict, a) + AllNames(predict, b)
    decreases |b|
  {
    if b == [] {
      assert a + b == a;
    } else {
      var b0, x := b[..|b| - 1], b[|b| - 1];
      assert b == b0 + [x];
      AllNamesConcat(predict, a, b0);
      LastScreenshotStep(predict, a, b0, x);
    }
  }

  lemma {:induction false} LastScreenshotStep<Img>(predict: Img -> Detection, a: seq<Img>, b0: seq<Img>, x: Img)
    requires AllNames(predict, a + b0) == AllNames(predict, a) + AllNames(predict, b0)
    ensures AllNames(predict, a + (b0 + [x])) == AllNames(predict, a) + AllNames(predict, b0 + [x])
  {
    SeqAssoc(a, b0, [x]);
    ScreenshotSnoc(predict, a + b0, x);
    ScreenshotSnoc(predict, b0, x);
    var ga, gb, step := AllNames(predict, a), AllNames(predict, b0), ScreenshotNames(predict(x));
    SeqAssoc(ga, gb, step);
  }

  /** One more screenshot appends what it contributes. */
  lemma {:induction false} ScreenshotSnoc<Img>(predict: Img -> Detection, shots: seq<Img>, x: Img)
    ensures AllNames(predict, shots + [x]) == AllNames(predict, shots) + ScreenshotNames(predict(x))
  {
    assert (shots + [x])[..|shots|] == shots;
  }

  /** A screenshot whose prediction failed or found nothing adds no names, wherever it stands. */
  lemma {:induction false} EmptyScreenshotAddsNothing<Img>(predict: Img -> Detection, a: seq<Img>, x: Img, b: seq<Img>)
    requires predict(x).PredictionFailed? || predict(x).cls == []
    ensures AllNames(predict, a + [x] + b) == AllNames(predict, a + b)
  {
    AllNamesConcat(predict, a + [x], b);
    AllNamesConcat(predict, a, [x]);
    AllNamesConcat(predict, a, b);
    assert [x][..0] == [];
    assert AllNames(predict, [x]) == AllNames(predict, []) + ScreenshotNames(predict(x)) == [];
  }

  /** The guard of line 38, read as intended, filters only cases that contribute nothing anyway. */
  lemma {:induction false} GuardedStep(d: Detection)
    ensures var t := ProcessImageAndPredict(d);
      (if t.champList != map[] && t.unitIds.xs != [] then GetChampionNames(t.champList, t.unitIds.xs) else [])
        == ScreenshotNames(d)
  {
    if d.Detected? {
      NoKnownIdNoNames(map[], d.cls);
    }
  }

  /**
   * Lines 33-44: `champions` is extended screenshot by screenshot, so it ends
   * as the per-screenshot name lists concatenated in screenshot order.
   */
  method ProcessScreenshots<Img>(predict: Img -> Detection, screenshots: seq<Img>) returns (champions: seq<string>)
    ensures champions == AllNames(predict, screenshots)
    ensures forall n :: n in champions ==> FromSomeScreenshot(predict, screenshots, n)
  {
    champions := [];
    for i := 0 to |screenshots|
      invariant champions == AllNames(predict, screenshots[..i])
    {
      var t := ProcessImageAndPredict(predict(screenshots[i]));
      GuardedStep(predict(screenshots[i]));
      if t.champList != map[] && t.unitIds.xs != [] {
        champions := champions + GetChampionNames(t.champList, t.unitIds.xs);
      }
      assert screenshots[..i + 1][..i] == screenshots[..i];
    }
    assert screenshots[..|screenshots|] == screenshots;
    NamesComeFromScreenshots(predict, screenshots);
  }
}
