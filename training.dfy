/**
 * The bookkeeping around model training in backend/ml/train_model.py: the
 * null-row drop, the class counts and the imbalance weight, the mapping of
 * booster importance keys `f0`, `f1`, ... back to feature names, the test
 * accuracy and the metadata file name.  The booster itself is not modelled.
 */
module Training {
  import opened Wrappers
  import Text
  import Sorting
  import Features

  /** One engineered row beside its `flood_occurred` label. */
  datatype TrainingRow = TrainingRow(features: Features.FeatureRow, floodOccurred: int)

  /** A row has no null cell: every shifted and differenced column has a value. */
  predicate Complete(r: TrainingRow)
  {
    var f := r.features;
    f.precipRateOfChange.Some?
    && f.precipitationLag1.Some? && f.precipitationLag3.Some?
    && f.temperatureLag1.Some? && f.temperatureLag3.Some?
    && f.humidityLag1.Some? && f.humidityLag3.Some?
  }

  /** `df.dropna()`: the complete rows, in their original order. */
  function DropIncomplete(rows: seq<TrainingRow>): (clean: seq<TrainingRow>)
    ensures |clean| <= |rows|
    ensures forall r :: r in clean <==> r in rows && Complete(r)
  {
    if rows == [] then []
    else
      var n := |rows| - 1;
      var prev := DropIncomplete(rows[..n]);
      assert rows == rows[..n] + [rows[n]];
      if Complete(rows[n]) then prev + [rows[n]] else prev
  }

  /** Dropping nulls from a concatenation drops them from each part and keeps the order. */
  lemma {:induction false} DropIncompleteAppend(a: seq<TrainingRow>, b: seq<TrainingRow>)
    ensures DropIncomplete(a + b) == DropIncomplete(a) + DropIncomplete(b)
  {
    if b == [] {
      DropIncompleteNil(a);
    } else {
      var n := |b| - 1;
      var x := b[n];
      var front := b[..n];
      var tail := if Complete(x) then [x] else [];
      var da, df := DropIncomplete(a), DropIncomplete(front);
      assert DropIncomplete(a + front) == da + df by {
        DropIncompleteAppend(a, front);
      }
      SplitLast(a, b);
      assert DropIncomplete(a + b) == (da + df) + tail by {
        DropIncompleteSnoc(a + front, x);
      }
      assert DropIncomplete(b) == df + tail by {
        DropIncompleteSnoc(front, x);
      }
      assert (da + df) + tail == da + (df + tail);
    }
  }

  /** Splitting the last element off the second part of a concatenation. */
  lemma SplitLast<T>(a: seq<T>, b: seq<T>)
    requires b != []
    ensures a + b == (a + b[..|b| - 1]) + [b[|b| - 1]]
    ensures b == b[..|b| - 1] + [b[|b| - 1]]
  {
  }

  lemma DropIncompleteNil(a: seq<TrainingRow>)
    ensures DropIncomplete(a + []) == DropIncomplete(a) + DropIncomplete([])
  {
    assert a + [] == a;
  }

  /** Appending one row appends it to the clean rows exactly when it is complete. */
  lemma DropIncompleteSnoc(rows: seq<TrainingRow>, x: TrainingRow)
    ensures DropIncomplete(rows + [x]) == DropIncomplete(rows) + if Complete(x) then [x] else []
  {
    var s := rows + [x];
    assert s[..|s| - 1] == rows;
  }

  /** A single row is kept exactly when it is complete. */
  lemma DropIncompleteSingle(r: TrainingRow)
    ensures DropIncomplete([r]) == if Complete(r) then [r] else []
  {
    assert [r][..0] == [];
  }

  /** Dropping nulls twice drops nothing more. */
  lemma {:induction false} DropIncompleteIdempotent(rows: seq<TrainingRow>)
    ensures DropIncomplete(DropIncomplete(rows)) == DropIncomplete(rows)
  {
    var clean := DropIncomplete(rows);
    CompleteRowsKept(clean);
  }

  /** A table with no null cell is left as it is. */
  lemma {:induction false} CompleteRowsKept(rows: seq<TrainingRow>)
    requires forall r :: r in rows ==> Complete(r)
    ensures DropIncomplete(rows) == rows
  {
    if rows != [] {
      var n := |rows| - 1;
      CompleteRowsKept(rows[..n]);
      assert rows == rows[..n] + [rows[n]];
    }
  }

  /** The `flood_occurred` column. */
  function Labels(rows: seq<TrainingRow>): (y: seq<int>)
    ensures |y| == |rows|
    ensures forall i :: 0 <= i < |rows| ==> y[i] == rows[i].floodOccurred
  {
    seq(|rows|, i requires 0 <= i < |rows| => rows[i].floodOccurred)
  }

  /** `y.sum()`. */
  function LabelSum(y: seq<int>): int
  {
    if y == [] then 0 else y[0] + LabelSum(y[1..])
  }

  /** The number of labels equal to `v`. */
  function CountOf(y: seq<int>, v: int): (n: nat)
    ensures n <= |y|
  {
    if y == [] then 0 else (if y[0] == v then 1 else 0) + CountOf(y[1..], v)
  }

  predicate Binary(y: seq<int>)
  {
    forall i :: 0 <= i < |y| ==> y[i] == 0 || y[i] == 1
  }

  /**
   * With 0/1 labels the reported `positive_samples` (the sum) counts the floods
   * and `negative_samples` (length minus the sum) counts the rest.
   */
  lemma {:induction false} ClassCounts(y: seq<int>)
    ensures Binary(y) ==> LabelSum(y) == CountOf(y, 1) && |y| - LabelSum(y) == CountOf(y, 0)
  {
    if y != [] && Binary(y) {
      assert Binary(y[1..]) by {
        forall i | 0 <= i < |y[1..]| ensures y[1..][i] == 0 || y[1..][i] == 1 {
          assert y[1..][i] == y[i + 1];
        }
      }
      ClassCounts(y[1..]);
    }
  }

  /** The class sizes the metadata file reports. */
  datatype ClassBalance = ClassBalance(positiveSamples: int, negativeSamples: int, fewPositives: bool)

  /**
   * The counts over the cleaned labels, and whether the low-positive warning is
   * printed (training goes on either way).
   */
  function Balance(y: seq<int>): (b: ClassBalance)
    ensures b.positiveSamples + b.negativeSamples == |y|
    ensures b.fewPositives <==> b.positiveSamples < 10
    ensures Binary(y) ==> b.positiveSamples == CountOf(y, 1) && b.negativeSamples == CountOf(y, 0)
  {
    ClassCounts(y);
    var pos := LabelSum(y);
    ClassBalance(pos, |y| - pos, pos < 10)
  }

  /**
   * `scale_pos_weight`: the ratio of negative to positive training labels, or
   * 1.0 when there are no positives.
   */
  function ScalePosWeight(trainSize: nat, positives: int): (w: real)
    ensures positives > 0 ==> w * positives as real == (trainSize - positives) as real
    ensures positives > 0 && positives <= trainSize ==> w >= 0.0
    ensures positives <= 0 ==> w == 1.0
  {
    if positives > 0 then (trainSize - positives) as real / positives as real else 1.0
  }

  /** `positives` items of weight `w` weigh as much as `negatives` items of weight 1. */
  predicate Balanced(w: real, positives: nat, negatives: nat)
  {
    w * positives as real == negatives as real
  }

  /** Weighted by `scale_pos_weight`, the positives weigh as much as the negatives. */
  lemma WeightBalancesClasses(yTrain: seq<int>)
    requires Binary(yTrain)
    requires CountOf(yTrain, 1) > 0
    ensures Balanced(ScalePosWeight(|yTrain|, LabelSum(yTrain)), CountOf(yTrain, 1), CountOf(yTrain, 0))
  {
    ClassCounts(yTrain);
    WeightTimesPositives(|yTrain|, LabelSum(yTrain), CountOf(yTrain, 1), CountOf(yTrain, 0));
  }

  lemma WeightTimesPositives(n: nat, pos: int, c1: nat, c0: nat)
    requires pos == c1 && n - pos == c0 && c1 > 0
    ensures Balanced(ScalePosWeight(n, pos), c1, c0)
  {
    var w := ScalePosWeight(n, pos);
    assert w * pos as real == (n - pos) as real;
  }

  // ---------------------------------------------------------------------------
  // Feature importance
  // ---------------------------------------------------------------------------

  /** The booster's name for the feature in column `i`: `f{i}`. */
  function FeatureKey(i: nat): (k: string)
    ensures |k| >= 2 && k[0] == 'f' && Text.AllDigits(k[1..])
  {
    "f" + Text.NatToString(i)
  }

  /** Distinct columns have distinct booster keys, so no importance is credited twice. */
  lemma FeatureKeyInjective(i: nat, j: nat)
    ensures FeatureKey(i) == FeatureKey(j) <==> i == j
  {
    if FeatureKey(i) == FeatureKey(j) {
      assert Text.NatToString(i) == FeatureKey(i)[1..];
      assert Text.NatToString(j) == FeatureKey(j)[1..];
      Text.DigitsRoundTrip(i);
      Text.DigitsRoundTrip(j);
    }
  }

  /** `importance_dict.get(f"f{i}", 0)`. */
  function ImportanceOf(scores: map<string, real>, i: nat): (v: real)
    ensures FeatureKey(i) in scores ==> v == scores[FeatureKey(i)]
    ensures FeatureKey(i) !in scores ==> v == 0.0
  {
    if FeatureKey(i) in scores then scores[FeatureKey(i)] else 0.0
  }

  /** One importance per feature column, column `i` reading key `f{i}`. */
  method ImportanceValues(featureCols: seq<string>, scores: map<string, real>) returns (values: seq<real>)
    ensures |values| == |featureCols|
    ensures forall i :: 0 <= i < |featureCols| ==> values[i] == ImportanceOf(scores, i)
  {
    values := [];
    for i := 0 to |featureCols|
      invariant |values| == i
      invariant forall j :: 0 <= j < i ==> values[j] == ImportanceOf(scores, j)
    {
      values := values + [ImportanceOf(scores, i)];
    }
  }

  /** A row of the importance table. */
  datatype Importance = Importance(feature: string, importance: real)

  /** Descending by importance, as `sort_values('importance', ascending=False)`. */
  predicate ByImportanceDescending(a: Importance, b: Importance)
  {
    a.importance >= b.importance
  }

  function Pair(featureCols: seq<string>, values: seq<real>): (t: seq<Importance>)
    requires |featureCols| == |values|
    ensures |t| == |featureCols|
    ensures forall i :: 0 <= i < |t| ==> t[i] == Importance(featureCols[i], values[i])
  {
    seq(|featureCols|, i requires 0 <= i < |featureCols| => Importance(featureCols[i], values[i]))
  }

  /**
   * The importance table: each feature beside its gain, most important first;
   * the order among equal gains is not fixed by the sort and is not stated.
   */
  method ImportanceTable(featureCols: seq<string>, scores: map<string, real>) returns (table: seq<Importance>)
    ensures |table| == |featureCols|
    ensures forall i :: 0 <= i < |table| - 1 ==> table[i].importance >= table[i + 1].importance
    ensures multiset(table) == multiset(Pair(featureCols, seq(|featureCols|, i requires 0 <= i < |featureCols| => ImportanceOf(scores, i))))
  {
    var values := ImportanceValues(featureCols, scores);
    assert values == seq(|featureCols|, i requires 0 <= i < |featureCols| => ImportanceOf(scores, i));
    table := Sorting.SortBy(Pair(featureCols, values), ByImportanceDescending);
    assert Sorting.SortedBy(table, ByImportanceDescending);
  }

  /** Every feature column appears in the importance table with the gain of its own key. */
  lemma ImportanceTableCoversColumns(featureCols: seq<string>, scores: map<string, real>, table: seq<Importance>, i: nat)
    requires i < |featureCols|
    requires multiset(table) == multiset(Pair(featureCols, seq(|featureCols|, j requires 0 <= j < |featureCols| => ImportanceOf(scores, j))))
    ensures Importance(featureCols[i], ImportanceOf(scores, i)) in table
  {
    var p := Pair(featureCols, seq(|featureCols|, j requires 0 <= j < |featureCols| => ImportanceOf(scores, j)));
    assert p[i] == Importance(featureCols[i], ImportanceOf(scores, i));
    assert p[i] in multiset(p);
  }

  // ---------------------------------------------------------------------------
  // Accuracy and the metadata path
  // ---------------------------------------------------------------------------

  /** The number of positions where the prediction equals the label. */
  function Matches(pred: seq<int>, y: seq<int>): (n: nat)
    requires |pred| == |y|
    ensures n <= |y|
    ensures n == |y| <==> forall i :: 0 <= i < |y| ==> pred[i] == y[i]
  {
    if y == [] then 0
    else
      var rest := Matches(pred[1..], y[1..]);
      assert forall i :: 1 <= i < |y| ==> pred[1..][i - 1] == pred[i] && y[1..][i - 1] == y[i];
      (if pred[0] == y[0] then 1 else 0) + rest
  }

  /**
   * `(test_pred == y_test).mean()`: the fraction of test rows predicted right;
   * the mean of an empty test set is NaN, here `None`.
   */
  function TestAccuracy(pred: seq<int>, y: seq<int>): (acc: Option<real>)
    requires |pred| == |y|
    ensures acc.Some? <==> y != []
    ensures acc.Some? ==> 0.0 <= acc.value <= 1.0
    ensures acc.Some? ==> (acc.value == 1.0 <==> forall i :: 0 <= i < |y| ==> pred[i] == y[i])
  {
    if y == [] then None
    else
      var m := Matches(pred, y);
      assert m as real / |y| as real <= 1.0 by {
        assert m as real <= |y| as real;
      }
      Some(m as real / |y| as real)
  }

  /** The final path component: the text after the last '/'. */
  function Name(path: string): (name: string)
    ensures |name| <= |path|
    ensures '/' !in name
    ensures path[|path| - |name|..] == name
  {
    match Text.LastIndexOf(path, '/')
    case None => path
    case Some(i) => path[i + 1..]
  }

  /** Everything before the final component, up to and including the last '/'. */
  function Parent(path: string): (dir: string)
    ensures dir + Name(path) == path
    ensures dir == [] || dir[|dir| - 1] == '/'
  {
    match Text.LastIndexOf(path, '/')
    case None => []
    case Some(i) =>
      assert path[..i + 1] + path[i + 1..] == path;
      path[..i + 1]
  }

  /**
   * `PurePath.suffix`: from the last '.' of the name, unless that dot starts
   * the name or ends it.
   */
  function Suffix(name: string): (suffix: string)
    ensures suffix == [] || (suffix[0] == '.' && 1 < |suffix| < |name| && name[|name| - |suffix|..] == suffix)
    ensures suffix != [] ==> '.' !in suffix[1..]
  {
    match Text.LastIndexOf(name, '.')
    case Some(i) => if 0 < i < |name| - 1 then name[i..] else []
    case None => []
  }

  /** The name without its suffix. */
  function Stem(name: string): (stem: string)
    ensures name != [] ==> stem != []
    ensures stem + Suffix(name) == name
  {
    var stem := name[..|name| - |Suffix(name)|];
    assert stem + Suffix(name) == name;
    stem
  }

  /**
   * `PurePath.with_suffix(suffix)`: the old suffix of the name replaced by the
   * new one; a path with an empty name is refused.
   */
  function WithSuffix(path: string, suffix: string): (r: Option<string>)
    ensures r.Some? <==> Name(path) != []
    ensures r.Some? ==> |r.value| >= |suffix| && r.value[|r.value| - |suffix|..] == suffix
    ensures r.Some? ==>
      var stem := Stem(Name(path));
      path == Parent(path) + stem + Suffix(Name(path)) && r.value == Parent(path) + stem + suffix
  {
    var name := Name(path);
    if name == [] then None
    else
      var dir, stem := Parent(path), Stem(name);
      var r := dir + stem + suffix;
      assert r[|r| - |suffix|..] == suffix by {
        assert r == (dir + stem) + suffix;
      }
      assert path == dir + stem + Suffix(name) by {
        assert dir + name == path && stem + Suffix(name) == name;
        assert dir + (stem + Suffix(name)) == dir + stem + Suffix(name);
      }
      Some(r)
  }

  /** `Path(model_output).with_suffix('.json')`. */
  function MetadataPath(modelPath: string): Option<string>
  {
    WithSuffix(modelPath, ".json")
  }

  /** Deriving the metadata path from a metadata path changes nothing. */
  lemma MetadataPathIdempotent(modelPath: string)
    requires MetadataPath(modelPath).Some?
    ensures MetadataPath(MetadataPath(modelPath).value) == MetadataPath(modelPath)
  {
    var name := Name(modelPath);
    var stem := Stem(name);
    NotInPrefix(stem, Suffix(name), '/');
    JsonPathFixed(Parent(modelPath), stem);
  }

  /** A path whose name is a stem plus ".json" keeps it under `with_suffix('.json')`. */
  lemma JsonPathFixed(dir: string, stem: string)
    requires dir == [] || dir[|dir| - 1] == '/'
    requires stem != [] && '/' !in stem
    ensures WithSuffix(dir + stem + ".json", ".json") == Some(dir + stem + ".json")
  {
    var name := stem + ".json";
    assert '/' !in name;
    assert dir + stem + ".json" == dir + name;
    NameAfterParent(dir, name);
    JsonSuffix(stem);
  }

  lemma NotInPrefix(a: string, b: string, c: char)
    requires c !in a + b
    ensures c !in a
  {
    assert forall k :: 0 <= k < |a| ==> (a + b)[k] == a[k];
  }

  /** A '/'-free name after a parent part is the final component of the joined path. */
  lemma NameAfterParent(dir: string, name: string)
    requires '/' !in name
    requires dir == [] || dir[|dir| - 1] == '/'
    ensures Name(dir + name) == name
    ensures Parent(dir + name) == dir
  {
    var p := dir + name;
    if dir == [] {
      assert p == name;
    } else {
      Text.LastIndexOfSuffix(dir, name, '/');
      assert p[|dir|..] == name;
    }
  }

  /** A non-empty stem followed by ".json" has suffix ".json" and gives back the stem. */
  lemma JsonSuffix(stem: string)
    requires stem != []
    ensures Suffix(stem + ".json") == ".json"
    ensures Stem(stem + ".json") == stem
  {
    var name := stem + ".json";
    Text.LastIndexOfSuffix(stem, ".json", '.');
    assert name[|stem|..] == ".json";
  }
}
