/**
 * Properties of the feature-building step that relate several calls or
 * several inputs, and two end-to-end scenarios of a whole run.
 */
module FeatureProperties {
  import opened Wrappers
  import opened Frame
  import opened BuildFeatures

  /** The check depends only on which names are configured, not on their order or repetition. */
  lemma ValidateIgnoresOrderAndDuplicates(columns: seq<string>, c1: Config, c2: Config)
    requires forall name :: Configured(c1, name) <==> Configured(c2, name)
    ensures ValidateColumns(columns, c1) == ValidateColumns(columns, c2)
  {
  }

  /** The check depends only on the set of column names of the table. */
  lemma ValidateDependsOnColumnSet(cols1: seq<string>, cols2: seq<string>, config: Config)
    requires forall name :: name in cols1 <==> name in cols2
    ensures ValidateColumns(cols1, config) == ValidateColumns(cols2, config)
  {
  }

  /**
   * Extra columns never make the check fail: a table with more columns passes
   * whenever one with fewer does, and reports no more missing names.
   */
  lemma ExtraColumnsNeverFail(columns: seq<string>, wider: seq<string>, config: Config)
    requires forall name :: name in columns ==> name in wider
    ensures ValidateColumns(columns, config).Pass? ==> ValidateColumns(wider, config).Pass?
    ensures ValidateColumns(wider, config).Fail? ==>
              ValidateColumns(columns, config).Fail? &&
              ValidateColumns(wider, config).missing <= ValidateColumns(columns, config).missing
  {
  }

  /** Cleaning the charges twice gives the same column as cleaning once. */
  lemma CleanedChargesIdempotent(parse: string -> Option<real>, s: seq<Cell>)
    ensures CleanedCharges(parse, CleanedCharges(parse, s)) == CleanedCharges(parse, s)
  {
  }

  /** So clean_total_charges on an already cleaned table changes nothing. */
  lemma CleanDataIdempotent(parse: string -> Option<real>, data: map<string, seq<Cell>>)
    requires TotalCharges in data
    ensures CleanData(parse, CleanData(parse, data)) == CleanData(parse, data)
  {
    CleanedChargesIdempotent(parse, data[TotalCharges]);
  }

  /** Encoding an encoded column turns every cell missing: 1 and 0 are not keys of the label mapping. */
  lemma EncodedTargetTwiceAllMissing(s: seq<Cell>)
    ensures |EncodedTarget(EncodedTarget(s))| == |s|
    ensures forall i :: 0 <= i < |s| ==> EncodedTarget(EncodedTarget(s))[i] == Missing
  {
  }

  /**
   * encode_target is not idempotent: a second pass changes the column exactly
   * when it holds a "Yes" or "No" label, since those cells become missing.
   */
  lemma EncodeTargetNotIdempotent(s: seq<Cell>)
    ensures EncodedTarget(EncodedTarget(s)) != EncodedTarget(s) <==>
              exists i :: 0 <= i < |s| && (s[i] == Str("Yes") || s[i] == Str("No"))
  {
  }

  /** When the target is a different column, cleaning and encoding can run in either order. */
  lemma CleanEncodeCommute(parse: string -> Option<real>, target: string, data: map<string, seq<Cell>>)
    requires TotalCharges in data && target in data && target != TotalCharges
    ensures EncodeData(target, CleanData(parse, data)) == CleanData(parse, EncodeData(target, data))
  {
  }

  /**
   * When the configured target is TotalCharges itself, the charge cleaner has
   * already made it numeric, so the encoder turns every target cell missing.
   */
  lemma TargetTotalChargesAllMissing(parse: string -> Option<real>, data: map<string, seq<Cell>>)
    requires TotalCharges in data
    ensures forall i :: 0 <= i < |data[TotalCharges]| ==>
              EncodeData(TotalCharges, CleanData(parse, data))[TotalCharges][i] == Missing
  {
  }

  /**
   * A table with columns A, B, TotalCharges, Churn and the one row
   * (1, 2, "", "Yes"), with A, B and TotalCharges configured as numerical:
   * the run completes and the row becomes (1, 2, 0, 1).
   */
  method EndToEndScenario(parse: string -> Option<real>) returns (r: RunResult, row: seq<Cell>)
    requires parse("").None?
    ensures r == Done
    ensures row == [Num(1.0), Num(2.0), Num(0.0), Num(1.0)]
  {
    var columns := ["A", "B", TotalCharges, "Churn"];
    var data := map["A" := [Num(1.0)], "B" := [Num(2.0)], TotalCharges := [Str("")], "Churn" := [Str("Yes")]];
    var df := new DataFrame(columns, data, 1);
    r := ProcessTable(df, Config(["A", "B", TotalCharges], [], "Churn"), parse);
    assert r.Done?;
    row := [df.data["A"][0], df.data["B"][0], df.data[TotalCharges][0], df.data["Churn"][0]];
  }

  /** The same configuration on a table without column B: the run raises, naming exactly {B}. */
  method MissingColumnScenario(parse: string -> Option<real>) returns (r: RunResult)
    ensures r == ValueError({"B"})
  {
    var columns := ["A", TotalCharges, "Churn"];
    var data := map["A" := [Num(1.0)], TotalCharges := [Str("")], "Churn" := [Str("Yes")]];
    var df := new DataFrame(columns, data, 1);
    var config := Config(["A", "B", TotalCharges], [], "Churn");
    assert Configured(config, "B") && "B" !in columns;
    assert ValidateColumns(columns, config).missing == {"B"};
    r := ProcessTable(df, config, parse);
  }
}
