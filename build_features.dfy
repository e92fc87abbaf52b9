/**
 * The feature-building step of the churn pipeline: check that the configured
 * columns are present, coerce the TotalCharges column to numbers, and encode
 * the Yes/No target label as 1/0.
 */
module BuildFeatures {
  import opened Wrappers
  import opened Frame

  /** The column that the charge cleaner repairs; its name is fixed in the code, not configured. */
  const TotalCharges: string := "TotalCharges"

  /** The part of the configuration this step reads: the feature lists and the target column. */
  datatype Config = Config(numerical: seq<string>, categorical: seq<string>, target: string)

  /** Result of the column check: it passes, or it would raise with the set of missing names. */
  datatype Outcome = Pass | Fail(missing: set<string>)

  /** How a run of the step ends: it completes, or it raises ValueError or KeyError. */
  datatype RunResult = Done | ValueError(missing: set<string>) | KeyError(column: string)

  /** A name the configuration asks for. */
  predicate Configured(config: Config, name: string)
  {
    name in config.numerical || name in config.categorical || name == config.target
  }

  /** The expected column list, numerical then categorical then the target. */
  function Expected(config: Config): (r: seq<string>)
    ensures forall name :: name in r <==> Configured(config, name)
  {
    config.numerical + config.categorical + [config.target]
  }

  /**
   * validate_columns: fails exactly when some configured name is not a column
   * of the table, and then reports exactly the configured names that are absent.
   */
  function ValidateColumns(columns: seq<string>, config: Config): (r: Outcome)
    ensures r.Fail? <==> exists name :: Configured(config, name) && name !in columns
    ensures r.Fail? ==> forall name :: name in r.missing <==> Configured(config, name) && name !in columns
    ensures r.Fail? ==> r.missing != {}
  {
    var expected := set name | name in Expected(config);
    var missing := expected - (set name | name in columns);
    if missing != {} then Fail(missing)
    else
      assert forall name :: Configured(config, name) ==> name in expected && name !in missing;
      Pass
  }

  /** pd.to_numeric(errors="coerce") on one cell: numbers stay, text is parsed, a failed parse is missing. */
  function CoerceCell(parse: string -> Option<real>, c: Cell): Cell
  {
    match c
    case Str(s) => (match parse(s) case Some(v) => Num(v) case None => Missing)
    case Num(_) => c
    case Missing => Missing
  }

  /** pd.to_numeric(column, errors="coerce"): no text is left in the column. */
  function CoerceColumn(parse: string -> Option<real>, s: seq<Cell>): (r: seq<Cell>)
    ensures |r| == |s|
    ensures forall i :: 0 <= i < |r| ==> !r[i].Str?
    ensures forall i :: 0 <= i < |s| && s[i].Num? ==> r[i] == s[i]
    ensures forall i :: 0 <= i < |s| && s[i].Missing? ==> r[i] == Missing
    ensures forall i :: 0 <= i < |s| && s[i].Str? ==>
              r[i] == if parse(s[i].s).Some? then Num(parse(s[i].s).value) else Missing
  {
    MapCells(c => CoerceCell(parse, c), s)
  }

  /** Series.fillna(value): every missing cell becomes Num(value), every other cell is kept. */
  function FillMissing(value: real, s: seq<Cell>): (r: seq<Cell>)
    ensures |r| == |s|
    ensures forall i :: 0 <= i < |s| ==> r[i] == if s[i].Missing? then Num(value) else s[i]
  {
    MapCells((c: Cell) => if c.Missing? then Num(value) else c, s)
  }

  /**
   * The TotalCharges column after clean_total_charges: all numbers, a parseable
   * text keeps its parsed value, an unparseable text or a missing cell becomes 0.
   */
  function CleanedCharges(parse: string -> Option<real>, s: seq<Cell>): (r: seq<Cell>)
    ensures |r| == |s|
    ensures forall i :: 0 <= i < |r| ==> r[i].Num?
    ensures forall i :: 0 <= i < |s| && s[i].Num? ==> r[i] == s[i]
    ensures forall i :: 0 <= i < |s| && s[i].Missing? ==> r[i] == Num(0.0)
    ensures forall i :: 0 <= i < |s| && s[i].Str? && parse(s[i].s).Some? ==> r[i] == Num(parse(s[i].s).value)
    ensures forall i :: 0 <= i < |s| && s[i].Str? && parse(s[i].s).None? ==> r[i] == Num(0.0)
  {
    FillMissing(0.0, CoerceColumn(parse, s))
  }

  /** Series.map({"Yes": 1, "No": 0}) on one cell: a value that is not a key maps to missing. */
  function EncodeLabel(c: Cell): Cell
  {
    if c == Str("Yes") then Num(1.0) else if c == Str("No") then Num(0.0) else Missing
  }

  /** The target column after encode_target: "Yes" is 1, "No" is 0, anything else is missing. */
  function EncodedTarget(s: seq<Cell>): (r: seq<Cell>)
    ensures |r| == |s|
    ensures forall i :: 0 <= i < |r| ==> r[i] == Num(1.0) || r[i] == Num(0.0) || r[i] == Missing
    ensures forall i :: 0 <= i < |s| ==> (r[i] == Num(1.0) <==> s[i] == Str("Yes"))
    ensures forall i :: 0 <= i < |s| ==> (r[i] == Num(0.0) <==> s[i] == Str("No"))
    ensures forall i :: 0 <= i < |s| ==> (r[i] == Missing <==> s[i] != Str("Yes") && s[i] != Str("No"))
  {
    MapCells(EncodeLabel, s)
  }

  /** The table contents after clean_total_charges: only TotalCharges differs, and no column changes length. */
  function CleanData(parse: string -> Option<real>, data: map<string, seq<Cell>>): (r: map<string, seq<Cell>>)
    requires TotalCharges in data
    ensures r.Keys == data.Keys
    ensures forall c :: c in data ==> |r[c]| == |data[c]|
    ensures forall c :: c in data && c != TotalCharges ==> r[c] == data[c]
    ensures forall i :: 0 <= i < |r[TotalCharges]| ==> r[TotalCharges][i].Num?
  {
    data[TotalCharges := CleanedCharges(parse, data[TotalCharges])]
  }

  /** The table contents after encode_target: only the target differs, and it holds only 1, 0 or missing. */
  function EncodeData(target: string, data: map<string, seq<Cell>>): (r: map<string, seq<Cell>>)
    requires target in data
    ensures r.Keys == data.Keys
    ensures forall c :: c in data ==> |r[c]| == |data[c]|
    ensures forall c :: c in data && c != target ==> r[c] == data[c]
    ensures forall i :: 0 <= i < |r[target]| ==>
              r[target][i] == Num(1.0) || r[target][i] == Num(0.0) || r[target][i] == Missing
  {
    data[target := EncodedTarget(data[target])]
  }

  /** Replacing one column with one of the same length keeps a table well formed. */
  lemma ReplaceColumnKeepsWellFormed(columns: seq<string>, data: map<string, seq<Cell>>, rows: nat,
                                     name: string, cells: seq<Cell>)
    requires WellFormed(columns, data, rows)
    requires name in data && |cells| == rows
    ensures WellFormed(columns, data[name := cells], rows)
  {
  }

  /**
   * clean_total_charges: overwrites TotalCharges in place, first coercing it to
   * numbers and then filling the missing cells with 0. The code indexes the
   * column without checking it, so its presence is required here.
   */
  method CleanTotalCharges(df: DataFrame, parse: string -> Option<real>)
    requires df.Valid() && TotalCharges in df.data
    modifies df`data
    ensures df.Valid()
    ensures df.data == CleanData(parse, old(df.data))
  {
    ReplaceColumnKeepsWellFormed(df.columns, df.data, df.rows, TotalCharges, CoerceColumn(parse, df.data[TotalCharges]));
    df.data := df.data[TotalCharges := CoerceColumn(parse, df.data[TotalCharges])];
    ReplaceColumnKeepsWellFormed(df.columns, df.data, df.rows, TotalCharges, FillMissing(0.0, df.data[TotalCharges]));
    df.data := df.data[TotalCharges := FillMissing(0.0, df.data[TotalCharges])];
  }

  /** encode_target: overwrites the target column in place with its encoding. */
  method EncodeTarget(df: DataFrame, target: string)
    requires df.Valid() && target in df.data
    modifies df`data
    ensures df.Valid()
    ensures df.data == EncodeData(target, old(df.data))
  {
    ReplaceColumnKeepsWellFormed(df.columns, df.data, df.rows, target, EncodedTarget(df.data[target]));
    df.data := df.data[target := EncodedTarget(df.data[target])];
  }

  /**
   * The validate, clean, encode sequence of main. A failed check raises before
   * the table is touched; a table without TotalCharges that passes the check
   * raises KeyError in the cleaner, also before any change; otherwise the table
   * is cleaned and then encoded. Column names and row count never change.
   */
  method ProcessTable(df: DataFrame, config: Config, parse: string -> Option<real>) returns (r: RunResult)
    requires df.Valid()
    modifies df`data
    ensures df.Valid()
    ensures r.ValueError? <==> ValidateColumns(df.columns, config).Fail?
    ensures r.ValueError? ==> r.missing == ValidateColumns(df.columns, config).missing
    ensures r.KeyError? <==> ValidateColumns(df.columns, config).Pass? && TotalCharges !in old(df.data)
    ensures r.KeyError? ==> r.column == TotalCharges
    ensures !r.Done? ==> df.data == old(df.data)
    ensures r.Done? ==> config.target in old(df.data) && TotalCharges in old(df.data)
    ensures r.Done? ==> df.data == EncodeData(config.target, CleanData(parse, old(df.data)))
  {
    var check := ValidateColumns(df.columns, config);
    if check.Fail? {
      return ValueError(check.missing);
    }
    if TotalCharges !in df.data {
      return KeyError(TotalCharges);
    }
    assert Configured(config, config.target);
    CleanTotalCharges(df, parse);
    EncodeTarget(df, config.target);
    r := Done;
  }
}
