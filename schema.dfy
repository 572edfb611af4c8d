/** The fixed feature schema: column order, operator ranges and the fixed defaults. */
module Schema {

  /** Inclusive interval an operator-supplied measurement must fall in. */
  datatype Range = Range(lo: real, hi: real)

  /** The 18 feature columns, in the order the classifier was trained on. */
  const NumericCols: seq<string> := [
    "pH", "Iron", "Nitrate", "Chloride", "Lead", "Zinc", "Turbidity", "Fluoride", "Copper", "Odor",
    "Sulfate", "Conductivity", "Chlorine", "Manganese", "Total Dissolved Solids",
    "Water Temperature", "Air Temperature", "Day"
  ]

  /** The three measurements the operator types, in the order they are asked for. */
  const OperatorCols: seq<string> := ["pH", "Turbidity", "Conductivity"]

  const ValidRanges: map<string, Range> := map[
    "pH" := Range(0.0, 14.0),
    "Turbidity" := Range(0.0, 1000.0),
    "Conductivity" := Range(0.0, 2000.0)
  ]

  /** The 15 features the operator is never asked for, with the value always used for them. */
  const Defaults: map<string, real> := map[
    "Iron" := 0.1,
    "Nitrate" := 10.0,
    "Chloride" := 250.0,
    "Lead" := 0.01,
    "Zinc" := 5.0,
    "Fluoride" := 0.7,
    "Copper" := 1.0,
    "Odor" := 0.0,
    "Sulfate" := 250.0,
    "Chlorine" := 0.2,
    "Manganese" := 0.05,
    "Total Dissolved Solids" := 500.0,
    "Water Temperature" := 20.0,
    "Air Temperature" := 25.0,
    "Day" := 4.0
  ]

  function ColumnSet(): (cols: set<string>)
    ensures forall c :: c in cols <==> c in NumericCols
  {
    set c | c in NumericCols
  }

  /** The 18 feature columns are pairwise distinct. */
  lemma ColumnsDistinct()
    ensures |NumericCols| == 18
    ensures forall i, j :: 0 <= i < j < |NumericCols| ==> NumericCols[i] != NumericCols[j]
  {
  }

  /** The range table covers exactly the operator columns, and every range is non-empty. */
  lemma RangesCoverOperatorCols()
    ensures ValidRanges.Keys == set c | c in OperatorCols
    ensures forall c :: c in ValidRanges ==> ValidRanges[c].lo <= ValidRanges[c].hi
  {
  }

  /** No column is both asked of the operator and filled with a default. */
  lemma OperatorAndDefaultDisjoint()
    ensures ValidRanges.Keys !! Defaults.Keys
  {
  }

  /** The operator columns and the defaulted columns together make up exactly the
      feature columns. */
  lemma SchemaPartition()
    ensures ValidRanges.Keys + Defaults.Keys == ColumnSet()
  {
    assert ColumnSet() == ValidRanges.Keys + Defaults.Keys;
  }
}
