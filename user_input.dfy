/** get_user_input: ask for pH, Turbidity and Conductivity in that order, re-asking each
    until a line is a decimal literal inside the column's range, then complete the record
    with the 15 fixed defaults. The operator's lines are a parameter (each already
    stripped); running out of lines gives None. */
module UserInput {
  import opened Outcomes
  import opened Schema
  import opened Sanitizer

  /** One pass of the retry loop's body succeeds on `line` for `range`. */
  predicate Accepts(line: string, range: Range)
  {
    Sanitize(line).Ok? && Validate(Sanitize(line).value, range.lo, range.hi)
  }

  /** The index of the first line at or after `from` that the retry loop accepts. */
  function NextAccepted(lines: seq<string>, from: nat, range: Range): (r: Option<nat>)
    decreases |lines| - from
    ensures r.Some? ==> from <= r.value < |lines| && Accepts(lines[r.value], range)
    ensures r.Some? ==> forall k :: from <= k < r.value ==> !Accepts(lines[k], range)
    ensures r.None? ==> forall k :: from <= k < |lines| ==> !Accepts(lines[k], range)
  {
    if from >= |lines| then None
    else if Accepts(lines[from], range) then Some(from)
    else NextAccepted(lines, from + 1, range)
  }

  /** A value read for one column, and the index of the line after it. */
  datatype Reading = Reading(value: real, next: nat)

  /** The value of the first accepted line at or after `from`: a value inside the range,
      read from a line before `next`, with every line after `from` up to it refused. */
  function ReadNext(lines: seq<string>, from: nat, range: Range): (r: Option<Reading>)
    ensures r.Some? ==> from < r.value.next <= |lines|
    ensures r.Some? ==> range.lo <= r.value.value <= range.hi
    ensures r.Some? ==> Sanitize(lines[r.value.next - 1]) == Ok(r.value.value)
    ensures r.None? ==> forall k :: from <= k < |lines| ==> !Accepts(lines[k], range)
  {
    match NextAccepted(lines, from, range)
    case None => None
    case Some(k) => Some(Reading(Sanitize(lines[k]).value, k + 1))
  }

  /** The values stored so far, and how many lines have been read. */
  datatype Progress = Progress(values: map<string, real>, used: nat)

  /** The values collected for the columns `cols` (a prefix of the operator columns).
      Each column takes at least one line, so a result needs one line per column. */
  function Collect(lines: seq<string>, cols: seq<string>): (r: Option<Progress>)
    requires forall c :: c in cols ==> c in ValidRanges
    ensures r.Some? ==> |cols| <= r.value.used <= |lines|
  {
    if cols == [] then Some(Progress(map[], 0))
    else
      var before := Collect(lines, cols[..|cols| - 1]);
      if before.None? then None
      else
        var col := cols[|cols| - 1];
        var reading := ReadNext(lines, before.value.used, ValidRanges[col]);
        if reading.None? then None
        else Some(Progress(before.value.values[col := reading.value.value], reading.value.next))
  }

  /** The record get_user_input returns for the operator's `lines`: none unless the
      operator typed at least one line per operator column. */
  function UserRecord(lines: seq<string>): (r: Option<map<string, real>>)
    ensures r.Some? ==> |lines| >= |OperatorCols|
  {
    var collected := Collect(lines, OperatorCols);
    if collected.None? then None else Some(collected.value.values + Defaults)
  }

  /** One column's `while True` retry loop: read lines from `cursor` until one is accepted
      for `range`; None when the lines run out first. */
  method ReadColumn(lines: seq<string>, cursor: nat, range: Range) returns (r: Option<Reading>)
    requires cursor <= |lines|
    ensures r == ReadNext(lines, cursor, range)
    ensures r.Some? ==> r.value.next <= |lines|
  {
    var next := cursor;
    while true
      invariant cursor <= next <= |lines|
      invariant NextAccepted(lines, cursor, range) == NextAccepted(lines, next, range)
      decreases |lines| - next
    {
      if next == |lines| {
        return None;
      }
      var rawInput := lines[next];
      next := next + 1;
      var value := Sanitize(rawInput);
      if value.Ok? && Validate(value.value, range.lo, range.hi) {
        return Some(Reading(value.value, next));
      }
    }
  }

  /** The completion step: the 15 fixed assignments after the operator's values. */
  method FillDefaults(values: map<string, real>) returns (userData: map<string, real>)
    ensures userData == values + Defaults
  {
    userData := values;
    userData := userData["Iron" := 0.1];
    userData := userData["Nitrate" := 10.0];
    userData := userData["Chloride" := 250.0];
    userData := userData["Lead" := 0.01];
    userData := userData["Zinc" := 5.0];
    userData := userData["Fluoride" := 0.7];
    userData := userData["Copper" := 1.0];
    userData := userData["Odor" := 0.0];
    userData := userData["Sulfate" := 250.0];
    userData := userData["Chlorine" := 0.2];
    userData := userData["Manganese" := 0.05];
    userData := userData["Total Dissolved Solids" := 500.0];
    userData := userData["Water Temperature" := 20.0];
    userData := userData["Air Temperature" := 25.0];
    userData := userData["Day" := 4.0];
  }

  /** Once the lines run out for one column, no longer prefix of columns is collected. */
  lemma {:induction false} CollectStaysNone(lines: seq<string>, cols: seq<string>, j: nat)
    requires forall c :: c in cols ==> c in ValidRanges
    requires j <= |cols| && Collect(lines, cols[..j]).None?
    ensures Collect(lines, cols).None?
  {
    if j < |cols| {
      var shorter := cols[..|cols| - 1];
      assert shorter[..j] == cols[..j];
      CollectStaysNone(lines, shorter, j);
    } else {
      assert cols[..j] == cols;
    }
  }

  /** Collecting one more column reads it from where the previous columns stopped. */
  lemma CollectStep(lines: seq<string>, cols: seq<string>, i: nat)
    requires forall c :: c in cols ==> c in ValidRanges
    requires i < |cols| && Collect(lines, cols[..i]).Some?
    ensures var before := Collect(lines, cols[..i]).value;
      var reading := ReadNext(lines, before.used, ValidRanges[cols[i]]);
      Collect(lines, cols[..i + 1])
        == if reading.None? then None
           else Some(Progress(before.values[cols[i] := reading.value.value], reading.value.next))
  {
    var done := cols[..i + 1];
    assert done[..|done| - 1] == cols[..i] && done[|done| - 1] == cols[i];
  }

  /** The `for col in [...]` loop: each column's retry loop starts where the previous
      one stopped; None as soon as one runs out of lines. */
  method CollectColumns(lines: seq<string>, cols: seq<string>) returns (r: Option<Progress>)
    requires forall c :: c in cols ==> c in ValidRanges
    ensures r == Collect(lines, cols)
  {
    var userData: map<string, real> := map[];
    var cursor: nat := 0;
    for i := 0 to |cols|
      invariant Collect(lines, cols[..i]) == Some(Progress(userData, cursor))
      invariant cursor <= |lines|
    {
      var col := cols[i];
      CollectStep(lines, cols, i);
      var reading := ReadColumn(lines, cursor, ValidRanges[col]);
      if reading.None? {
        CollectStaysNone(lines, cols, i + 1);
        return None;
      }
      userData := userData[col := reading.value.value];
      cursor := reading.value.next;
    }
    assert cols[..|cols|] == cols;
    r := Some(Progress(userData, cursor));
  }

  method GetUserInput(lines: seq<string>) returns (record: Option<map<string, real>>)
    ensures record == UserRecord(lines)
  {
    var collected := CollectColumns(lines, OperatorCols);
    if collected.None? {
      return None;
    }
    var userData := FillDefaults(collected.value.values);
    record := Some(userData);
  }

  /** Every collected value comes from a line the retry loop accepted: a decimal literal
      whose value lies in the column's range. */
  lemma {:induction false} CollectShape(lines: seq<string>, cols: seq<string>)
    requires forall c :: c in cols ==> c in ValidRanges
    requires Collect(lines, cols).Some?
    ensures Collect(lines, cols).value.values.Keys == set c | c in cols
    ensures Collect(lines, cols).value.used <= |lines|
    ensures forall c :: c in cols ==>
      exists k :: (0 <= k < Collect(lines, cols).value.used
        && Accepts(lines[k], ValidRanges[c])
        && Sanitize(lines[k]).value == Collect(lines, cols).value.values[c])
  {
    if cols != [] {
      var shorter := cols[..|cols| - 1];
      var col := cols[|cols| - 1];
      assert forall c :: c in cols <==> c in shorter || c == col;
      CollectShape(lines, shorter);
      var before := Collect(lines, shorter).value;
      var k := NextAccepted(lines, before.used, ValidRanges[col]).value;
      var after := Collect(lines, cols).value;
      forall c | c in cols
        ensures exists k' :: (0 <= k' < after.used
          && Accepts(lines[k'], ValidRanges[c]) && Sanitize(lines[k']).value == after.values[c])
      {
        if c == col {
          assert Accepts(lines[k], ValidRanges[c]);
        } else {
          var k' :| 0 <= k' < before.used && Accepts(lines[k'], ValidRanges[c])
            && Sanitize(lines[k']).value == before.values[c];
          assert Accepts(lines[k'], ValidRanges[c]);
        }
      }
    }
  }

  /** In `m1 + m2` the keys of `m2` take their value from `m2`, the others from `m1`. */
  lemma UnionValues(m1: map<string, real>, m2: map<string, real>)
    ensures (m1 + m2).Keys == m1.Keys + m2.Keys
    ensures forall c :: c in m2 ==> (m1 + m2)[c] == m2[c]
    ensures forall c :: c in m1 && c !in m2 ==> (m1 + m2)[c] == m1[c]
  {
  }

  /** The completed record has exactly the 18 feature columns. */
  lemma UserRecordColumns(lines: seq<string>)
    requires UserRecord(lines).Some?
    ensures UserRecord(lines).value.Keys == ColumnSet()
  {
    RangesCoverOperatorCols();
    SchemaPartition();
    CollectShape(lines, OperatorCols);
    UnionValues(Collect(lines, OperatorCols).value.values, Defaults);
  }

  /** Each operator value in the completed record is the value of a line the operator
      typed, and lies in its column's range: nothing is stored for a refused line. */
  lemma UserRecordOperatorValues(lines: seq<string>)
    requires UserRecord(lines).Some?
    ensures forall c :: c in ValidRanges ==>
      (c in UserRecord(lines).value
        && Validate(UserRecord(lines).value[c], ValidRanges[c].lo, ValidRanges[c].hi)
        && exists k :: 0 <= k < |lines| && Sanitize(lines[k]) == Ok(UserRecord(lines).value[c]))
    ensures forall c :: c in OperatorCols ==>
      (c in UserRecord(lines).value && c in Collect(lines, OperatorCols).value.values
        && UserRecord(lines).value[c] == Collect(lines, OperatorCols).value.values[c])
  {
    OperatorAndDefaultDisjoint();
    RangesCoverOperatorCols();
    var collected := Collect(lines, OperatorCols).value;
    CollectShape(lines, OperatorCols);
    CollectedValuesValid(lines, OperatorCols);
    UnionValues(collected.values, Defaults);
  }

  /** Collected values, before completion, are in their column's range and are the
      value of a line the operator typed. */
  lemma CollectedValuesValid(lines: seq<string>, cols: seq<string>)
    requires forall c :: c in cols ==> c in ValidRanges
    requires Collect(lines, cols).Some?
    ensures forall c :: c in cols ==>
      (c in Collect(lines, cols).value.values
        && Validate(Collect(lines, cols).value.values[c], ValidRanges[c].lo, ValidRanges[c].hi)
        && exists k :: 0 <= k < |lines| && Sanitize(lines[k]) == Ok(Collect(lines, cols).value.values[c]))
  {
    CollectShape(lines, cols);
    var collected := Collect(lines, cols).value;
    forall c | c in cols
      ensures c in collected.values && Validate(collected.values[c], ValidRanges[c].lo, ValidRanges[c].hi)
        && exists k :: 0 <= k < |lines| && Sanitize(lines[k]) == Ok(collected.values[c])
    {
      var k :| 0 <= k < collected.used && Accepts(lines[k], ValidRanges[c])
        && Sanitize(lines[k]).value == collected.values[c];
      assert Sanitize(lines[k]) == Ok(collected.values[c]);
    }
  }

  /** Every column other than the three operator columns holds its fixed default,
      whatever the operator typed. */
  lemma UserRecordDefaults(lines: seq<string>)
    requires UserRecord(lines).Some?
    ensures forall c :: c in Defaults ==> UserRecord(lines).value[c] == Defaults[c]
  {
    UnionValues(Collect(lines, OperatorCols).value.values, Defaults);
  }

  /** The defaulted columns do not depend on what the operator typed. */
  lemma DefaultsIgnoreOperator(lines1: seq<string>, lines2: seq<string>)
    requires UserRecord(lines1).Some? && UserRecord(lines2).Some?
    ensures forall c :: c in Defaults ==> UserRecord(lines1).value[c] == UserRecord(lines2).value[c]
  {
    UserRecordDefaults(lines1);
    UserRecordDefaults(lines2);
  }

  /** An operator session: for pH, "abc" fails the recogniser and "15" the range before
      "7" is kept; "5" is then taken for Turbidity and "100" for Conductivity. */
  const RetrySession: seq<string> := ["abc", "15", "7", "5", "100"]

  lemma RetrySessionPh(lines: seq<string>)
    requires |lines| >= 3 && lines[0] == "abc" && lines[1] == "15" && lines[2] == "7"
    ensures ReadNext(lines, 0, ValidRanges["pH"]) == Some(Reading(7.0, 3))
  {
    var ph := ValidRanges["pH"];
    assert ph == Range(0.0, 14.0);
    assert Sanitize("abc").Err? by {
      if Sanitize("abc").Ok? { AcceptedShape("abc"); }
    }
    assert !Accepts(lines[0], ph);
    SanitizeNatural("15");
    assert DecimalValue("15") == 15 by { assert "15"[..1] == "1"; }
    assert !Accepts(lines[1], ph);
    SanitizeSeven();
    assert Accepts(lines[2], ph);
    assert NextAccepted(lines, 2, ph) == Some(2);
    assert NextAccepted(lines, 1, ph) == Some(2);
    assert NextAccepted(lines, 0, ph) == Some(2);
  }

  lemma RetrySessionTurbidity(lines: seq<string>)
    requires |lines| >= 4 && lines[3] == "5"
    ensures ReadNext(lines, 3, ValidRanges["Turbidity"]) == Some(Reading(5.0, 4))
  {
    var turbidity := ValidRanges["Turbidity"];
    assert turbidity == Range(0.0, 1000.0);
    SanitizeNatural("5");
    assert Accepts(lines[3], turbidity);
    assert NextAccepted(lines, 3, turbidity) == Some(3);
  }

  /** The first column of any session that starts like RetrySession. */
  lemma RetrySessionFirst(lines: seq<string>)
    requires |lines| >= 3 && lines[0] == "abc" && lines[1] == "15" && lines[2] == "7"
    ensures Collect(lines, OperatorCols[..1]) == Some(Progress(map["pH" := 7.0], 3))
  {
    RetrySessionPh(lines);
    CollectStep(lines, OperatorCols, 0);
    assert OperatorCols[..0] == [];
  }

  /** The first two columns of any session that starts like RetrySession. */
  lemma RetrySessionFirstTwo(lines: seq<string>)
    requires |lines| >= 4 && lines[0] == "abc" && lines[1] == "15" && lines[2] == "7" && lines[3] == "5"
    ensures Collect(lines, OperatorCols[..2]) == Some(Progress(map["pH" := 7.0, "Turbidity" := 5.0], 4))
  {
    RetrySessionFirst(lines);
    RetrySessionTurbidity(lines);
    CollectStep(lines, OperatorCols, 1);
  }

  lemma RetrySessionConductivity(lines: seq<string>)
    requires |lines| >= 5 && lines[4] == "100"
    ensures ReadNext(lines, 4, ValidRanges["Conductivity"]) == Some(Reading(100.0, 5))
  {
    var conductivity := ValidRanges["Conductivity"];
    assert conductivity == Range(0.0, 2000.0);
    SanitizeNatural("100");
    assert DecimalValue("100") == 100 by { assert "100"[..2] == "10"; assert "10"[..1] == "1"; }
    assert Accepts(lines[4], conductivity);
    assert NextAccepted(lines, 4, conductivity) == Some(4);
  }

  lemma RetrySessionCollected(lines: seq<string>)
    requires |lines| >= 5 && lines[0] == "abc" && lines[1] == "15" && lines[2] == "7"
    requires lines[3] == "5" && lines[4] == "100"
    ensures Collect(lines, OperatorCols)
      == Some(Progress(map["pH" := 7.0, "Turbidity" := 5.0, "Conductivity" := 100.0], 5))
  {
    RetrySessionFirstTwo(lines);
    RetrySessionConductivity(lines);
    CollectStep(lines, OperatorCols, 2);
    assert OperatorCols[..3] == OperatorCols && OperatorCols[2] == "Conductivity";
  }

  /** A refused line is skipped and the column is asked again. */
  lemma RetryExample()
    ensures UserRecord(RetrySession).Some?
    ensures "pH" in UserRecord(RetrySession).value && UserRecord(RetrySession).value["pH"] == 7.0
  {
    RetrySessionCollected(RetrySession);
    var values := map["pH" := 7.0, "Turbidity" := 5.0, "Conductivity" := 100.0];
    var r := UserRecord(RetrySession).value;
    assert r == values + Defaults;
    OperatorAndDefaultDisjoint();
    assert "pH" in ValidRanges && "pH" !in Defaults;
    UnionValues(values, Defaults);
  }

  /** When the lines run out before every column has a value, there is no record: the
      same session without its last line. */
  lemma RetryExampleRunsOut()
    ensures UserRecord(RetrySession[..4]).None?
  {
    var short := RetrySession[..4];
    assert short == ["abc", "15", "7", "5"];
    RetrySessionFirstTwo(short);
    assert NextAccepted(short, 4, ValidRanges["Conductivity"]).None?;
    assert OperatorCols[..2] == OperatorCols[..|OperatorCols| - 1] && OperatorCols[2] == "Conductivity";
  }
}
