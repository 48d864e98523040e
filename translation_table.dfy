/**
 * The generators of the Traditional Chinese name table: a loop over the rows
 * of the Chinese-server Action CSV that keeps rows with a numeric id and a
 * non-empty name and stores id -> converted name. Two versions exist: one
 * reports the number of distinct ids stored, the other counts every stored
 * row. The simplified-to-traditional converter is a parameter.
 */
module TranslationTable {

  type Row = seq<string>

  predicate IsDigitChar(c: char)
  {
    '0' <= c <= '9'
  }

  /** Python's digit test on a string: non-empty and made of digits only (ASCII digits here). */
  predicate IsDigits(s: string)
  {
    |s| > 0 && forall i :: 0 <= i < |s| ==> IsDigitChar(s[i])
  }

  /** A row passes the filters: two columns or more, a numeric id, a non-empty name. */
  predicate Accepted(row: Row)
  {
    |row| >= 2 && IsDigits(row[0]) && row[1] != ""
  }

  /** The table after processing `rows` in order: later rows overwrite earlier ones. */
  function ActionMap(rows: seq<Row>, convert: string -> string): map<string, string>
  {
    if rows == [] then map[]
    else
      var m := ActionMap(rows[..|rows| - 1], convert);
      var row := rows[|rows| - 1];
      if Accepted(row) then m[row[0] := convert(row[1])] else m
  }

  /** The ids of the accepted rows, in order, repeats included. */
  function AcceptedIds(rows: seq<Row>): seq<string>
  {
    if rows == [] then []
    else
      var row := rows[|rows| - 1];
      AcceptedIds(rows[..|rows| - 1]) + if Accepted(row) then [row[0]] else []
  }

  predicate Distinct(ids: seq<string>)
  {
    forall i, j :: 0 <= i < j < |ids| ==> ids[i] != ids[j]
  }

  /** `main` of scripts/generate_translations.py: the table and the count it reports, `len(action_map)`. */
  method GenerateActionMap(rows: seq<Row>, convert: string -> string) returns (actionMap: map<string, string>, processed: nat)
    ensures actionMap == ActionMap(rows, convert)
    ensures processed == |actionMap|
  {
    actionMap := map[];
    for i := 0 to |rows|
      invariant actionMap == ActionMap(rows[..i], convert)
    {
      assert rows[..i + 1][..i] == rows[..i];
      var row := rows[i];
      if |row| < 2 || !IsDigits(row[0]) {
        continue;
      }
      var actionId := row[0];
      var actionNameSc := row[1];
      if actionNameSc == "" {
        continue;
      }
      var actionNameTc := convert(actionNameSc);
      actionMap := actionMap[actionId := actionNameTc];
    }
    assert rows[..|rows|] == rows;
    processed := |actionMap|;
  }

  /** `main` of the older generator: the table and `row_count`, one per stored row. */
  method GenerateActionMapCounted(rows: seq<Row>, convert: string -> string) returns (actionMap: map<string, string>, rowCount: nat)
    ensures actionMap == ActionMap(rows, convert)
    ensures rowCount == |AcceptedIds(rows)|
  {
    actionMap := map[];
    rowCount := 0;
    for i := 0 to |rows|
      invariant actionMap == ActionMap(rows[..i], convert)
      invariant rowCount == |AcceptedIds(rows[..i])|
    {
      assert rows[..i + 1][..i] == rows[..i];
      var row := rows[i];
      if |row| < 2 {
        continue;
      }
      if !IsDigits(row[0]) {
        continue;
      }
      var actionId := row[0];
      var actionNameSc := row[1];
      if actionNameSc == "" {
        continue;
      }
      var actionNameTc := convert(actionNameSc);
      actionMap := actionMap[actionId := actionNameTc];
      rowCount := rowCount + 1;
    }
    assert rows[..|rows|] == rows;
  }

  // ------------------------------------------------------------- properties

  /** An id is in `AcceptedIds` exactly when some accepted row carries it. */
  lemma {:induction false} AcceptedIdsMembership(rows: seq<Row>, k: string)
    ensures k in AcceptedIds(rows) <==> exists i :: 0 <= i < |rows| && Accepted(rows[i]) && rows[i][0] == k
  {
    if rows != [] {
      var n := |rows| - 1;
      var prefix := rows[..n];
      AcceptedIdsMembership(prefix, k);
      if exists i :: 0 <= i < |rows| && Accepted(rows[i]) && rows[i][0] == k {
        var i :| 0 <= i < |rows| && Accepted(rows[i]) && rows[i][0] == k;
        if i < n {
          assert prefix[i] == rows[i];
        }
      }
      if k in AcceptedIds(prefix) {
        var i :| 0 <= i < |prefix| && Accepted(prefix[i]) && prefix[i][0] == k;
        assert rows[i] == prefix[i];
      }
    }
  }

  /** The table's ids are exactly the ids of the accepted rows. */
  lemma {:induction false} KeysAreAcceptedIds(rows: seq<Row>, convert: string -> string)
    ensures ActionMap(rows, convert).Keys == set k | k in AcceptedIds(rows)
  {
    if rows != [] {
      KeysAreAcceptedIds(rows[..|rows| - 1], convert);
    }
  }

  /**
   * Every id stored came from a row passing all filters, and every such
   * row's id is stored; every stored id is a non-empty digit string.
   */
  lemma ActionMapKeys(rows: seq<Row>, convert: string -> string, k: string)
    ensures k in ActionMap(rows, convert) <==> exists i :: 0 <= i < |rows| && Accepted(rows[i]) && rows[i][0] == k
    ensures k in ActionMap(rows, convert) ==> IsDigits(k)
  {
    KeysAreAcceptedIds(rows, convert);
    AcceptedIdsMembership(rows, k);
  }

  /**
   * The value stored under an id is the converted name of the LAST accepted
   * row with that id: a later repeat overwrites an earlier one.
   */
  lemma {:induction false} LastRowWins(rows: seq<Row>, convert: string -> string, k: string)
    requires k in ActionMap(rows, convert)
    ensures exists i ::
              && 0 <= i < |rows| && Accepted(rows[i]) && rows[i][0] == k
              && ActionMap(rows, convert)[k] == convert(rows[i][1])
              && forall j :: i < j < |rows| ==> !(Accepted(rows[j]) && rows[j][0] == k)
  {
    var n := |rows| - 1;
    var prefix := rows[..n];
    var row := rows[n];
    if Accepted(row) && row[0] == k {
      assert 0 <= n < |rows| && Accepted(rows[n]) && rows[n][0] == k
        && ActionMap(rows, convert)[k] == convert(rows[n][1]);
    } else {
      LastRowWins(prefix, convert, k);
      var i :| 0 <= i < |prefix| && Accepted(prefix[i]) && prefix[i][0] == k
        && ActionMap(prefix, convert)[k] == convert(prefix[i][1])
        && forall j :: i < j < |prefix| ==> !(Accepted(prefix[j]) && prefix[j][0] == k);
      assert rows[i] == prefix[i];
      forall j | i < j < |rows|
        ensures !(Accepted(rows[j]) && rows[j][0] == k)
      {
        if j < n {
          assert rows[j] == prefix[j];
        }
      }
    }
  }

  /** A sequence has at least as many entries as distinct elements, equally many iff no repeats. */
  lemma {:induction false} DistinctElementCount(ids: seq<string>)
    ensures |set k | k in ids| <= |ids|
    ensures |set k | k in ids| == |ids| <==> Distinct(ids)
  {
    if ids != [] {
      var n := |ids| - 1;
      var prefix := ids[..n];
      var x := ids[n];
      DistinctElementCount(prefix);
      assert ids == prefix + [x];
      assert (set k | k in ids) == (set k | k in prefix) + {x};
      if x in prefix {
        var i :| 0 <= i < n && prefix[i] == x;
        assert ids[i] == ids[n];
        assert !Distinct(ids);
      } else {
        assert (set k | k in prefix) !! {x};
        if Distinct(prefix) {
          forall i, j | 0 <= i < j < |ids|
            ensures ids[i] != ids[j]
          {
            if j < n {
              assert ids[i] == prefix[i] && ids[j] == prefix[j];
            } else {
              assert ids[i] in prefix;
            }
          }
        } else {
          var i, j :| 0 <= i < j < |prefix| && prefix[i] == prefix[j];
          assert ids[i] == ids[j];
        }
      }
    }
  }

  /**
   * The older generator's `row_count` is at least the number of ids in the
   * table, and equal to it exactly when no id repeats among stored rows.
   */
  lemma RowCountBoundsTableSize(rows: seq<Row>, convert: string -> string)
    ensures |ActionMap(rows, convert)| <= |AcceptedIds(rows)|
    ensures |ActionMap(rows, convert)| == |AcceptedIds(rows)| <==> Distinct(AcceptedIds(rows))
  {
    KeysAreAcceptedIds(rows, convert);
    DistinctElementCount(AcceptedIds(rows));
    assert |ActionMap(rows, convert)| == |ActionMap(rows, convert).Keys|;
  }
}
