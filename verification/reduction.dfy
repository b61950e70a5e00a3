/**
 * What every dimensionality reducer shares: `saveSemanticPoints` of the
 * `DimensionalityReducer` base class, which stores the 2-D point computed for each decision
 * under the reducer task's id.
 */
module Reduction {
  import opened Js
  import opened Db

  /** A point to store: the decision it places and its coordinates. */
  datatype SemanticPoint = SemanticPoint(decisionAda: Value, decisionId: Value, x: real, y: real)

  function PointRows(taskId: nat, points: seq<SemanticPoint>): (r: seq<SemanticPointRow>)
    ensures |r| == |points|
    ensures forall i :: 0 <= i < |points| ==>
              r[i] == SemanticPointRow(taskId, points[i].decisionAda, points[i].decisionId, points[i].x, points[i].y)
  {
    if |points| == 0 then []
    else
      var p := points[|points| - 1];
      PointRows(taskId, points[..|points| - 1]) + [SemanticPointRow(taskId, p.decisionAda, p.decisionId, p.x, p.y)]
  }

  /** Reading stored rows back as points. */
  function RowPoints(rows: seq<SemanticPointRow>): (r: seq<SemanticPoint>)
    ensures |r| == |rows|
  {
    if |rows| == 0 then []
    else
      var row := rows[|rows| - 1];
      RowPoints(rows[..|rows| - 1]) + [SemanticPoint(row.decisionAda, row.decisionId, row.x, row.y)]
  }

  /** The rows of a save give back exactly the points saved, in order, each tagged with the
      task's id. */
  lemma {:induction false} PointsRoundTrip(taskId: nat, points: seq<SemanticPoint>)
    ensures RowPoints(PointRows(taskId, points)) == points
    ensures forall row :: row in PointRows(taskId, points) ==> row.reducerTaskId == taskId
  {
    if |points| > 0 {
      var init := points[..|points| - 1];
      PointsRoundTrip(taskId, init);
      var rows := PointRows(taskId, points);
      assert rows[..|rows| - 1] == PointRows(taskId, init);
      assert points == init + [points[|points| - 1]];
    }
  }

  lemma PointRowsAppend(taskId: nat, a: seq<SemanticPoint>, b: seq<SemanticPoint>)
    ensures PointRows(taskId, a + b) == PointRows(taskId, a) + PointRows(taskId, b)
  {
    assert forall i :: 0 <= i < |a + b| ==>
      PointRows(taskId, a + b)[i] == (PointRows(taskId, a) + PointRows(taskId, b))[i];
  }

  /** `saveSemanticPoints`: one INSERT per point, in order, inside one transaction; the rows
      already in the table stay as they were. */
  method SaveSemanticPoints(db: Database, taskId: nat, points: seq<SemanticPoint>)
    modifies db`semanticPoints
    ensures db.semanticPoints == old(db.semanticPoints) + PointRows(taskId, points)
  {
    var i := 0;
    while i < |points|
      invariant 0 <= i <= |points|
      invariant db.semanticPoints == old(db.semanticPoints) + PointRows(taskId, points[..i])
    {
      var p := points[i];
      db.semanticPoints := db.semanticPoints + [SemanticPointRow(taskId, p.decisionAda, p.decisionId, p.x, p.y)];
      assert points[..i + 1] == points[..i] + [p];
      PointRowsAppend(taskId, points[..i], [p]);
      i := i + 1;
    }
    assert points[..i] == points;
  }

  /** Two saves store what one save of both lists would. */
  lemma SavesCompose(old0: seq<SemanticPointRow>, taskId: nat, a: seq<SemanticPoint>, b: seq<SemanticPoint>)
    ensures old0 + PointRows(taskId, a) + PointRows(taskId, b) == old0 + PointRows(taskId, a + b)
  {
    PointRowsAppend(taskId, a, b);
  }
}
