/** The table of stored footprints under saves that each replace a window of dates. */
module StoreSpec {
  import opened BackwardChunks
  import opened Options

  datatype Kind = OperationalMetrics | EmbodiedMetrics

  datatype CloudFootprint = CloudFootprint(
    cloudConnectionId: string, timestamp: int, periodStartDate: int, periodEndDate: int, kind: Kind,
    cloudProvider: string, serviceName: string, serviceType: Option<string>, region: string,
    kilowattHours: real, co2e: real, cost: Option<real>, tags: Option<map<string, string>>)

  /** A stored row and its generated id. */
  datatype Row = Row(id: nat, data: CloudFootprint)

  datatype Save = Save(cloudConnectionId: string, startDate: int, endDate: int, rows: seq<Row>)

  predicate InWindow(op: Save, cloudConnectionId: string, t: int) {
    op.cloudConnectionId == cloudConnectionId && op.startDate <= t <= op.endDate
  }

  /** A save with no rows deletes nothing. */
  predicate Overwrites(op: Save, r: Row) {
    op.rows != [] && InWindow(op, r.data.cloudConnectionId, r.data.timestamp)
  }

  predicate Survives(r: Row, later: seq<Save>) {
    forall i :: 0 <= i < |later| ==> !Overwrites(later[i], r)
  }

  function Surviving(rows: seq<Row>, later: seq<Save>): seq<Row> {
    if rows == [] then []
    else
      var rest := Surviving(rows[..|rows| - 1], later);
      var r := rows[|rows| - 1];
      if Survives(r, later) then rest + [r] else rest
  }

  function Apply(stored: seq<Row>, op: Save): seq<Row> {
    if op.rows == [] then stored else Surviving(stored, [op]) + op.rows
  }

  function Run(stored: seq<Row>, ops: seq<Save>): seq<Row> {
    if ops == [] then stored else Apply(Run(stored, ops[..|ops| - 1]), ops[|ops| - 1])
  }

  /** The rows of some saves that no save after them replaces. */
  function Survivors(ops: seq<Save>, later: seq<Save>): seq<Row> {
    if ops == [] then []
    else
      var op := ops[|ops| - 1];
      Survivors(ops[..|ops| - 1], [op] + later) + Surviving(op.rows, later)
  }

  lemma {:induction false} SurvivingAppend(a: seq<Row>, b: seq<Row>, later: seq<Save>)
    ensures Surviving(a + b, later) == Surviving(a, later) + Surviving(b, later)
  {
    if b == [] {
      assert a + b == a;
    } else {
      assert (a + b)[..|a + b| - 1] == a + b[..|b| - 1];
      SurvivingAppend(a, b[..|b| - 1], later);
    }
  }

  lemma SurvivesBoth(r: Row, op: Save, later: seq<Save>)
    ensures Survives(r, [op] + later) <==> !Overwrites(op, r) && Survives(r, later)
    ensures Survives(r, [op]) <==> !Overwrites(op, r)
  {
    var all := [op] + later;
    assert all[0] == op && forall i :: 0 <= i < |later| ==> all[i + 1] == later[i];
    assert Survives(r, all) ==> !Overwrites(all[0], r);
    assert Survives(r, [op]) ==> !Overwrites([op][0], r);
    if Survives(r, all) {
      forall i | 0 <= i < |later|
        ensures !Overwrites(later[i], r)
      {
        assert !Overwrites(all[i + 1], r);
      }
    }
  }

  lemma {:induction false} SurvivingOneThenOthers(rows: seq<Row>, op: Save, later: seq<Save>)
    ensures Surviving(Surviving(rows, [op]), later) == Surviving(rows, [op] + later)
  {
    if rows == [] {
    } else {
      var front, r := rows[..|rows| - 1], rows[|rows| - 1];
      SurvivingOneThenOthers(front, op, later);
      SurvivesBoth(r, op, later);
      if !Overwrites(op, r) {
        var kept := Surviving(front, [op]);
        assert (kept + [r])[..|kept + [r]| - 1] == kept;
      }
    }
  }

  lemma {:induction false} EmptySaveOverwritesNothing(rows: seq<Row>, op: Save, later: seq<Save>)
    requires op.rows == []
    ensures Surviving(rows, [op] + later) == Surviving(rows, later)
  {
    if rows == [] {
    } else {
      EmptySaveOverwritesNothing(rows[..|rows| - 1], op, later);
      SurvivesBoth(rows[|rows| - 1], op, later);
    }
  }

  /** After any run of saves the table holds, in order, exactly the rows that no later non-empty
      save of the same connection covers with its window. */
  lemma {:induction false} RunLeavesTheSurvivors(stored: seq<Row>, ops: seq<Save>, later: seq<Save>)
    ensures Surviving(Run(stored, ops), later) == Surviving(stored, ops + later) + Survivors(ops, later)
  {
    if ops == [] {
      assert ops + later == later;
    } else {
      var front, op := ops[..|ops| - 1], ops[|ops| - 1];
      var rest := [op] + later;
      assert ops + later == front + rest;
      RunLeavesTheSurvivors(stored, front, rest);
      ApplyThenSurvive(Run(stored, front), op, later);
      Reassociate(Surviving(stored, front + rest), Survivors(front, rest), Surviving(op.rows, later));
    }
  }

  lemma Reassociate(a: seq<Row>, b: seq<Row>, c: seq<Row>)
    ensures (a + b) + c == a + (b + c)
  {}

  lemma ApplyThenSurvive(before: seq<Row>, op: Save, later: seq<Save>)
    ensures Surviving(Apply(before, op), later) == Surviving(before, [op] + later) + Surviving(op.rows, later)
  {
    if op.rows == [] {
      EmptySaveOverwritesNothing(before, op, later);
    } else {
      SurvivingAppend(Surviving(before, [op]), op.rows, later);
      SurvivingOneThenOthers(before, op, later);
    }
  }

  lemma {:induction false} AllSurviveNothing(rows: seq<Row>)
    ensures Surviving(rows, []) == rows
  {
    if rows == [] {
    } else {
      AllSurviveNothing(rows[..|rows| - 1]);
      assert rows == rows[..|rows| - 1] + [rows[|rows| - 1]];
    }
  }

  lemma RunIsTheSurvivors(stored: seq<Row>, ops: seq<Save>)
    ensures Run(stored, ops) == Surviving(stored, ops) + Survivors(ops, [])
  {
    RunLeavesTheSurvivors(stored, ops, []);
    AllSurviveNothing(Run(stored, ops));
    assert ops + [] == ops;
  }

  // ----- One save in terms of the fields of the rows -----

  /** The rows of other connections, and those of this one with a timestamp outside of the dates. */
  function Outside(rows: seq<Row>, cloudConnectionId: string, startDate: int, endDate: int): seq<Row> {
    if rows == [] then []
    else
      var rest, r := Outside(rows[..|rows| - 1], cloudConnectionId, startDate, endDate), rows[|rows| - 1];
      if r.data.cloudConnectionId == cloudConnectionId && startDate <= r.data.timestamp && r.data.timestamp <= endDate
      then rest
      else rest + [r]
  }

  /** The rows of one connection, in order. */
  function OfConnection(rows: seq<Row>, cloudConnectionId: string): seq<Row> {
    if rows == [] then []
    else
      var rest, r := OfConnection(rows[..|rows| - 1], cloudConnectionId), rows[|rows| - 1];
      if r.data.cloudConnectionId == cloudConnectionId then rest + [r] else rest
  }

  /** All rows but those of one connection, in order. */
  function OfOthers(rows: seq<Row>, cloudConnectionId: string): seq<Row> {
    if rows == [] then []
    else
      var rest, r := OfOthers(rows[..|rows| - 1], cloudConnectionId), rows[|rows| - 1];
      if r.data.cloudConnectionId != cloudConnectionId then rest + [r] else rest
  }

  lemma {:induction false} SurvivingIsOutside(rows: seq<Row>, op: Save)
    requires op.rows != []
    ensures Surviving(rows, [op]) == Outside(rows, op.cloudConnectionId, op.startDate, op.endDate)
  {
    if rows == [] {
    } else {
      SurvivingIsOutside(rows[..|rows| - 1], op);
      SurvivesBoth(rows[|rows| - 1], op, []);
    }
  }

  /** A save with rows keeps, in order, just the rows of other connections and those outside of its dates,
      and adds its own; a save without rows changes nothing. */
  lemma SaveInFields(stored: seq<Row>, op: Save)
    ensures Apply(stored, op) ==
            if op.rows == [] then stored
            else Outside(stored, op.cloudConnectionId, op.startDate, op.endDate) + op.rows
  {
    if op.rows != [] {
      SurvivingIsOutside(stored, op);
    }
  }

  /** A stored row is gone exactly when it is of the connection and within the dates, both ends included. */
  lemma {:induction false} OutsideMembers(rows: seq<Row>, cloudConnectionId: string, startDate: int, endDate: int,
                                          r: Row)
    ensures multiset(Outside(rows, cloudConnectionId, startDate, endDate))[r] ==
            if r.data.cloudConnectionId == cloudConnectionId && startDate <= r.data.timestamp <= endDate then 0
            else multiset(rows)[r]
  {
    if rows == [] {
    } else {
      assert rows == rows[..|rows| - 1] + [rows[|rows| - 1]];
      OutsideMembers(rows[..|rows| - 1], cloudConnectionId, startDate, endDate, r);
    }
  }

  lemma {:induction false} OthersAppend(a: seq<Row>, b: seq<Row>, cloudConnectionId: string)
    ensures OfOthers(a + b, cloudConnectionId) == OfOthers(a, cloudConnectionId) + OfOthers(b, cloudConnectionId)
  {
    if b == [] {
      assert a + b == a;
    } else {
      assert (a + b)[..|a + b| - 1] == a + b[..|b| - 1];
      OthersAppend(a, b[..|b| - 1], cloudConnectionId);
    }
  }

  lemma {:induction false} ConnectionAppend(a: seq<Row>, b: seq<Row>, cloudConnectionId: string)
    ensures OfConnection(a + b, cloudConnectionId)
            == OfConnection(a, cloudConnectionId) + OfConnection(b, cloudConnectionId)
  {
    if b == [] {
      assert a + b == a;
    } else {
      assert (a + b)[..|a + b| - 1] == a + b[..|b| - 1];
      ConnectionAppend(a, b[..|b| - 1], cloudConnectionId);
    }
  }

  lemma {:induction false} OutsideKeepsOthers(rows: seq<Row>, c: string, startDate: int, endDate: int, other: string)
    ensures OfOthers(Outside(rows, c, startDate, endDate), c) == OfOthers(rows, c)
    ensures other != c ==> OfConnection(Outside(rows, c, startDate, endDate), other) == OfConnection(rows, other)
  {
    if rows == [] {
    } else {
      var front, r := rows[..|rows| - 1], rows[|rows| - 1];
      var kept := Outside(front, c, startDate, endDate);
      OutsideKeepsOthers(front, c, startDate, endDate, other);
      assert (kept + [r])[..|kept|] == kept;
    }
  }

  lemma {:induction false} OnlyOfConnection(rows: seq<Row>, c: string, other: string)
    requires forall r :: r in rows ==> r.data.cloudConnectionId == c
    ensures OfOthers(rows, c) == []
    ensures other != c ==> OfConnection(rows, other) == []
  {
    if rows == [] {
    } else {
      assert rows[|rows| - 1] in rows;
      OnlyOfConnection(rows[..|rows| - 1], c, other);
    }
  }

  /** A save whose rows are of its own connection leaves all rows of all other connections, in order. */
  lemma SaveKeepsOtherConnections(stored: seq<Row>, op: Save)
    requires forall r :: r in op.rows ==> r.data.cloudConnectionId == op.cloudConnectionId
    ensures OfOthers(Apply(stored, op), op.cloudConnectionId) == OfOthers(stored, op.cloudConnectionId)
  {
    SaveInFields(stored, op);
    if op.rows != [] {
      var kept := Outside(stored, op.cloudConnectionId, op.startDate, op.endDate);
      OthersAppend(kept, op.rows, op.cloudConnectionId);
      OutsideKeepsOthers(stored, op.cloudConnectionId, op.startDate, op.endDate, "");
      OnlyOfConnection(op.rows, op.cloudConnectionId, "");
    }
  }

  lemma {:induction false} OutsideOfConnection(rows: seq<Row>, c: string, startDate: int, endDate: int)
    ensures OfConnection(Outside(rows, c, startDate, endDate), c)
            == Outside(OfConnection(rows, c), c, startDate, endDate)
  {
    if rows == [] {
    } else {
      var front, r := rows[..|rows| - 1], rows[|rows| - 1];
      OutsideOfConnection(front, c, startDate, endDate);
      var kept, own := Outside(front, c, startDate, endDate), OfConnection(front, c);
      assert (kept + [r])[..|kept|] == kept && (own + [r])[..|own|] == own;
    }
  }

  /** What a save leaves of a connection depends on the rows of that connection only. */
  lemma SaveOfConnection(stored: seq<Row>, op: Save, c: string)
    requires forall r :: r in op.rows ==> r.data.cloudConnectionId == op.cloudConnectionId
    ensures OfConnection(Apply(stored, op), c) ==
            var own := OfConnection(stored, c);
            if op.rows == [] || op.cloudConnectionId != c then own
            else Outside(own, c, op.startDate, op.endDate) + OfConnection(op.rows, c)
  {
    SaveInFields(stored, op);
    if op.rows != [] {
      ConnectionAppend(Outside(stored, op.cloudConnectionId, op.startDate, op.endDate), op.rows, c);
      OutsideKeepsOthers(stored, op.cloudConnectionId, op.startDate, op.endDate, c);
      OnlyOfConnection(op.rows, op.cloudConnectionId, c);
      OutsideOfConnection(stored, c, op.startDate, op.endDate);
    }
  }

  /** The saves for one connection, in order. */
  function SavesOf(ops: seq<Save>, c: string): seq<Save> {
    if ops == [] then []
    else
      var rest, op := SavesOf(ops[..|ops| - 1], c), ops[|ops| - 1];
      if op.cloudConnectionId == c then rest + [op] else rest
  }

  /** Connections do not interfere: after any run the rows of a connection are, in order, what its own
      saves alone would have left. */
  lemma {:induction false} ConnectionsAreIndependent(stored: seq<Row>, ops: seq<Save>, c: string)
    requires forall op, r :: op in ops && r in op.rows ==> r.data.cloudConnectionId == op.cloudConnectionId
    ensures OfConnection(Run(stored, ops), c) == OfConnection(Run(stored, SavesOf(ops, c)), c)
  {
    if ops == [] {
    } else {
      var front, op := ops[..|ops| - 1], ops[|ops| - 1];
      assert op in ops && forall x :: x in front ==> x in ops;
      ConnectionsAreIndependent(stored, front, c);
      SaveOfConnection(Run(stored, front), op, c);
      if op.cloudConnectionId == c {
        var own := SavesOf(front, c);
        assert (own + [op])[..|own|] == own;
        SaveOfConnection(Run(stored, own), op, c);
      }
    }
  }

  lemma {:induction false} NoSaves(ops: seq<Save>, c: string)
    requires forall op :: op in ops ==> op.cloudConnectionId != c
    ensures SavesOf(ops, c) == []
  {
    if ops == [] {
    } else {
      assert ops[|ops| - 1] in ops;
      NoSaves(ops[..|ops| - 1], c);
    }
  }

  /** Any run of saves for other connections leaves all rows of a connection, in order. */
  lemma RunKeepsOtherConnections(stored: seq<Row>, ops: seq<Save>, c: string)
    requires forall op :: op in ops ==> op.cloudConnectionId != c
    requires forall op, r :: op in ops && r in op.rows ==> r.data.cloudConnectionId == op.cloudConnectionId
    ensures OfConnection(Run(stored, ops), c) == OfConnection(stored, c)
  {
    ConnectionsAreIndependent(stored, ops, c);
    NoSaves(ops, c);
  }

  // ----- The last writer wins -----

  /** The stored rows of a connection and timestamp. */
  function RowsAt(rows: seq<Row>, cloudConnectionId: string, t: int): seq<Row> {
    if rows == [] then []
    else
      var rest := RowsAt(rows[..|rows| - 1], cloudConnectionId, t);
      var r := rows[|rows| - 1];
      if r.data.cloudConnectionId == cloudConnectionId && r.data.timestamp == t then rest + [r] else rest
  }

  predicate StaysInWindow(op: Save) {
    forall r :: r in op.rows ==>
      r.data.cloudConnectionId == op.cloudConnectionId && op.startDate <= r.data.timestamp <= op.endDate
  }

  function LastWriter(ops: seq<Save>, cloudConnectionId: string, t: int): Option<Save> {
    if ops == [] then None
    else
      var op := ops[|ops| - 1];
      if op.rows != [] && op.cloudConnectionId == cloudConnectionId && op.startDate <= t <= op.endDate then Some(op)
      else LastWriter(ops[..|ops| - 1], cloudConnectionId, t)
  }

  lemma {:induction false} RowsAtAppend(a: seq<Row>, b: seq<Row>, cloudConnectionId: string, t: int)
    ensures RowsAt(a + b, cloudConnectionId, t) == RowsAt(a, cloudConnectionId, t) + RowsAt(b, cloudConnectionId, t)
  {
    if b == [] {
      assert a + b == a;
    } else {
      assert (a + b)[..|a + b| - 1] == a + b[..|b| - 1];
      RowsAtAppend(a, b[..|b| - 1], cloudConnectionId, t);
    }
  }

  lemma {:induction false} RowsAtSurviving(rows: seq<Row>, op: Save, cloudConnectionId: string, t: int)
    requires op.rows != []
    ensures RowsAt(Surviving(rows, [op]), cloudConnectionId, t)
            == if InWindow(op, cloudConnectionId, t) then [] else RowsAt(rows, cloudConnectionId, t)
  {
    if rows == [] {
    } else {
      var front, r := rows[..|rows| - 1], rows[|rows| - 1];
      RowsAtSurviving(front, op, cloudConnectionId, t);
      SurvivesBoth(r, op, []);
      var kept := Surviving(front, [op]);
      assert (kept + [r])[..|kept + [r]| - 1] == kept;
    }
  }

  lemma {:induction false} NoRowsAt(rows: seq<Row>, cloudConnectionId: string, t: int)
    requires forall r :: r in rows ==> r.data.cloudConnectionId != cloudConnectionId || r.data.timestamp != t
    ensures RowsAt(rows, cloudConnectionId, t) == []
  {
    if rows == [] {
    } else {
      NoRowsAt(rows[..|rows| - 1], cloudConnectionId, t);
    }
  }

  /** When every save keeps to its own window, the rows of a connection and timestamp are those of the
      last non-empty save whose window contains it; other connections are never touched. */
  lemma {:induction false} LastWriterWins(stored: seq<Row>, ops: seq<Save>, cloudConnectionId: string, t: int)
    requires forall op :: op in ops ==> StaysInWindow(op)
    ensures RowsAt(Run(stored, ops), cloudConnectionId, t) ==
            match LastWriter(ops, cloudConnectionId, t)
            case None => RowsAt(stored, cloudConnectionId, t)
            case Some(op) => RowsAt(op.rows, cloudConnectionId, t)
  {
    if ops == [] {
    } else {
      var front, op := ops[..|ops| - 1], ops[|ops| - 1];
      LastWriterWins(stored, front, cloudConnectionId, t);
      if op.rows != [] {
        RowsAtAppend(Surviving(Run(stored, front), [op]), op.rows, cloudConnectionId, t);
        RowsAtSurviving(Run(stored, front), op, cloudConnectionId, t);
        if !InWindow(op, cloudConnectionId, t) {
          assert StaysInWindow(op);
          NoRowsAt(op.rows, cloudConnectionId, t);
        }
      }
    }
  }

  // ----- When a run keeps everything it saved -----

  function AllRows(ops: seq<Save>): seq<Row> {
    if ops == [] then [] else AllRows(ops[..|ops| - 1]) + ops[|ops| - 1].rows
  }

  /** No row falls into the window of a later non-empty save of its connection. */
  ghost predicate NothingOverwritten(ops: seq<Save>) {
    forall i, j, r :: 0 <= i < j < |ops| && r in ops[i].rows ==> !Overwrites(ops[j], r)
  }

  ghost predicate AllSurvive(ops: seq<Save>, later: seq<Save>) {
    forall i, r :: 0 <= i < |ops| && r in ops[i].rows ==> Survives(r, later)
  }

  lemma NothingOverwrittenStep(front: seq<Save>, op: Save, later: seq<Save>)
    ensures NothingOverwritten(front + [op]) && AllSurvive(front + [op], later) <==>
            && NothingOverwritten(front)
            && AllSurvive(front, [op] + later)
            && forall r :: r in op.rows ==> Survives(r, later)
  {
    var ops, n := front + [op], |front|;
    forall r
      ensures Survives(r, [op] + later) <==> !Overwrites(op, r) && Survives(r, later)
    {
      SurvivesBoth(r, op, later);
    }
    assert ops[n] == op && forall i :: 0 <= i < n ==> ops[i] == front[i];
    if NothingOverwritten(ops) && AllSurvive(ops, later) {
      forall i, j, r | 0 <= i < j < n && r in front[i].rows
        ensures !Overwrites(front[j], r)
      {
        assert r in ops[i].rows && !Overwrites(ops[j], r);
      }
      forall i, r | 0 <= i < n && r in front[i].rows
        ensures Survives(r, [op] + later)
      {
        assert r in ops[i].rows && !Overwrites(ops[n], r);
      }
    }
    if NothingOverwritten(front) && AllSurvive(front, [op] + later) && forall r :: r in op.rows ==> Survives(r, later) {
      forall i, j, r | 0 <= i < j < |ops| && r in ops[i].rows
        ensures !Overwrites(ops[j], r)
      {
        assert r in front[i].rows && Survives(r, [op] + later);
      }
    }
  }

  lemma {:induction false} SurvivingLength(rows: seq<Row>, later: seq<Save>)
    ensures |Surviving(rows, later)| <= |rows|
    ensures |Surviving(rows, later)| == |rows| <==> forall r :: r in rows ==> Survives(r, later)
    ensures (forall r :: r in rows ==> Survives(r, later)) ==> Surviving(rows, later) == rows
    ensures (forall r :: r in rows ==> !Survives(r, later)) <==> Surviving(rows, later) == []
  {
    if rows == [] {
    } else {
      assert rows == rows[..|rows| - 1] + [rows[|rows| - 1]];
      SurvivingLength(rows[..|rows| - 1], later);
    }
  }

  lemma {:induction false} SurvivorsLength(ops: seq<Save>, later: seq<Save>)
    ensures |Survivors(ops, later)| <= |AllRows(ops)|
    ensures |Survivors(ops, later)| == |AllRows(ops)| <==> NothingOverwritten(ops) && AllSurvive(ops, later)
    ensures NothingOverwritten(ops) && AllSurvive(ops, later) ==> Survivors(ops, later) == AllRows(ops)
  {
    if ops == [] {
    } else {
      var front, op := ops[..|ops| - 1], ops[|ops| - 1];
      SurvivorsLength(front, [op] + later);
      SurvivingLength(op.rows, later);
      assert ops == front + [op];
      NothingOverwrittenStep(front, op, later);
    }
  }

  /** A run of saves into an empty table leaves all the rows it saved exactly when no row falls into
      the window of a later non-empty save of its connection. */
  lemma RunKeepsAllItSaved(ops: seq<Save>)
    ensures Run([], ops) == AllRows(ops) <==> NothingOverwritten(ops)
  {
    RunIsTheSurvivors([], ops);
    SurvivorsLength(ops, []);
  }

  // ----- Regions saved one after the other -----

  /** The saves of one region, window by window, each replacing its window with both ends. */
  function RegionSaves(cloudConnectionId: string, ws: seq<Window>, rowsOf: Window -> seq<Row>): seq<Save> {
    seq(|ws|, i requires 0 <= i < |ws| => Save(cloudConnectionId, ws[i].start, ws[i].end, rowsOf(ws[i])))
  }

  /** Once a region has saved rows for every window of a request, nothing is left of what was stored
      for the connection between the ends of the request, the rows of earlier regions included. */
  lemma LaterRegionReplacesEarlierOnes(stored: seq<Row>, cloudConnectionId: string, start: int, end: int,
                                       rowsOf: Window -> seq<Row>)
    requires start < end
    requires forall w :: w in Windows(start, end, 30) ==> rowsOf(w) != []
    ensures var ops := RegionSaves(cloudConnectionId, Windows(start, end, 30), rowsOf);
            && Run(stored, ops) == Surviving(stored, ops) + Survivors(ops, [])
            && forall r :: r in Surviving(stored, ops) ==>
                 r in stored && !(r.data.cloudConnectionId == cloudConnectionId && start <= r.data.timestamp <= end)
  {
    var ws := Windows(start, end, 30);
    var ops := RegionSaves(cloudConnectionId, ws, rowsOf);
    RunIsTheSurvivors(stored, ops);
    WindowsTile(start, end, 30);
    forall r | r in Surviving(stored, ops)
      ensures r in stored && !(r.data.cloudConnectionId == cloudConnectionId && start <= r.data.timestamp <= end)
    {
      SurvivingMembers(stored, ops, r);
      NoneSurvivesAllWindows(r, cloudConnectionId, ws, start, end, rowsOf);
    }
  }

  lemma NoneSurvivesAllWindows(r: Row, cloudConnectionId: string, ws: seq<Window>, start: int, end: int,
                               rowsOf: Window -> seq<Row>)
    requires IsTiling(ws, start, end) && forall w :: w in ws ==> rowsOf(w) != []
    ensures r.data.cloudConnectionId == cloudConnectionId && start <= r.data.timestamp <= end ==>
              !Survives(r, RegionSaves(cloudConnectionId, ws, rowsOf))
  {
    var t, ops := r.data.timestamp, RegionSaves(cloudConnectionId, ws, rowsOf);
    if r.data.cloudConnectionId == cloudConnectionId && start <= t <= end {
      TilingCoversOnce(ws, start, end, t);
      var i := if t == end then 0 else WindowAt(ws, t);
      assert ws[i] in ws && Overwrites(ops[i], r);
    }
  }

  // ----- Neighbouring windows -----

  /** The rows of each window lie in the window, and every window has some. */
  ghost predicate FillsWindows(cloudConnectionId: string, ws: seq<Window>, rowsOf: Window -> seq<Row>) {
    forall w :: w in ws ==>
      && rowsOf(w) != []
      && forall r :: r in rowsOf(w) ==>
           r.data.cloudConnectionId == cloudConnectionId && w.start <= r.data.timestamp <= w.end
  }

  /** No row sits on the boundary that its window shares with the next one. */
  ghost predicate NoneOnSharedBoundary(ws: seq<Window>, rowsOf: Window -> seq<Row>) {
    forall i, r :: 0 <= i < |ws| - 1 && r in rowsOf(ws[i]) ==> r.data.timestamp != ws[i].start
  }

  lemma OverwrittenOnBoundary(cloudConnectionId: string, ws: seq<Window>, start: int, end: int,
                              rowsOf: Window -> seq<Row>, i: nat, j: nat, r: Row)
    requires IsTiling(ws, start, end) && FillsWindows(cloudConnectionId, ws, rowsOf)
    requires i < j < |ws| && r in rowsOf(ws[i])
    ensures Overwrites(RegionSaves(cloudConnectionId, ws, rowsOf)[j], r) <==> r.data.timestamp == ws[j].end
  {
    assert ws[i] in ws && ws[j] in ws;
    TilingDescends(ws, start, end, i, j);
  }

  lemma BoundaryRowsAreOverwritten(cloudConnectionId: string, ws: seq<Window>, start: int, end: int,
                                   rowsOf: Window -> seq<Row>)
    requires IsTiling(ws, start, end) && FillsWindows(cloudConnectionId, ws, rowsOf)
    ensures NothingOverwritten(RegionSaves(cloudConnectionId, ws, rowsOf)) <==> NoneOnSharedBoundary(ws, rowsOf)
  {
    var ops := RegionSaves(cloudConnectionId, ws, rowsOf);
    if NothingOverwritten(ops) {
      forall i, r | 0 <= i < |ws| - 1 && r in rowsOf(ws[i])
        ensures r.data.timestamp != ws[i].start
      {
        OverwrittenOnBoundary(cloudConnectionId, ws, start, end, rowsOf, i, i + 1, r);
        assert r in ops[i].rows && !Overwrites(ops[i + 1], r);
      }
    }
    if NoneOnSharedBoundary(ws, rowsOf) {
      forall i, j, r | 0 <= i < j < |ops| && r in ops[i].rows
        ensures !Overwrites(ops[j], r)
      {
        OverwrittenOnBoundary(cloudConnectionId, ws, start, end, rowsOf, i, j, r);
        TilingDescends(ws, start, end, i, j);
        assert ws[i] in ws;
      }
    }
  }

  /** A region that saves rows for every window of a request keeps all of them exactly when no row sits
      on a boundary shared with the next, older window. */
  lemma RegionKeepsItsRows(cloudConnectionId: string, start: int, end: int, rowsOf: Window -> seq<Row>)
    requires start < end && FillsWindows(cloudConnectionId, Windows(start, end, 30), rowsOf)
    ensures var ws := Windows(start, end, 30);
            var ops := RegionSaves(cloudConnectionId, ws, rowsOf);
            Run([], ops) == AllRows(ops) <==> NoneOnSharedBoundary(ws, rowsOf)
  {
    var ws := Windows(start, end, 30);
    WindowsTile(start, end, 30);
    BoundaryRowsAreOverwritten(cloudConnectionId, ws, start, end, rowsOf);
    RunKeepsAllItSaved(RegionSaves(cloudConnectionId, ws, rowsOf));
  }

  function ExampleRow(t: int): Row {
    Row(0, CloudFootprint("connection", t, t, t, OperationalMetrics, "AWS", "EC2", None, "us-east-1", 1.0, 1.0,
                          Some(1.0), None))
  }

  /** Two windows of thirty days, each with a row for its first day: the first day of the recent window
      is lost when the older window is saved. */
  lemma BoundaryDayIsLost()
    ensures var rowsOf := (w: Window) => [ExampleRow(w.start)];
            var ops := RegionSaves("connection", Windows(0, Days(60), 30), rowsOf);
            && AllRows(ops) == [ExampleRow(Days(30)), ExampleRow(0)]
            && Run([], ops) == [ExampleRow(0)]
  {
    var rowsOf := (w: Window) => [ExampleRow(w.start)];
    assert Windows(0, Days(30), 30) == [Window(0, Days(30))] + Windows(0, 0, 30);
    assert Windows(0, Days(60), 30) == [Window(Days(30), Days(60))] + Windows(0, Days(30), 30);
    var ops := RegionSaves("connection", Windows(0, Days(60), 30), rowsOf);
    var recent := Save("connection", Days(30), Days(60), [ExampleRow(Days(30))]);
    var older := Save("connection", 0, Days(30), [ExampleRow(0)]);
    assert ops == [recent] + [older];
    TwoSaves(recent, older, ExampleRow(Days(30)));
  }

  lemma TwoSaves(one: Save, two: Save, r: Row)
    requires one.rows == [r] && two.rows != [] && Overwrites(two, r)
    ensures AllRows([one] + [two]) == one.rows + two.rows
    ensures Run([], [one] + [two]) == two.rows
  {
    var ops := [one] + [two];
    assert ops[..1] == [one] && [one][..0] == [];
    assert AllRows(ops) == AllRows(ops[..1]) + two.rows;
    assert AllRows([one]) == AllRows([one][..0]) + one.rows;
    assert Run([], [one]) == Apply(Run([], [one][..0]), one) == [] + [r];
    assert Run([], ops) == Apply(Run([], ops[..1]), two);
    SurvivesBoth(r, two, []);
    assert [r][..0] == [];
    assert Surviving([r], [two]) == Surviving([r][..0], [two]);
  }

  lemma {:induction false} SurvivingMembers(rows: seq<Row>, later: seq<Save>, r: Row)
    ensures r in Surviving(rows, later) <==> r in rows && Survives(r, later)
  {
    if rows == [] {
    } else {
      assert rows == rows[..|rows| - 1] + [rows[|rows| - 1]];
      SurvivingMembers(rows[..|rows| - 1], later, r);
    }
  }

  // ----- Saves for one and the same window -----

  predicate ForWindow(op: Save, cloudConnectionId: string, startDate: int, endDate: int) {
    op.cloudConnectionId == cloudConnectionId && op.startDate == startDate && op.endDate == endDate
  }

  ghost predicate AllForWindow(ops: seq<Save>, cloudConnectionId: string, startDate: int, endDate: int) {
    forall i :: 0 <= i < |ops| ==> ForWindow(ops[i], cloudConnectionId, startDate, endDate)
  }

  ghost predicate AllStayInWindow(ops: seq<Save>) {
    forall i :: 0 <= i < |ops| ==> StaysInWindow(ops[i])
  }

  lemma RowsOfOneGo(op: Save, later: seq<Save>, cloudConnectionId: string, startDate: int, endDate: int)
    requires ForWindow(op, cloudConnectionId, startDate, endDate)
    requires AllForWindow(later, cloudConnectionId, startDate, endDate)
    requires later != [] && later[|later| - 1].rows != []
    ensures Surviving(op.rows, later) == [] <==> StaysInWindow(op)
  {
    forall r
      ensures Survives(r, later) <==> !InWindow(op, r.data.cloudConnectionId, r.data.timestamp)
    {
      assert Survives(r, later) ==> !Overwrites(later[|later| - 1], r);
    }
    SurvivingLength(op.rows, later);
  }

  lemma OneMoreForWindow(op: Save, later: seq<Save>, cloudConnectionId: string, startDate: int, endDate: int)
    requires ForWindow(op, cloudConnectionId, startDate, endDate)
    requires AllForWindow(later, cloudConnectionId, startDate, endDate) && later != []
    ensures AllForWindow([op] + later, cloudConnectionId, startDate, endDate)
    ensures var all := [op] + later; all[|all| - 1] == later[|later| - 1]
  {}

  lemma AllStayStep(ops: seq<Save>)
    requires ops != []
    ensures AllStayInWindow(ops) <==> AllStayInWindow(ops[..|ops| - 1]) && StaysInWindow(ops[|ops| - 1])
  {
    var front := ops[..|ops| - 1];
    if AllStayInWindow(ops) {
      forall i | 0 <= i < |front|
        ensures StaysInWindow(front[i])
      {
        assert StaysInWindow(ops[i]);
      }
    }
    if AllStayInWindow(front) && StaysInWindow(ops[|ops| - 1]) {
      forall i | 0 <= i < |ops|
        ensures StaysInWindow(ops[i])
      {
        assert i < |front| ==> StaysInWindow(front[i]);
      }
    }
  }

  lemma BothEmpty(a: seq<Row>, b: seq<Row>)
    ensures a + b == [] <==> a == [] && b == []
  {
    assert |a + b| == |a| + |b|;
  }

  lemma {:induction false} EarlierRowsGo(ops: seq<Save>, later: seq<Save>, cloudConnectionId: string, startDate: int,
                                         endDate: int)
    requires AllForWindow(ops, cloudConnectionId, startDate, endDate)
    requires AllForWindow(later, cloudConnectionId, startDate, endDate)
    requires later != [] && later[|later| - 1].rows != []
    ensures Survivors(ops, later) == [] <==> AllStayInWindow(ops)
  {
    if ops == [] {
    } else {
      var front, op := ops[..|ops| - 1], ops[|ops| - 1];
      OneMoreForWindow(op, later, cloudConnectionId, startDate, endDate);
      EarlierRowsGo(front, [op] + later, cloudConnectionId, startDate, endDate);
      RowsOfOneGo(op, later, cloudConnectionId, startDate, endDate);
      BothEmpty(Survivors(front, [op] + later), Surviving(op.rows, later));
      AllStayStep(ops);
    }
  }

  lemma NothingBetween(a: seq<Row>, b: seq<Row>, c: seq<Row>)
    ensures a + (b + c) == a + c <==> b == []
  {
    assert |a + (b + c)| == |a + c| + |b|;
    if b == [] { assert b + c == c; }
  }

  lemma {:induction false} SurvivingCongruent(rows: seq<Row>, ops: seq<Save>, ops': seq<Save>)
    requires forall r :: Survives(r, ops) <==> Survives(r, ops')
    ensures Surviving(rows, ops) == Surviving(rows, ops')
  {
    if rows == [] {
    } else {
      SurvivingCongruent(rows[..|rows| - 1], ops, ops');
    }
  }

  lemma LastOneDecides(front: seq<Save>, last: Save, r: Row, cloudConnectionId: string, startDate: int, endDate: int)
    requires AllForWindow(front, cloudConnectionId, startDate, endDate)
    requires ForWindow(last, cloudConnectionId, startDate, endDate) && last.rows != []
    ensures Survives(r, front + [last]) <==> Survives(r, [last])
  {
    var ops := front + [last];
    assert ops[|front|] == last && [last][0] == last;
    if Survives(r, [last]) {
      assert !Overwrites([last][0], r);
      forall i | 0 <= i < |ops|
        ensures !Overwrites(ops[i], r)
      {
        assert i < |front| ==> ops[i] == front[i] && ForWindow(front[i], cloudConnectionId, startDate, endDate);
      }
    }
    if Survives(r, ops) {
      assert !Overwrites(ops[|front|], r);
    }
  }

  lemma LastSave(stored: seq<Row>, front: seq<Save>, last: Save, cloudConnectionId: string, startDate: int,
                 endDate: int)
    requires AllForWindow(front, cloudConnectionId, startDate, endDate)
    requires ForWindow(last, cloudConnectionId, startDate, endDate) && last.rows != []
    ensures Run(stored, front + [last]) == Surviving(stored, [last]) + (Survivors(front, [last]) + last.rows)
  {
    var ops := front + [last];
    assert ops[..|ops| - 1] == front && ops[|ops| - 1] == last;
    RunIsTheSurvivors(stored, ops);
    AllSurviveNothing(last.rows);
    assert [last] + [] == [last];
    forall r
      ensures Survives(r, ops) <==> Survives(r, [last])
    {
      LastOneDecides(front, last, r, cloudConnectionId, startDate, endDate);
    }
    SurvivingCongruent(stored, ops, [last]);
  }

  /** Several saves for the same window leave what the last one alone would leave, exactly when the rows
      of all the others keep to the window. */
  lemma OnlyTheLastSaveIsLeft(stored: seq<Row>, front: seq<Save>, last: Save,
                              cloudConnectionId: string, startDate: int, endDate: int)
    requires AllForWindow(front, cloudConnectionId, startDate, endDate)
    requires ForWindow(last, cloudConnectionId, startDate, endDate) && last.rows != []
    ensures Run(stored, front + [last]) == Apply(stored, last) <==> AllStayInWindow(front)
  {
    LastSave(stored, front, last, cloudConnectionId, startDate, endDate);
    EarlierRowsGo(front, [last], cloudConnectionId, startDate, endDate);
    NothingBetween(Surviving(stored, [last]), Survivors(front, [last]), last.rows);
  }

  // ----- Saving the same again -----

  function Data(rows: seq<Row>): seq<CloudFootprint> {
    seq(|rows|, i requires 0 <= i < |rows| => rows[i].data)
  }

  /** Repeating a save leaves the table as it was, but for the generated ids, exactly when the save
      keeps to its own window; any row outside stays beside its copy. */
  lemma RepeatedSave(stored: seq<Row>, op: Save, again: Save)
    requires ForWindow(again, op.cloudConnectionId, op.startDate, op.endDate)
    requires Data(again.rows) == Data(op.rows)
    ensures Data(Apply(Apply(stored, op), again)) == Data(Apply(stored, op)) <==> StaysInWindow(op)
  {
    assert |Data(op.rows)| == |op.rows| && |Data(again.rows)| == |again.rows|;
    if op.rows != [] {
      var kept := Surviving(stored, [op]);
      var left := Surviving(op.rows, [again]);
      SurvivingAppend(kept, op.rows, [again]);
      KeptTwice(stored, op, again);
      assert Apply(Apply(stored, op), again) == kept + left + again.rows;
      SurvivingLength(op.rows, [again]);
      NothingSurvivesInWindow(op, again);
      DataAppend(kept + left, again.rows);
      DataAppend(kept, left);
      DataAppend(kept, op.rows);
    }
  }

  lemma DataAppend(a: seq<Row>, b: seq<Row>)
    ensures Data(a + b) == Data(a) + Data(b)
  {}

  lemma NothingSurvivesInWindow(op: Save, again: Save)
    requires ForWindow(again, op.cloudConnectionId, op.startDate, op.endDate)
    requires again.rows != []
    ensures StaysInWindow(op) <==> forall r :: r in op.rows ==> !Survives(r, [again])
  {
    forall r
      ensures Survives(r, [again]) <==> !InWindow(op, r.data.cloudConnectionId, r.data.timestamp)
    {
      SurvivesBoth(r, again, []);
    }
  }

  lemma {:induction false} KeptTwice(rows: seq<Row>, op: Save, again: Save)
    requires ForWindow(again, op.cloudConnectionId, op.startDate, op.endDate)
    requires op.rows == [] <==> again.rows == []
    ensures Surviving(Surviving(rows, [op]), [again]) == Surviving(rows, [op])
  {
    if rows == [] {
    } else {
      var front, r := rows[..|rows| - 1], rows[|rows| - 1];
      KeptTwice(front, op, again);
      SurvivesBoth(r, op, []);
      SurvivesBoth(r, again, []);
      var kept := Surviving(front, [op]);
      assert (kept + [r])[..|kept + [r]| - 1] == kept;
    }
  }
}
