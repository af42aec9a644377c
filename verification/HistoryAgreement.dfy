/** The incremental ancestry of an accepted history equals the walk over its parent links. */
module HistoryAgreement {
  import opened Basics
  import opened HistoryIndex
  import opened HistoryWalk

  // ------------------------------------------------------------------ what an accepted history guarantees

  lemma {:induction false} FindExtends(rows: seq<Row>, row: Row, id: string)
    ensures Find(rows, id) < |rows| ==> Find(rows + [row], id) == Find(rows, id)
    ensures Find(rows, id) == |rows| && Matches(row, id) ==> Find(rows + [row], id) == |rows|
  {
    assert (rows + [row])[..|rows|] == rows;
  }

  lemma {:induction false} FiledStep(rows: seq<Row>, st: State, row: Row, sessionId: string)
    requires Filed(rows, st) && Accept(st, row, sessionId).Some?
    ensures Filed(rows + [row], Accept(st, row, sessionId).value)
  {
    var n := Accept(st, row, sessionId).value;
    var all := rows + [row];
    forall id <- n.ancestry
      ensures id in n.seen && Find(all, id) < |all|
    {
      FindExtends(rows, row, id);
    }
  }

  lemma {:induction false} SpeakGrows(rows: seq<Row>, st: State, row: Row)
    requires Spoken(row) && row.uuid.Some? && row.uuid.value !in st.ancestry && Speak(st, row).Some?
    ensures Extends(st.ancestry, Speak(st, row).value.ancestry)
  {
  }

  lemma {:induction false} AncestryGrows(rows: seq<Row>, st: State, row: Row, sessionId: string)
    requires Filed(rows, st) && Accept(st, row, sessionId).Some?
    ensures Extends(st.ancestry, Accept(st, row, sessionId).value.ancestry)
  {
    if Spoken(row) && row.uuid.Some? {
      var next := st.(seen := st.seen + {row.uuid.value},
                      absenceProvable := st.absenceProvable && !row.kind.value.Opaque?);
      SpeakGrows(rows, next, row);
    }
  }

  lemma {:induction false} PlacedKept(rows: seq<Row>, row: Row, a: map<string, Ancestor>, b: map<string, Ancestor>,
                                      i: nat)
    requires i < |rows| && Placed(rows, a, i) && Extends(a, b)
    ensures Placed(rows + [row], b, i)
  {
    if rows[i].parent.Named? {
      FindExtends(rows, row, rows[i].parent.id);
    }
  }

  lemma {:induction false} PlacedNew(rows: seq<Row>, st: State, row: Row, sessionId: string)
    requires Filed(rows, st) && Accept(st, row, sessionId).Some? && Spoken(row)
    ensures Placed(rows + [row], Accept(st, row, sessionId).value.ancestry, |rows|)
  {
    AncestryGrows(rows, st, row, sessionId);
    if row.parent.Named? {
      FindExtends(rows, row, row.parent.id);
    }
  }

  lemma {:induction false} PlacedStep(rows: seq<Row>, st: State, row: Row, sessionId: string)
    requires Filed(rows, st) && AllPlaced(rows, st.ancestry) && Accept(st, row, sessionId).Some?
    ensures AllPlaced(rows + [row], Accept(st, row, sessionId).value.ancestry)
  {
    var next := Accept(st, row, sessionId).value.ancestry;
    var all := rows + [row];
    AncestryGrows(rows, st, row, sessionId);
    forall i | 0 <= i < |all| && Spoken(all[i])
      ensures Placed(all, next, i)
    {
      if i < |rows| {
        assert Spoken(rows[i]);
        PlacedKept(rows, row, st.ancestry, next, i);
      } else {
        PlacedNew(rows, st, row, sessionId);
      }
    }
  }

  lemma {:induction false} AcceptedShape(rows: seq<Row>, sessionId: string)
    requires Verify(rows, sessionId).Some?
    ensures Filed(rows, Verify(rows, sessionId).value) && AllPlaced(rows, Verify(rows, sessionId).value.ancestry)
  {
    if rows != [] {
      var front, last := rows[..|rows| - 1], rows[|rows| - 1];
      AcceptedShape(front, sessionId);
      var st := Verify(front, sessionId).value;
      assert rows == front + [last];
      FiledStep(front, st, last, sessionId);
      PlacedStep(front, st, last, sessionId);
    }
  }

  // ------------------------------------------------------------------ the walk terminates and agrees

  lemma {:induction false} WalkStep(rows: seq<Row>, ancestry: map<string, Ancestor>, i: nat, j: nat, rest: seq<nat>)
    requires i < |rows| && Spoken(rows[i]) && Placed(rows, ancestry, i) && j < i
    requires rows[i].parent.Named? && rows[j].uuid == Some(rows[i].parent.id) && WalkOk(rows, ancestry, j, rest)
    ensures WalkOk(rows, ancestry, i, [i] + rest)
  {
    var path := [i] + rest;
    assert path[1..] == rest;
  }

  lemma {:induction false} WalkEnd(rows: seq<Row>, ancestry: map<string, Ancestor>, i: nat)
    requires i < |rows| && Spoken(rows[i]) && Placed(rows, ancestry, i) && rows[i].parent.Root?
    ensures WalkOk(rows, ancestry, i, [i])
  {
    assert [i][1..] == [];
  }

  lemma {:induction false} WalkAgrees(rows: seq<Row>, ancestry: map<string, Ancestor>, i: nat, fuel: nat)
    requires AllPlaced(rows, ancestry) && i < |rows| && Spoken(rows[i]) && fuel > i
    ensures Ascend(rows, i, fuel).Path?
    ensures WalkOk(rows, ancestry, i, Ascend(rows, i, fuel).rows)
    decreases i
  {
    assert Placed(rows, ancestry, i);
    match rows[i].parent
    case Root => WalkEnd(rows, ancestry, i);
    case Named(p) =>
      var j := Find(rows, p);
      WalkAgrees(rows, ancestry, j, fuel - 1);
      WalkStep(rows, ancestry, i, j, Ascend(rows, j, fuel - 1).rows);
  }

  /**
   In an accepted history every parent walk ends at a root within as many steps as
   there are rows before it, and the incremental ancestry holds exactly the nearest
   input and the nearest message that the walk meets.
   */
  lemma {:induction false} AncestryIsTheWalk(rows: seq<Row>, sessionId: string, i: nat, fuel: nat)
    requires Verify(rows, sessionId).Some? && i < |rows| && Spoken(rows[i]) && fuel > i
    ensures Ascend(rows, i, fuel).Path?
    ensures var path := Ascend(rows, i, fuel).rows;
            && path != [] && path[0] == i && OnRows(rows, path) && Descending(path)
            && rows[i].uuid.Some? && rows[i].uuid.value in Verify(rows, sessionId).value.ancestry
            && Verify(rows, sessionId).value.ancestry[rows[i].uuid.value]
               == Ancestor(NearestInput(rows, path), NearestMessage(rows, path))
  {
    AcceptedShape(rows, sessionId);
    WalkAgrees(rows, Verify(rows, sessionId).value.ancestry, i, fuel);
  }

  // ------------------------------------------------------------------ records

  lemma {:induction false} RecordsKeep(rows: seq<Row>, a: map<string, Ancestor>, b: map<string, Ancestor>)
    requires AllPlaced(rows, a) && Extends(a, b)
    ensures RecordsOf(rows, a) == RecordsOf(rows, b)
  {
    if rows != [] {
      var front, last := rows[..|rows| - 1], rows[|rows| - 1];
      assert Spoken(last) ==> Placed(rows, a, |rows| - 1);
      FrontPlaced(front, last, a);
      RecordsKeep(front, a, b);
    }
  }

  lemma {:induction false} FrontPlaced(front: seq<Row>, last: Row, ancestry: map<string, Ancestor>)
    requires AllPlaced(front + [last], ancestry)
    ensures AllPlaced(front, ancestry)
  {
    forall i | 0 <= i < |front| && Spoken(front[i])
      ensures Placed(front, ancestry, i)
    {
      assert (front + [last])[i] == front[i];
      assert Placed(front + [last], ancestry, i);
      if front[i].parent.Named? {
        FindExtends(front, last, front[i].parent.id);
      }
    }
  }

  lemma {:induction false} AcceptRecords(st: State, row: Row, sessionId: string, next: State)
    requires Accept(st, row, sessionId) == Some(next) && Extends(st.ancestry, next.ancestry)
    ensures next.records == st.records +
            if !Recorded(row) then []
            else [Record(row, if Spoken(row) then AncestorOf(next.ancestry, row.parent).messageId else None)]
  {
  }

  /** The records handed to controls are the history's rows with their true parent messages. */
  lemma {:induction false} RecordsNameParents(rows: seq<Row>, sessionId: string)
    requires Verify(rows, sessionId).Some?
    ensures Verify(rows, sessionId).value.records == RecordsOf(rows, Verify(rows, sessionId).value.ancestry)
  {
    if rows != [] {
      var front, last := rows[..|rows| - 1], rows[|rows| - 1];
      var st := Verify(front, sessionId).value;
      var next := Verify(rows, sessionId).value;
      RecordsNameParents(front, sessionId);
      AcceptedShape(front, sessionId);
      AncestryGrows(front, st, last, sessionId);
      RecordsKeep(front, st.ancestry, next.ancestry);
      AcceptRecords(st, last, sessionId, next);
    }
  }

  // ------------------------------------------------------------------ inputs lie on one path

  /** Inputs lists every input row once, in file order. */
  lemma {:induction false} InputsAreAll(rows: seq<Row>)
    ensures forall k, l :: 0 <= k < l < |Inputs(rows)| ==> Inputs(rows)[k] < Inputs(rows)[l]
    ensures forall i :: 0 <= i < |rows| && InputRow(rows[i]) ==> i in Inputs(rows)
  {
    if rows != [] {
      InputsAreAll(rows[..|rows| - 1]);
    }
  }

  lemma {:induction false} InputsSnoc(rows: seq<Row>, row: Row)
    ensures Inputs(rows + [row]) == Inputs(rows) + if InputRow(row) then [|rows|] else []
  {
    assert (rows + [row])[..|rows|] == rows;
  }

  lemma {:induction false} ChainedKept(rows: seq<Row>, row: Row, a: map<string, Ancestor>, b: map<string, Ancestor>)
    requires Chained(rows, a) && AllPlaced(rows, a) && Extends(a, b)
    ensures forall k :: 0 < k < |Inputs(rows)| ==>
              AncestorOf(b, (rows + [row])[Inputs(rows)[k]].parent).inputId == (rows + [row])[Inputs(rows)[k - 1]].uuid
  {
    forall k | 0 < k < |Inputs(rows)|
      ensures AncestorOf(b, (rows + [row])[Inputs(rows)[k]].parent).inputId == (rows + [row])[Inputs(rows)[k - 1]].uuid
    {
      assert Placed(rows, a, Inputs(rows)[k]);
    }
  }

  lemma {:induction false} AcceptInput(st: State, row: Row, sessionId: string)
    requires Accept(st, row, sessionId).Some?
    ensures Accept(st, row, sessionId).value.previousInput == if InputRow(row) then row.uuid else st.previousInput
  {
  }

  lemma {:induction false} LastInputStep(rows: seq<Row>, st: State, row: Row, sessionId: string)
    requires LastInput(rows, st.previousInput) && Accept(st, row, sessionId).Some?
    ensures LastInput(rows + [row], Accept(st, row, sessionId).value.previousInput)
  {
    InputsSnoc(rows, row);
    AcceptInput(st, row, sessionId);
  }

  lemma {:induction false} ChainedStep(rows: seq<Row>, st: State, row: Row, sessionId: string)
    requires Filed(rows, st) && AllPlaced(rows, st.ancestry) && Accept(st, row, sessionId).Some?
    requires LastInput(rows, st.previousInput) && Chained(rows, st.ancestry)
    ensures Chained(rows + [row], Accept(st, row, sessionId).value.ancestry)
  {
    AncestryGrows(rows, st, row, sessionId);
    ChainedKept(rows, row, st.ancestry, Accept(st, row, sessionId).value.ancestry);
    if InputRow(row) && Inputs(rows) != [] {
      LastChained(rows, st, row, sessionId);
    }
    ChainedSnoc(rows, row, Accept(st, row, sessionId).value.ancestry);
  }

  lemma {:induction false} ChainedSnoc(rows: seq<Row>, row: Row, ancestry: map<string, Ancestor>)
    requires forall k :: 0 < k < |Inputs(rows)| ==>
               AncestorOf(ancestry, (rows + [row])[Inputs(rows)[k]].parent).inputId
                 == (rows + [row])[Inputs(rows)[k - 1]].uuid
    requires InputRow(row) && Inputs(rows) != [] ==>
               AncestorOf(ancestry, row.parent).inputId == rows[Inputs(rows)[|Inputs(rows)| - 1]].uuid
    ensures Chained(rows + [row], ancestry)
  {
    InputsSnoc(rows, row);
  }

  lemma {:induction false} LastChained(rows: seq<Row>, st: State, row: Row, sessionId: string)
    requires Filed(rows, st) && AllPlaced(rows, st.ancestry) && Accept(st, row, sessionId).Some? && InputRow(row)
    requires LastInput(rows, st.previousInput) && Inputs(rows) != []
    ensures AncestorOf(Accept(st, row, sessionId).value.ancestry, row.parent).inputId
            == rows[Inputs(rows)[|Inputs(rows)| - 1]].uuid
  {
    AncestryGrows(rows, st, row, sessionId);
    assert Placed(rows, st.ancestry, Inputs(rows)[|Inputs(rows)| - 1]);
  }

  lemma {:induction false} AcceptedLast(rows: seq<Row>, sessionId: string)
    requires Verify(rows, sessionId).Some?
    ensures LastInput(rows, Verify(rows, sessionId).value.previousInput)
  {
    if rows != [] {
      var front, last := rows[..|rows| - 1], rows[|rows| - 1];
      AcceptedLast(front, sessionId);
      assert rows == front + [last];
      LastInputStep(front, Verify(front, sessionId).value, last, sessionId);
    }
  }

  lemma {:induction false} AcceptedChain(rows: seq<Row>, sessionId: string)
    requires Verify(rows, sessionId).Some?
    ensures Chained(rows, Verify(rows, sessionId).value.ancestry)
  {
    if rows != [] {
      var front, last := rows[..|rows| - 1], rows[|rows| - 1];
      AcceptedChain(front, sessionId);
      AcceptedLast(front, sessionId);
      AcceptedShape(front, sessionId);
      assert rows == front + [last];
      ChainedStep(front, Verify(front, sessionId).value, last, sessionId);
    }
  }

  lemma {:induction false} AscendSuffix(rows: seq<Row>, i: nat, fuel: nat, k: nat)
    requires i < |rows| && Ascend(rows, i, fuel).Path? && k < |Ascend(rows, i, fuel).rows|
    ensures fuel >= k && Ascend(rows, i, fuel).rows[k] < |rows|
    ensures Ascend(rows, Ascend(rows, i, fuel).rows[k], fuel - k) == Path(Ascend(rows, i, fuel).rows[k..])
    decreases k
  {
    if k > 0 {
      var j := Find(rows, rows[i].parent.id);
      AscendSuffix(rows, j, fuel - 1, k - 1);
    }
  }

  lemma {:induction false} NoInputsOn(rows: seq<Row>, path: seq<nat>)
    requires OnRows(rows, path) && forall k :: 0 <= k < |path| ==> rows[path[k]].kind != Some(Input)
    ensures InputsOn(rows, path) == []
  {
    if path != [] {
      NoInputsOn(rows, path[1..]);
    }
  }

  /** The nearest input on a path is where the inputs of the path begin. */
  lemma {:induction false} NearestSplits(rows: seq<Row>, path: seq<nat>) returns (k: nat)
    requires OnRows(rows, path) && NearestInput(rows, path).Some?
    ensures k < |path| && rows[path[k]].kind == Some(Input) && rows[path[k]].uuid == NearestInput(rows, path)
    ensures InputsOn(rows, path) == InputsOn(rows, path[k..])
  {
    if rows[path[0]].kind == Some(Input) {
      k := 0;
    } else {
      var l := NearestSplits(rows, path[1..]);
      k := l + 1;
      assert path[1..][l..] == path[k..];
    }
  }

  lemma {:induction false} FirstInputAlone(rows: seq<Row>, ancestry: map<string, Ancestor>, path: seq<nat>)
    requires Inputs(rows) != [] && WalkOk(rows, ancestry, Inputs(rows)[0], path)
    ensures ReversedInputs(rows, path, 0)
  {
    InputsAreAll(rows);
    forall k | 0 < k < |path|
      ensures rows[path[k]].kind != Some(Input)
    {
      assert Spoken(rows[path[k]]) && path[k] < Inputs(rows)[0];
      assert forall l :: 0 <= l < |Inputs(rows)| ==> Inputs(rows)[l] >= Inputs(rows)[0];
    }
    NoInputsOn(rows, path[1..]);
  }

  lemma {:induction false} NextInputJoins(rows: seq<Row>, path: seq<nat>, tail: seq<nat>, j: nat)
    requires 0 < j < |Inputs(rows)| && ReversedInputs(rows, tail, j - 1)
    requires path != [] && OnRows(rows, path) && path[0] == Inputs(rows)[j]
    requires InputsOn(rows, path[1..]) == InputsOn(rows, tail)
    ensures ReversedInputs(rows, path, j)
  {
  }

  lemma {:induction false} NearestAbove(rows: seq<Row>, ancestry: map<string, Ancestor>, i: nat, id: string,
                                        path: seq<nat>)
    requires AllPlaced(rows, ancestry) && i < |rows| && Placed(rows, ancestry, i)
    requires AncestorOf(ancestry, rows[i].parent).inputId == Some(id) && Ascend(rows, i, |rows|) == Path(path)
    ensures path != [] && OnRows(rows, path) && OnRows(rows, path[1..])
    ensures NearestInput(rows, path[1..]) == Some(id)
  {
    var p := Find(rows, rows[i].parent.id);
    WalkAgrees(rows, ancestry, p, |rows| - 1);
    assert path[1..] == Ascend(rows, p, |rows| - 1).rows;
  }

  /** The inputs above the row `i` are those of the path from its nearest input `m`. */
  lemma {:induction false} InputsAbove(rows: seq<Row>, st: State, i: nat, m: nat, path: seq<nat>)
    requires Filed(rows, st) && AllPlaced(rows, st.ancestry) && i < |rows| && Placed(rows, st.ancestry, i)
    requires m < |rows| && rows[m].uuid.Some? && AncestorOf(st.ancestry, rows[i].parent).inputId == rows[m].uuid
    requires Ascend(rows, i, |rows|) == Path(path)
    ensures path != [] && OnRows(rows, path[1..]) && Ascend(rows, m, |rows|).Path?
    ensures OnRows(rows, Ascend(rows, m, |rows|).rows)
    ensures InputsOn(rows, path[1..]) == InputsOn(rows, Ascend(rows, m, |rows|).rows)
  {
    NearestAbove(rows, st.ancestry, i, rows[m].uuid.value, path);
    var k := NearestSplits(rows, path[1..]);
    SameRow(rows, st, path[k + 1], m);
    PathFrom(rows, i, path, k + 1);
    assert path[1..][k..] == path[k + 1..];
  }

  lemma {:induction false} SameRow(rows: seq<Row>, st: State, a: nat, b: nat)
    requires Filed(rows, st) && a < |rows| && b < |rows| && rows[a].uuid.Some? && rows[a].uuid == rows[b].uuid
    ensures a == b
  {
  }

  lemma {:induction false} PathFrom(rows: seq<Row>, i: nat, path: seq<nat>, k: nat)
    requires i < |rows| && Ascend(rows, i, |rows|) == Path(path) && k < |path|
    ensures path[k] < |rows| && Ascend(rows, path[k], |rows|) == Path(path[k..])
  {
    AscendSuffix(rows, i, |rows|, k);
    SamePath(rows, path[k], |rows| - k, |rows|);
  }

  lemma {:induction false} PathExists(rows: seq<Row>, ancestry: map<string, Ancestor>, i: nat)
    requires AllPlaced(rows, ancestry) && i < |rows| && Spoken(rows[i])
    ensures Ascend(rows, i, |rows|).Path?
    ensures var path := Ascend(rows, i, |rows|).rows; OnRows(rows, path) && path != [] && path[0] == i
  {
    WalkAgrees(rows, ancestry, i, |rows|);
  }

  lemma {:induction false} FirstAscends(rows: seq<Row>, ancestry: map<string, Ancestor>)
    requires AllPlaced(rows, ancestry) && Inputs(rows) != []
    ensures Ascend(rows, Inputs(rows)[0], |rows|).Path?
    ensures ReversedInputs(rows, Ascend(rows, Inputs(rows)[0], |rows|).rows, 0)
  {
    WalkAgrees(rows, ancestry, Inputs(rows)[0], |rows|);
    FirstInputAlone(rows, ancestry, Ascend(rows, Inputs(rows)[0], |rows|).rows);
  }

  lemma {:induction false} InputsAscend(rows: seq<Row>, st: State, j: nat)
    requires Filed(rows, st) && AllPlaced(rows, st.ancestry) && Chained(rows, st.ancestry) && j < |Inputs(rows)|
    ensures Ascend(rows, Inputs(rows)[j], |rows|).Path?
    ensures ReversedInputs(rows, Ascend(rows, Inputs(rows)[j], |rows|).rows, j)
    decreases j
  {
    if j == 0 {
      FirstAscends(rows, st.ancestry);
    } else {
      var i := Inputs(rows)[j];
      InputsAscend(rows, st, j - 1);
      PathExists(rows, st.ancestry, i);
      InputsJoin(rows, st, i, Inputs(rows)[j - 1], Ascend(rows, i, |rows|).rows, j);
    }
  }

  lemma {:induction false} InputsJoin(rows: seq<Row>, st: State, i: nat, m: nat, path: seq<nat>, j: nat)
    requires Filed(rows, st) && AllPlaced(rows, st.ancestry) && Chained(rows, st.ancestry)
    requires 0 < j < |Inputs(rows)| && i == Inputs(rows)[j] && m == Inputs(rows)[j - 1]
    requires Ascend(rows, i, |rows|) == Path(path) && OnRows(rows, path) && path != [] && path[0] == i
    requires Ascend(rows, m, |rows|).Path? && ReversedInputs(rows, Ascend(rows, m, |rows|).rows, j - 1)
    ensures ReversedInputs(rows, path, j)
  {
    ChainedAt(rows, st.ancestry, i, m, j);
    InputsAbove(rows, st, i, m, path);
    NextInputJoins(rows, path, Ascend(rows, m, |rows|).rows, j);
  }

  lemma {:induction false} ChainedAt(rows: seq<Row>, ancestry: map<string, Ancestor>, i: nat, m: nat, j: nat)
    requires AllPlaced(rows, ancestry) && Chained(rows, ancestry)
    requires 0 < j < |Inputs(rows)| && i == Inputs(rows)[j] && m == Inputs(rows)[j - 1]
    ensures Placed(rows, ancestry, i) && rows[m].uuid.Some?
    ensures AncestorOf(ancestry, rows[i].parent).inputId == rows[m].uuid
  {
    assert Placed(rows, ancestry, m);
  }

  /** More fuel finds the same path. */
  lemma {:induction false} SamePath(rows: seq<Row>, i: nat, fuel: nat, more: nat)
    requires i < |rows| && fuel <= more && Ascend(rows, i, fuel).Path?
    ensures Ascend(rows, i, more) == Ascend(rows, i, fuel)
    decreases fuel
  {
    if rows[i].parent.Named? {
      SamePath(rows, Find(rows, rows[i].parent.id), fuel - 1, more - 1);
    }
  }

  /**
   All inputs of an accepted history lie on one ancestor path: walking up from the
   j-th input meets exactly the inputs before it, latest first, skipping none.
   */
  lemma {:induction false} InputsLieOnOnePath(rows: seq<Row>, sessionId: string, j: nat)
    requires Verify(rows, sessionId).Some? && j < |Inputs(rows)|
    ensures Ascend(rows, Inputs(rows)[j], |rows|).Path?
    ensures var path := Ascend(rows, Inputs(rows)[j], |rows|).rows;
            && OnRows(rows, path) && |InputsOn(rows, path)| == j + 1
            && forall k :: 0 <= k <= j ==> InputsOn(rows, path)[k] == Inputs(rows)[j - k]
  {
    AcceptedShape(rows, sessionId);
    AcceptedChain(rows, sessionId);
    InputsAscend(rows, Verify(rows, sessionId).value, j);
  }
}
