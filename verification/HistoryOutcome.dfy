/**
 Delivery outcomes from a native history (messageIndex and inputHistoryOutcome in
 claude-bridge/history-index.ts). The position map is built in one pass; the reference
 is a linear scan for ids that occur exactly once.
 */
module HistoryOutcome {
  import opened Basics
  import opened HistoryIndex

  datatype Outcome = Unknown | Delivered | NotApplied

  datatype Index = Index(positions: map<string, int>, inputIds: set<string>, uncertainIds: set<string>,
                         absenceProvable: bool)

  // ------------------------------------------------------------------ the position map

  /** One entry per UUID: its position, or -1 once it occurs twice. */
  function PositionMap(messages: seq<string>): map<string, int> {
    if messages == [] then map[]
    else
      var n := |messages| - 1;
      var before := PositionMap(messages[..n]);
      before[messages[n] := if messages[n] in before then -1 else n]
  }

  method IndexMessages(messages: seq<string>, inputIds: set<string>, uncertainIds: set<string>, absenceProvable: bool)
    returns (index: Index)
    ensures index == Index(PositionMap(messages), inputIds, uncertainIds, absenceProvable)
  {
    var positions: map<string, int> := map[];
    var position := 0;
    while position < |messages|
      invariant 0 <= position <= |messages| && positions == PositionMap(messages[..position])
    {
      var uuid := messages[position];
      assert messages[..position + 1][..position] == messages[..position];
      positions := positions[uuid := if uuid in positions then -1 else position];
      position := position + 1;
    }
    assert messages[..position] == messages;
    index := Index(positions, inputIds, uncertainIds, absenceProvable);
  }

  function PositionOf(index: Index, id: string): int {
    if id in index.positions then index.positions[id] else -1
  }

  predicate Rising(index: Index, ids: seq<string>) {
    forall i :: 0 <= i < |ids| ==>
      PositionOf(index, ids[i]) >= 0 && (i > 0 ==> PositionOf(index, ids[i]) > PositionOf(index, ids[i - 1]))
  }

  /** Positions of ids that occur once each and in order; None otherwise. */
  function Positions(index: Index, ids: seq<string>): Option<seq<int>> {
    if Rising(index, ids)
    then Some(seq(|ids|, i requires 0 <= i < |ids| => PositionOf(index, ids[i])))
    else None
  }

  predicate Distinct(ids: seq<string>) {
    forall i, j :: 0 <= i < j < |ids| ==> ids[i] != ids[j]
  }

  predicate Usable(ids: Option<seq<string>>) {
    ids.Some? && ids.value != [] && (forall id <- ids.value :: NativeUuid(id)) && Distinct(ids.value)
  }

  function OutcomeOf(index: Index, ids: Option<seq<string>>, anchors: Option<seq<string>>): Outcome {
    if !Usable(ids) || !Usable(anchors) || Positions(index, anchors.value).None?
       || !(forall id <- anchors.value :: id in index.inputIds)
    then Unknown
    else if Positions(index, ids.value).Some? && (forall id <- ids.value :: id in index.inputIds) then Delivered
    else if index.absenceProvable && (forall id <- ids.value :: id !in index.inputIds && id !in index.uncertainIds)
    then NotApplied
    else Unknown
  }

  function InputHistoryOutcome(rows: seq<Row>, sessionId: string, anchors: Option<seq<string>>,
                               ids: Option<seq<string>>): Outcome {
    match Verify(rows, sessionId)
    case None => Unknown
    case Some(st) =>
      if st.chain == [] then Unknown
      else OutcomeOf(Index(PositionMap(st.chain), st.inputIds, st.uncertainIds, st.absenceProvable), ids, anchors)
  }

  // ------------------------------------------------------------------ the reference scan

  predicate OnceAt(messages: seq<string>, id: string, p: int) {
    && 0 <= p < |messages| && messages[p] == id
    && forall k :: 0 <= k < |messages| && k != p ==> messages[k] != id
  }

  predicate Twice(messages: seq<string>, id: string) {
    exists k, l :: 0 <= k < l < |messages| && messages[k] == id && messages[l] == id
  }

  /** `at` places each id at its only occurrence, in order. */
  predicate InOrderAt(messages: seq<string>, ids: seq<string>, at: seq<int>) {
    && |at| == |ids|
    && (forall i :: 0 <= i < |ids| ==> OnceAt(messages, ids[i], at[i]))
    && (forall i, j :: 0 <= i < j < |ids| ==> at[i] < at[j])
  }

  ghost predicate InOrder(messages: seq<string>, ids: seq<string>) {
    exists at: seq<int> :: InOrderAt(messages, ids, at)
  }

  /** The chain of a history, row by row. */
  function ChainOf(rows: seq<Row>): seq<string> {
    if rows == [] then [] else ChainOf(rows[..|rows| - 1]) + ChainPart(rows[|rows| - 1])
  }
}

/** Outcomes are sound, exact and stable under growth of the history. */
module HistoryOutcomeTheorems {
  import opened Basics
  import opened HistoryIndex
  import opened HistoryOutcome

  lemma {:induction false} MapIsScan(messages: seq<string>, id: string)
    ensures id in PositionMap(messages) <==> id in messages
    ensures id in messages ==>
              if PositionMap(messages)[id] >= 0 then OnceAt(messages, id, PositionMap(messages)[id])
              else Twice(messages, id)
  {
    if messages != [] {
      var n := |messages| - 1;
      var front := messages[..n];
      MapIsScan(front, id);
      assert forall k :: 0 <= k < n ==> messages[k] == front[k];
      if messages[n] == id && id in front {
        var k :| 0 <= k < n && front[k] == id;
        assert messages[k] == id && messages[n] == id;
      } else if id in front && PositionMap(front)[id] < 0 {
        var k, l :| 0 <= k < l < n && front[k] == id && front[l] == id;
        assert messages[k] == id && messages[l] == id;
      }
    }
  }

  lemma {:induction false} OnceIsFound(messages: seq<string>, id: string, p: int)
    requires OnceAt(messages, id, p)
    ensures id in PositionMap(messages) && PositionMap(messages)[id] == p
  {
    MapIsScan(messages, id);
  }

  lemma {:induction false} RisingIsOrdered(index: Index, ids: seq<string>, i: nat, j: nat)
    requires Rising(index, ids) && i < j < |ids|
    ensures PositionOf(index, ids[i]) < PositionOf(index, ids[j])
    decreases j
  {
    if i < j - 1 {
      RisingIsOrdered(index, ids, i, j - 1);
    }
  }

  /** The fast lookup succeeds exactly when each id occurs once, in the given order. */
  lemma {:induction false} PositionsAreTheScan(messages: seq<string>, index: Index, ids: seq<string>)
    requires index.positions == PositionMap(messages)
    ensures Positions(index, ids).Some? <==> InOrder(messages, ids)
    ensures Positions(index, ids).Some? ==> InOrderAt(messages, ids, Positions(index, ids).value)
  {
    if Positions(index, ids).Some? {
      var at := Positions(index, ids).value;
      forall i | 0 <= i < |ids|
        ensures OnceAt(messages, ids[i], at[i])
      {
        MapIsScan(messages, ids[i]);
      }
      forall i, j | 0 <= i < j < |ids|
        ensures at[i] < at[j]
      {
        RisingIsOrdered(index, ids, i, j);
      }
      assert InOrderAt(messages, ids, at);
    }
    if InOrder(messages, ids) {
      var at: seq<int> :| InOrderAt(messages, ids, at);
      forall i | 0 <= i < |ids|
        ensures PositionOf(index, ids[i]) == at[i]
      {
        OnceIsFound(messages, ids[i], at[i]);
      }
    }
  }

  // ------------------------------------------------------------------ coverage of the rows

  lemma {:induction false} AcceptCovers(st: State, row: Row, sessionId: string)
    requires Accept(st, row, sessionId).Some?
    ensures var next := Accept(st, row, sessionId).value;
            && next.chain == st.chain + ChainPart(row)
            && next.inputIds == st.inputIds + InputPart(row)
            && next.uncertainIds == st.uncertainIds + UncertainPart(row)
            && next.absenceProvable == (st.absenceProvable && row.kind != Some(Opaque))
  {
  }

  lemma {:induction false} ChainCoverage(rows: seq<Row>, sessionId: string)
    requires Verify(rows, sessionId).Some?
    ensures Verify(rows, sessionId).value.chain == ChainOf(rows)
  {
    if rows != [] {
      ChainCoverage(rows[..|rows| - 1], sessionId);
      AcceptCovers(Verify(rows[..|rows| - 1], sessionId).value, rows[|rows| - 1], sessionId);
    }
  }

  lemma {:induction false} OpaqueCoverage(rows: seq<Row>, sessionId: string)
    requires Verify(rows, sessionId).Some?
    ensures Verify(rows, sessionId).value.absenceProvable <==> forall row <- rows :: row.kind != Some(Opaque)
  {
    if rows != [] {
      var front, last := rows[..|rows| - 1], rows[|rows| - 1];
      OpaqueCoverage(front, sessionId);
      AcceptCovers(Verify(front, sessionId).value, last, sessionId);
      assert rows == front + [last];
    }
  }

  ghost predicate IsInput(rows: seq<Row>, id: string) {
    exists row <- rows :: id in InputPart(row)
  }

  ghost predicate IsQueued(rows: seq<Row>, id: string) {
    exists row <- rows :: id in UncertainPart(row)
  }

  lemma {:induction false} InputCoverage(rows: seq<Row>, sessionId: string, id: string)
    requires Verify(rows, sessionId).Some?
    ensures id in Verify(rows, sessionId).value.inputIds <==> IsInput(rows, id)
    ensures id in Verify(rows, sessionId).value.uncertainIds <==> IsQueued(rows, id)
  {
    if rows != [] {
      var front, last := rows[..|rows| - 1], rows[|rows| - 1];
      InputCoverage(front, sessionId, id);
      AcceptCovers(Verify(front, sessionId).value, last, sessionId);
      assert rows == front + [last];
    }
  }

  // ------------------------------------------------------------------ soundness

  lemma {:induction false} EmptyChain(ids: seq<string>)
    requires ids != []
    ensures !InOrder([], ids)
  {
    forall at: seq<int>
      ensures !InOrderAt([], ids, at)
    {
      assert |at| == |ids| ==> !OnceAt([], ids[0], at[0]);
    }
  }

  function IndexOf(st: State): Index {
    Index(PositionMap(st.chain), st.inputIds, st.uncertainIds, st.absenceProvable)
  }

  lemma {:induction false} OutcomeByScan(st: State, anchors: seq<string>, ids: seq<string>)
    requires Usable(Some(ids)) && Usable(Some(anchors))
    ensures OutcomeOf(IndexOf(st), Some(ids), Some(anchors)) ==
            if !InOrder(st.chain, anchors) || !(forall id <- anchors :: id in st.inputIds) then Unknown
            else if InOrder(st.chain, ids) && (forall id <- ids :: id in st.inputIds) then Delivered
            else if st.absenceProvable && (forall id <- ids :: id !in st.inputIds && id !in st.uncertainIds)
            then NotApplied else Unknown
  {
    PositionsAreTheScan(st.chain, IndexOf(st), ids);
    PositionsAreTheScan(st.chain, IndexOf(st), anchors);
  }

  ghost predicate Anchored(rows: seq<Row>, sessionId: string, anchors: Option<seq<string>>, ids: Option<seq<string>>) {
    && Verify(rows, sessionId).Some? && Usable(ids) && Usable(anchors)
    && InOrder(ChainOf(rows), anchors.value) && (forall id <- anchors.value :: IsInput(rows, id))
  }

  lemma {:induction false} UsefulOutcome(rows: seq<Row>, sessionId: string, anchors: Option<seq<string>>,
                                         ids: Option<seq<string>>)
    ensures InputHistoryOutcome(rows, sessionId, anchors, ids) != Unknown ==> Anchored(rows, sessionId, anchors, ids)
    ensures Anchored(rows, sessionId, anchors, ids) ==>
              && Verify(rows, sessionId).value.chain != []
              && InOrder(Verify(rows, sessionId).value.chain, anchors.value)
              && (forall id <- anchors.value :: id in Verify(rows, sessionId).value.inputIds)
  {
    if Verify(rows, sessionId).Some? && Usable(ids) && Usable(anchors) {
      var st := Verify(rows, sessionId).value;
      ChainCoverage(rows, sessionId);
      OutcomeByScan(st, anchors.value, ids.value);
      EmptyChain(anchors.value);
      forall id <- anchors.value
        ensures id in st.inputIds <==> IsInput(rows, id)
      {
        InputCoverage(rows, sessionId, id);
      }
    }
  }

  /** Delivered exactly when, after usable anchors, every id is an input that occurs once, in order. */
  lemma {:induction false} DeliveredIsExact(rows: seq<Row>, sessionId: string, anchors: Option<seq<string>>,
                                            ids: Option<seq<string>>)
    ensures InputHistoryOutcome(rows, sessionId, anchors, ids) == Delivered <==>
            && Anchored(rows, sessionId, anchors, ids)
            && InOrder(ChainOf(rows), ids.value) && (forall id <- ids.value :: IsInput(rows, id))
  {
    UsefulOutcome(rows, sessionId, anchors, ids);
    if Anchored(rows, sessionId, anchors, ids) {
      var st := Verify(rows, sessionId).value;
      ChainCoverage(rows, sessionId);
      OutcomeByScan(st, anchors.value, ids.value);
      forall id <- ids.value
        ensures id in st.inputIds <==> IsInput(rows, id)
      {
        InputCoverage(rows, sessionId, id);
      }
    }
  }

  /** Not applied exactly when no id is an input or a queued command and no row is opaque. */
  lemma {:induction false} NotAppliedIsExact(rows: seq<Row>, sessionId: string, anchors: Option<seq<string>>,
                                             ids: Option<seq<string>>)
    ensures InputHistoryOutcome(rows, sessionId, anchors, ids) == NotApplied <==>
            && Anchored(rows, sessionId, anchors, ids)
            && (forall id <- ids.value :: !IsInput(rows, id) && !IsQueued(rows, id))
            && (forall row <- rows :: row.kind != Some(Opaque))
  {
    UsefulOutcome(rows, sessionId, anchors, ids);
    if Anchored(rows, sessionId, anchors, ids) {
      var st := Verify(rows, sessionId).value;
      OpaqueCoverage(rows, sessionId);
      OutcomeByScan(st, anchors.value, ids.value);
      forall id <- ids.value
        ensures id in st.inputIds <==> IsInput(rows, id)
        ensures id in st.uncertainIds <==> IsQueued(rows, id)
      {
        InputCoverage(rows, sessionId, id);
      }
      assert ids.value[0] in ids.value;
    }
  }

  // ------------------------------------------------------------------ stability

  lemma {:induction false} ChainGrows(rows: seq<Row>, more: seq<Row>)
    ensures ChainOf(rows + more) == ChainOf(rows) + ChainOf(more)
  {
    if more == [] {
      assert rows + more == rows;
    } else {
      assert (rows + more)[..|rows + more| - 1] == rows + more[..|more| - 1];
      ChainGrows(rows, more[..|more| - 1]);
    }
  }

  /** Growth keeps an ordered placement exactly when it repeats none of the ids. */
  lemma {:induction false} OrderGrows(messages: seq<string>, more: seq<string>, ids: seq<string>)
    requires InOrder(messages, ids)
    ensures InOrder(messages + more, ids) <==> forall id <- ids :: id !in more
  {
    var at: seq<int> :| InOrderAt(messages, ids, at);
    if forall id <- ids :: id !in more {
      forall i | 0 <= i < |ids|
        ensures OnceAt(messages + more, ids[i], at[i])
      {
        assert OnceAt(messages, ids[i], at[i]) && ids[i] !in more;
      }
      assert InOrderAt(messages + more, ids, at);
    }
    if InOrder(messages + more, ids) {
      var to: seq<int> :| InOrderAt(messages + more, ids, to);
      forall i | 0 <= i < |ids|
        ensures ids[i] !in more
      {
        OncePlaced(messages, more, ids[i], at[i], to[i]);
      }
    }
  }

  lemma {:induction false} OncePlaced(messages: seq<string>, more: seq<string>, id: string, at: int, to: int)
    requires OnceAt(messages, id, at) && OnceAt(messages + more, id, to)
    ensures id !in more
  {
    var all := messages + more;
    assert all[at] == id && at == to;
    forall k | 0 <= k < |more|
      ensures more[k] != id
    {
      assert all[|messages| + k] == more[k];
    }
  }

  /** However the history grows, a delivered input is never reported as not applied. */
  lemma {:induction false} DeliveredNeverBecomesNotApplied(rows: seq<Row>, more: seq<Row>, sessionId: string,
                                                           anchors: Option<seq<string>>, ids: Option<seq<string>>)
    requires InputHistoryOutcome(rows, sessionId, anchors, ids) == Delivered
    ensures InputHistoryOutcome(rows + more, sessionId, anchors, ids) != NotApplied
  {
    DeliveredIsExact(rows, sessionId, anchors, ids);
    NotAppliedIsExact(rows + more, sessionId, anchors, ids);
    var id := ids.value[0];
    assert id in ids.value;
    var row :| row in rows && id in InputPart(row);
    assert row in rows + more;
  }

  /** A delivered input stays delivered exactly while accepted growth repeats no id and no anchor. */
  lemma {:induction false} DeliveredStaysDelivered(rows: seq<Row>, more: seq<Row>, sessionId: string,
                                                   anchors: Option<seq<string>>, ids: Option<seq<string>>)
    requires InputHistoryOutcome(rows, sessionId, anchors, ids) == Delivered
    requires Verify(rows + more, sessionId).Some?
    ensures Usable(ids) && Usable(anchors)
    ensures InputHistoryOutcome(rows + more, sessionId, anchors, ids) == Delivered <==>
            forall id <- anchors.value + ids.value :: id !in ChainOf(more)
  {
    DeliveredIsExact(rows, sessionId, anchors, ids);
    DeliveredIsExact(rows + more, sessionId, anchors, ids);
    ChainGrows(rows, more);
    OrderGrows(ChainOf(rows), ChainOf(more), anchors.value);
    OrderGrows(ChainOf(rows), ChainOf(more), ids.value);
    forall id | id in anchors.value || id in ids.value
      ensures IsInput(rows + more, id)
    {
      InputsGrow(rows, more, id);
    }
    SplitMembers(anchors.value, ids.value, ChainOf(more));
  }

  lemma {:induction false} InputsGrow(rows: seq<Row>, more: seq<Row>, id: string)
    requires IsInput(rows, id)
    ensures IsInput(rows + more, id)
  {
    var row :| row in rows && id in InputPart(row);
    assert row in rows + more;
  }

  lemma {:induction false} SplitMembers(a: seq<string>, b: seq<string>, c: seq<string>)
    ensures (forall id <- a + b :: id !in c) <==> (forall id <- a :: id !in c) && (forall id <- b :: id !in c)
  {
    assert forall id <- a :: id in a + b;
    assert forall id <- b :: id in a + b;
  }
}
