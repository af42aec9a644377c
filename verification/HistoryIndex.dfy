/**
 The integrity witness over native Claude history rows (verifiedChain in
 claude-bridge/history-index.ts): one pass builds ancestry, input coverage and the
 message chain. The reference is a plain walk over parent links.
 */
module HistoryIndex {
  import opened Basics

  datatype Kind = Input | NonInput | Opaque | Metadata | QueueOperation

  /** row.type, as far as the index reads it. */
  datatype Role = User | Assistant | Attachment | OtherRole

  /** row.parentUuid: null, a string, or neither. */
  datatype Parent = Root | Named(id: string) | Malformed

  /** A row that is not an object, or whose fields do not parse, has no kind. */
  datatype Row = Row(kind: Option<Kind>, role: Role, uuid: Option<string>, sessionId: Option<string>,
                     commandUuid: Option<string>, sidechain: Option<bool>, absoluteCwd: bool,
                     parent: Parent, sourceUuid: string)

  datatype Ancestor = Ancestor(inputId: Option<string>, messageId: Option<string>)

  datatype Record = Record(row: Row, parentMessageId: Option<string>)

  datatype State = State(chain: seq<string>, seen: set<string>, ancestry: map<string, Ancestor>, records: seq<Record>,
                         previousInput: Option<string>, inputIds: set<string>, uncertainIds: set<string>,
                         absenceProvable: bool)

  const Start := State([], {}, map[], [], None, {}, {}, true)

  predicate Hex(c: char) {
    '0' <= c <= '9' || 'a' <= c <= 'f' || 'A' <= c <= 'F'
  }

  predicate NativeUuid(s: string) {
    && |s| == 36
    && forall i :: 0 <= i < 36 ==> if i in {8, 13, 18, 23} then s[i] == '-' else Hex(s[i])
  }

  predicate Conversational(role: Role) {
    role.User? || role.Assistant?
  }

  /** The row takes part in the conversation. */
  predicate Spoken(row: Row) {
    && row.kind.Some? && !row.kind.value.QueueOperation? && !row.kind.value.Metadata?
    && row.sidechain != Some(true)
  }

  // ------------------------------------------------------------------ the incremental pass

  function AncestorOf(ancestry: map<string, Ancestor>, parent: Parent): Ancestor {
    if parent.Named? && parent.id in ancestry then ancestry[parent.id] else Ancestor(None, None)
  }

  /** What a row adds to the message chain: itself, or the queued command it delivers. */
  function ChainPart(row: Row): seq<string> {
    if !Spoken(row) || row.uuid.None? then []
    else if Conversational(row.role) then [row.uuid.value]
    else if row.role.Attachment? && row.kind.value.Input? then [row.sourceUuid]
    else []
  }

  function InputPart(row: Row): set<string> {
    if Spoken(row) && row.kind.value.Input? && ChainPart(row) != [] then {ChainPart(row)[0]} else {}
  }

  function UncertainPart(row: Row): set<string> {
    if && row.kind == Some(QueueOperation) && row.commandUuid.Some? && NativeUuid(row.commandUuid.value)
    then {row.commandUuid.value} else {}
  }

  function Nearest(row: Row, above: Ancestor): Ancestor {
    Ancestor(if row.kind == Some(Input) then row.uuid else above.inputId,
             if Conversational(row.role) then row.uuid else above.messageId)
  }

  function Speak(st: State, row: Row): Option<State>
    requires Spoken(row) && row.uuid.Some?
  {
    var above := AncestorOf(st.ancestry, row.parent);
    var input := row.kind.value.Input?;
    if row.parent.Malformed? || (row.parent.Named? && row.parent.id !in st.ancestry) then None
    else if input && st.previousInput.Some? && above.inputId != st.previousInput then None
    else
      Some(st.(records := st.records + [Record(row, above.messageId)],
               ancestry := st.ancestry[row.uuid.value := Nearest(row, above)],
               previousInput := if input then row.uuid else st.previousInput,
               chain := st.chain + ChainPart(row),
               inputIds := st.inputIds + InputPart(row)))
  }

  function Accept(st: State, row: Row, sessionId: string): Option<State> {
    if row.kind.None? then None
    else if row.uuid.Some? && (!NativeUuid(row.uuid.value) || row.uuid.value in st.seen) then None
    else
      var next := st.(seen := if row.uuid.Some? then st.seen + {row.uuid.value} else st.seen,
                      absenceProvable := st.absenceProvable && !row.kind.value.Opaque?);
      if row.kind.value.QueueOperation? then
        if row.sessionId != Some(sessionId) then None
        else Some(next.(records := st.records + [Record(row, None)],
                        uncertainIds := st.uncertainIds + UncertainPart(row)))
      else if row.kind.value.Metadata? then Some(next.(records := st.records + [Record(row, None)]))
      else if row.sidechain == Some(true) then Some(next)
      else if row.uuid.None? || row.sessionId != Some(sessionId) || !row.absoluteCwd || row.sidechain != Some(false)
      then None
      else Speak(next, row)
  }

  function Verify(rows: seq<Row>, sessionId: string): Option<State> {
    if rows == [] then Some(Start)
    else
      match Verify(rows[..|rows| - 1], sessionId)
      case None => None
      case Some(st) => Accept(st, rows[|rows| - 1], sessionId)
  }

  lemma {:induction false} VerifySnoc(rows: seq<Row>, n: nat, sessionId: string)
    requires n < |rows|
    ensures Verify(rows[..n + 1], sessionId) ==
            match Verify(rows[..n], sessionId) case None => None case Some(st) => Accept(st, rows[n], sessionId)
  {
    assert rows[..n + 1][..n] == rows[..n];
  }

  lemma {:induction false} RefusalLasts(rows: seq<Row>, n: nat, sessionId: string)
    requires n <= |rows| && Verify(rows[..n], sessionId).None?
    ensures Verify(rows, sessionId).None?
    decreases |rows| - n
  {
    if n == |rows| {
      assert rows[..n] == rows;
    } else {
      VerifySnoc(rows, n, sessionId);
      RefusalLasts(rows, n + 1, sessionId);
    }
  }

  /** The loop itself; an accepted history without messages is refused. */
  method VerifiedChain(rows: seq<Row>, sessionId: string) returns (r: Option<State>)
    ensures r == match Verify(rows, sessionId)
                 case None => None
                 case Some(st) => if st.chain == [] then None else Some(st)
  {
    var chain: seq<string> := [];
    var seen: set<string> := {};
    var ancestry: map<string, Ancestor> := map[];
    var records: seq<Record> := [];
    var previousInput: Option<string> := None;
    var inputIds: set<string> := {};
    var uncertainIds: set<string> := {};
    var absenceProvable := true;
    var i := 0;
    while i < |rows|
      invariant 0 <= i <= |rows|
      invariant Verify(rows[..i], sessionId) ==
                Some(State(chain, seen, ancestry, records, previousInput, inputIds, uncertainIds, absenceProvable))
    {
      var row := rows[i];
      ghost var before, inputs := chain, inputIds;
      VerifySnoc(rows, i, sessionId);
      if Verify(rows[..i + 1], sessionId).None? {
        RefusalLasts(rows, i + 1, sessionId);
      }
      i := i + 1;
      if row.kind.None? {
        return None;
      }
      var kind := row.kind.value;
      if row.uuid.Some? {
        if !NativeUuid(row.uuid.value) || row.uuid.value in seen {
          return None;
        }
        seen := seen + {row.uuid.value};
      }
      if kind.Opaque? {
        absenceProvable := false;
      }
      if kind.QueueOperation? || kind.Metadata? {
        records := records + [Record(row, None)];
      }
      if kind.QueueOperation? {
        if row.sessionId != Some(sessionId) {
          return None;
        }
        if row.commandUuid.Some? && NativeUuid(row.commandUuid.value) {
          uncertainIds := uncertainIds + {row.commandUuid.value};
        }
        assert uncertainIds + {} == uncertainIds;
        continue;
      }
      if row.sidechain == Some(true) || kind.Metadata? {
        continue;
      }
      if row.uuid.None? || row.sessionId != Some(sessionId) || !row.absoluteCwd || row.sidechain != Some(false) {
        return None;
      }
      if row.parent.Malformed? || (row.parent.Named? && row.parent.id !in ancestry) {
        return None;
      }
      var above := if row.parent.Root? then Ancestor(None, None) else ancestry[row.parent.id];
      if kind.Input? && previousInput.Some? && above.inputId != previousInput {
        return None;
      }
      records := records + [Record(row, above.messageId)];
      ancestry := ancestry[row.uuid.value :=
        Ancestor(if kind.Input? then row.uuid else above.inputId,
                 if Conversational(row.role) then row.uuid else above.messageId)];
      if kind.Input? {
        previousInput := row.uuid;
      }
      if Conversational(row.role) {
        chain := chain + [row.uuid.value];
        if kind.Input? {
          inputIds := inputIds + {row.uuid.value};
        }
      }
      if row.role.Attachment? && kind.Input? {
        inputIds := inputIds + {row.sourceUuid};
        chain := chain + [row.sourceUuid];
      }
      assert chain == before + ChainPart(row) && inputIds == inputs + InputPart(row);
    }
    assert rows[..i] == rows;
    if chain == [] {
      return None;
    }
    return Some(State(chain, seen, ancestry, records, previousInput, inputIds, uncertainIds, absenceProvable));
  }
}
