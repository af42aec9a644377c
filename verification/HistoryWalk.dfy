/** The reference for native history ancestry: plain walks over parent links. */
module HistoryWalk {
  import opened Basics
  import opened HistoryIndex

  // ------------------------------------------------------------------ the reference walk

  predicate Matches(row: Row, id: string) {
    Spoken(row) && row.uuid == Some(id)
  }

  /** Linear search for the conversation row with this UUID; |rows| when there is none. */
  function Find(rows: seq<Row>, id: string): (r: nat)
    ensures r <= |rows|
    ensures r < |rows| ==> Matches(rows[r], id)
    ensures forall i :: 0 <= i < r ==> !Matches(rows[i], id)
  {
    if rows == [] then 0
    else
      var n := |rows| - 1;
      var r := Find(rows[..n], id);
      if r < n then r else if Matches(rows[n], id) then n else |rows|
  }

  /** Row indices from a row up to its root, or why there is no such path. */
  datatype Trail = Broken | Exhausted | Path(rows: seq<nat>)

  /** Follow parent links from row `i`, at most `fuel` rows. */
  function Ascend(rows: seq<Row>, i: nat, fuel: nat): Trail
    requires i < |rows|
    decreases fuel
  {
    if fuel == 0 then Exhausted
    else
      match rows[i].parent
      case Root => Path([i])
      case Malformed => Broken
      case Named(p) =>
        var j := Find(rows, p);
        if j == |rows| then Broken
        else
          match Ascend(rows, j, fuel - 1)
          case Path(rest) => Path([i] + rest)
          case other => other
  }

  predicate OnRows(rows: seq<Row>, path: seq<nat>) {
    forall k :: 0 <= k < |path| ==> path[k] < |rows|
  }

  function NearestInput(rows: seq<Row>, path: seq<nat>): Option<string>
    requires OnRows(rows, path)
  {
    if path == [] then None
    else if rows[path[0]].kind == Some(Input) then rows[path[0]].uuid
    else NearestInput(rows, path[1..])
  }

  function NearestMessage(rows: seq<Row>, path: seq<nat>): Option<string>
    requires OnRows(rows, path)
  {
    if path == [] then None
    else if Conversational(rows[path[0]].role) then rows[path[0]].uuid
    else NearestMessage(rows, path[1..])
  }

  /** The input rows along a path, nearest first. */
  function InputsOn(rows: seq<Row>, path: seq<nat>): seq<nat>
    requires OnRows(rows, path)
  {
    if path == [] then []
    else if rows[path[0]].kind == Some(Input) then [path[0]] + InputsOn(rows, path[1..])
    else InputsOn(rows, path[1..])
  }

  predicate InputRow(row: Row) {
    Spoken(row) && row.kind == Some(Input)
  }

  /** The input rows in file order. */
  function Inputs(rows: seq<Row>): (r: seq<nat>)
    ensures forall k :: 0 <= k < |r| ==> r[k] < |rows| && InputRow(rows[r[k]])
  {
    if rows == [] then []
    else
      var n := |rows| - 1;
      Inputs(rows[..n]) + if InputRow(rows[n]) then [n] else []
  }

  /** Row `i` is filed under its UUID, from the entry of a row before it. */
  predicate Placed(rows: seq<Row>, ancestry: map<string, Ancestor>, i: nat)
    requires i < |rows|
  {
    && rows[i].uuid.Some? && rows[i].uuid.value in ancestry && !rows[i].parent.Malformed?
    && (rows[i].parent.Named? ==> rows[i].parent.id in ancestry && Find(rows, rows[i].parent.id) < i)
    && ancestry[rows[i].uuid.value] == Nearest(rows[i], AncestorOf(ancestry, rows[i].parent))
  }

  predicate AllPlaced(rows: seq<Row>, ancestry: map<string, Ancestor>) {
    forall i :: 0 <= i < |rows| && Spoken(rows[i]) ==> Placed(rows, ancestry, i)
  }

  predicate Filed(rows: seq<Row>, st: State) {
    && (forall i :: 0 <= i < |rows| && rows[i].uuid.Some? ==> rows[i].uuid.value in st.seen)
    && (forall id <- st.ancestry :: id in st.seen && Find(rows, id) < |rows|)
    && (forall i, j :: 0 <= i < j < |rows| && rows[i].uuid.Some? ==> rows[i].uuid != rows[j].uuid)
  }

  predicate Extends(a: map<string, Ancestor>, b: map<string, Ancestor>) {
    forall id <- a :: id in b && b[id] == a[id]
  }

  predicate Descending(path: seq<nat>) {
    forall k, l :: 0 <= k < l < |path| ==> path[l] < path[k]
  }

  /** A well-formed path from row `i` and what the index must say about it. */
  predicate WalkOk(rows: seq<Row>, ancestry: map<string, Ancestor>, i: nat, path: seq<nat>) {
    && path != [] && path[0] == i && OnRows(rows, path) && Descending(path)
    && (forall k :: 0 <= k < |path| ==> Spoken(rows[path[k]]))
    && i < |rows| && rows[i].uuid.Some? && rows[i].uuid.value in ancestry
    && ancestry[rows[i].uuid.value] == Ancestor(NearestInput(rows, path), NearestMessage(rows, path))
  }

  predicate Recorded(row: Row) {
    row.kind.Some? && (Spoken(row) || row.kind.value.QueueOperation? || row.kind.value.Metadata?)
  }

  /** Every recorded row, in file order, with the nearest message above it. */
  function RecordsOf(rows: seq<Row>, ancestry: map<string, Ancestor>): seq<Record> {
    if rows == [] then []
    else
      var front, last := rows[..|rows| - 1], rows[|rows| - 1];
      RecordsOf(front, ancestry) +
      if !Recorded(last) then []
      else [Record(last, if Spoken(last) then AncestorOf(ancestry, last.parent).messageId else None)]
  }

  predicate LastInput(rows: seq<Row>, previous: Option<string>) {
    var inputs := Inputs(rows);
    previous == if inputs == [] then None else rows[inputs[|inputs| - 1]].uuid
  }

  /** Each input descends directly, among inputs, from the one before it in the file. */
  predicate Chained(rows: seq<Row>, ancestry: map<string, Ancestor>) {
    var inputs := Inputs(rows);
    forall k :: 0 < k < |inputs| ==>
      AncestorOf(ancestry, rows[inputs[k]].parent).inputId == rows[inputs[k - 1]].uuid
  }

  /** Inputs in file order are exactly the inputs met on the way up from the last of them. */
  predicate ReversedInputs(rows: seq<Row>, path: seq<nat>, j: nat) {
    && OnRows(rows, path) && j < |Inputs(rows)| && |InputsOn(rows, path)| == j + 1
    && (forall k :: 0 <= k <= j ==> InputsOn(rows, path)[k] == Inputs(rows)[j - k])
  }
}
