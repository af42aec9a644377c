/**
 Branching a Claude thread at a turn (forkAtTurn and its helpers in
 claude-bridge/controls.ts). The SDK's fork and the second history read are inputs.
 */
module Fork {
  import opened Basics
  import InputMessages
  import Outcome = HistoryOutcome

  datatype Role = User | Assistant | System

  /** `body` is the message payload; nested messages belong to a tool or an agent. */
  datatype Message = Message(uuid: string, role: Role, nested: bool, body: string)

  type History = seq<Message>

  datatype Status = InProgress | Uncertain | Completed | OtherStatus

  datatype Item = Item(user: bool, withdrawn: bool, nativeId: Option<string>, nativeIds: Option<seq<string>>)

  datatype Turn = Turn(id: string, status: Status, nativeSessionId: Option<string>, detached: bool,
                       nativeMessageId: Option<string>, items: seq<Item>, checkpoint: bool)

  datatype Session = Session(id: string, nativeId: Option<string>, started: bool, turns: seq<Turn>)

  // ------------------------------------------------------------------ positions

  function Ids(messages: History): (r: seq<string>)
    ensures |r| == |messages|
    ensures forall i :: 0 <= i < |r| ==> r[i] == messages[i].uuid
  {
    seq(|messages|, i requires 0 <= i < |messages| => messages[i].uuid)
  }

  function Positions(messages: History, ids: seq<string>): Option<seq<int>> {
    Outcome.Positions(Outcome.Index(Outcome.PositionMap(Ids(messages)), {}, {}, true), ids)
  }

  /** Index of the first user message of a turn, or the number of items. */
  function InitialItem(items: seq<Item>): (r: nat)
    ensures r <= |items|
    ensures r < |items| ==> items[r].user
    ensures forall k :: 0 <= k < r ==> !items[k].user
  {
    if items == [] then 0 else if items[0].user then 0 else 1 + InitialItem(items[1..])
  }

  /** The native UUIDs of the turn's first input; None when the boundary is unavailable. */
  function NativeParts(turn: Turn): (r: Option<seq<string>>)
    ensures r.Some? ==> r.value != []
  {
    var k := InitialItem(turn.items);
    var ids :=
      if k < |turn.items| && turn.items[k].nativeIds.Some?
      then InputMessages.NativeInputIds(turn.items[k].nativeIds, turn.items[k].nativeId)
      else if turn.nativeMessageId.Some? then Some([turn.nativeMessageId.value])
      else if k < |turn.items| && turn.items[k].nativeId.Some? then Some([turn.items[k].nativeId.value])
      else Some([turn.id]);
    if ids.Some? && turn.nativeMessageId.Some? && turn.nativeMessageId.value !in ids.value then None else ids
  }

  function PartPositions(turn: Turn, messages: History): (r: Option<seq<int>>)
    ensures r.Some? ==> NativeParts(turn).Some? && r == Positions(messages, NativeParts(turn).value)
  {
    match NativeParts(turn)
    case None => None
    case Some(parts) =>
      match Positions(messages, parts)
      case None => None
      case Some(found) =>
        if forall p <- found :: 0 <= p < |messages| && messages[p].role.User? && !messages[p].nested
        then Some(found) else None
  }

  function Last<T>(xs: seq<T>): T
    requires xs != []
  {
    xs[|xs| - 1]
  }

  /** Every turn's parts, each turn starting after the one before it ends. */
  function TurnPositions(turns: seq<Turn>, messages: History): (r: Option<seq<seq<int>>>)
    ensures r.Some? ==> |r.value| == |turns|
  {
    if turns == [] then Some([])
    else
      var n := |turns| - 1;
      match (TurnPositions(turns[..n], messages), PartPositions(turns[n], messages))
      case (Some(front), Some(parts)) =>
        if front != [] && (parts == [] || Last(front) == [] || parts[0] <= Last(Last(front))) then None
        else Some(front + [parts])
      case _ => None
  }

  // ------------------------------------------------------------------ remapping

  function RemapId(id: string, source: History, fork: History): Option<string> {
    match Positions(source, [id])
    case None => None
    case Some(found) =>
      if |found| == 1 && 0 <= found[0] < |fork| && fork[found[0]].uuid != "" then Some(fork[found[0]].uuid) else None
  }

  function RemapIds(ids: seq<string>, source: History, fork: History): (r: Option<seq<string>>)
    ensures r.Some? ==> |r.value| == |ids|
    ensures r.Some? ==> forall k :: 0 <= k < |ids| ==> RemapId(ids[k], source, fork) == Some(r.value[k])
  {
    if ids == [] then Some([])
    else
      match (RemapId(ids[0], source, fork), RemapIds(ids[1..], source, fork))
      case (Some(id), Some(rest)) => Some([id] + rest)
      case _ => None
  }

  /** The UUIDs an item owns; the initial item owns the turn's boundary. */
  function OwnIds(item: Item, initial: bool, parts: seq<string>): Option<seq<string>> {
    if initial then Some(parts)
    else if item.nativeId.None? then None
    else InputMessages.NativeInputIds(item.nativeIds, item.nativeId)
  }

  predicate Exempt(item: Item) {
    !item.user || item.withdrawn
  }

  function RemapItem(item: Item, initial: bool, parts: seq<string>, source: History, fork: History): Option<Item> {
    if Exempt(item) then Some(item)
    else
      match OwnIds(item, initial, parts)
      case None => None
      case Some(ids) =>
        match RemapIds(ids, source, fork)
        case None => None
        case Some(remapped) =>
          if remapped == [] then None
          else Some(item.(nativeId := Some(Last(remapped)),
                          nativeIds := if item.nativeIds.Some? then Some(remapped) else None))
  }

  predicate ItemsRemap(items: seq<Item>, parts: seq<string>, source: History, fork: History) {
    forall k :: 0 <= k < |items| ==> RemapItem(items[k], k == InitialItem(items), parts, source, fork).Some?
  }

  function RemappedItems(items: seq<Item>, parts: seq<string>, source: History, fork: History): (r: seq<Item>)
    requires ItemsRemap(items, parts, source, fork)
    ensures |r| == |items|
    ensures forall k :: 0 <= k < |items| ==>
              RemapItem(items[k], k == InitialItem(items), parts, source, fork) == Some(r[k])
  {
    seq(|items|, k requires 0 <= k < |items| =>
      RemapItem(items[k], k == InitialItem(items), parts, source, fork).value)
  }

  function RemapTurn(turn: Turn, source: History, fork: History): (r: Option<Turn>)
    ensures r.Some? ==> NativeParts(turn).Some? && PartPositions(turn, source).Some?
    ensures r.Some? ==> ItemsRemap(turn.items, NativeParts(turn).value, source, fork)
    ensures r.Some? ==> r.value.items == RemappedItems(turn.items, NativeParts(turn).value, source, fork)
  {
    match PartPositions(turn, source)
    case None => None
    case Some(found) =>
      var parts := NativeParts(turn).value;
      if found == [] || !(0 <= found[0] < |fork|) || !ItemsRemap(turn.items, parts, source, fork) then None
      else
        Some(turn.(nativeMessageId := Some(fork[found[0]].uuid),
                   items := RemappedItems(turn.items, parts, source, fork),
                   checkpoint := false))
  }

  /** A turn that is rewritten in place. */
  class TurnRecord {
    var turn: Turn

    constructor (value: Turn)
      ensures turn == value
    {
      turn := value;
    }

    /** Rewrites one item, unless it is exempt. */
    method RemapAt(k: nat, initial: bool, parts: seq<string>, source: History, fork: History) returns (ok: bool)
      requires k < |turn.items|
      modifies this
      ensures ok <==> RemapItem(old(turn).items[k], initial, parts, source, fork).Some?
      ensures !ok ==> turn == old(turn)
      ensures ok ==> turn == old(turn).(items := old(turn).items[k :=
                RemapItem(old(turn).items[k], initial, parts, source, fork).value])
    {
      var item := turn.items[k];
      if Exempt(item) {
        assert turn.items[k := item] == turn.items;
        return true;
      }
      var ids := OwnIds(item, initial, parts);
      if ids.None? {
        return false;
      }
      var remapped := RemapIds(ids.value, source, fork);
      if remapped.None? || remapped.value == [] {
        return false;
      }
      item := item.(nativeId := Some(Last(remapped.value)));
      if item.nativeIds.Some? {
        item := item.(nativeIds := Some(remapped.value));
      }
      turn := turn.(items := turn.items[k := item]);
      return true;
    }

    /** Fails exactly where the source throws; then the record is abandoned. */
    method Remap(source: History, fork: History) returns (ok: bool)
      modifies this
      ensures ok <==> RemapTurn(old(turn), source, fork).Some?
      ensures ok ==> turn == RemapTurn(old(turn), source, fork).value
    {
      var found := PartPositions(turn, source);
      if found.None? || found.value == [] || !(0 <= found.value[0] < |fork|) {
        return false;
      }
      var parts := NativeParts(turn).value;
      ghost var before := turn;
      turn := turn.(nativeMessageId := Some(fork[found.value[0]].uuid));
      var initial := InitialItem(turn.items);
      var k := 0;
      while k < |turn.items|
        invariant 0 <= k <= |turn.items| == |before.items|
        invariant turn == before.(nativeMessageId := Some(fork[found.value[0]].uuid), items := turn.items)
        invariant turn.items[k..] == before.items[k..]
        invariant forall l :: 0 <= l < k ==>
                    RemapItem(before.items[l], l == initial, parts, source, fork) == Some(turn.items[l])
      {
        assert turn.items[k] == turn.items[k..][0] == before.items[k];
        var done := RemapAt(k, k == initial, parts, source, fork);
        if !done {
          return false;
        }
        k := k + 1;
      }
      turn := turn.(checkpoint := false);
      assert turn.items == RemappedItems(before.items, parts, source, fork);
      return true;
    }
  }

  // ------------------------------------------------------------------ the fork

  predicate Native(turn: Turn, nativeId: string) {
    !turn.detached && (turn.nativeSessionId.None? || turn.nativeSessionId == Some(nativeId))
  }

  function NativeTurns(turns: seq<Turn>, nativeId: string): seq<Turn> {
    if turns == [] then []
    else NativeTurns(turns[..|turns| - 1], nativeId) + if Native(Last(turns), nativeId) then [Last(turns)] else []
  }

  /** findIndex by turn id; |turns| when there is none. */
  function FindTurn(turns: seq<Turn>, id: string): (r: nat)
    ensures r <= |turns|
    ensures r < |turns| ==> turns[r].id == id
    ensures forall k :: 0 <= k < r ==> turns[k].id != id
  {
    if turns == [] then 0 else if turns[0].id == id then 0 else 1 + FindTurn(turns[1..], id)
  }

  /** A retained turn in the target thread; turns of earlier native sessions stay as they are. */
  function Retain(turn: Turn, nativeId: string, target: string, source: History, fork: History): Option<Turn> {
    if !Native(turn, nativeId) then Some(turn)
    else
      match RemapTurn(turn, source, fork)
      case None => None
      case Some(remapped) => Some(remapped.(nativeSessionId := Some(target)))
  }

  function RetainAll(turns: seq<Turn>, nativeId: string, target: string, source: History, fork: History)
    : (r: Option<seq<Turn>>)
    ensures r.Some? ==> |r.value| == |turns|
    ensures r.Some? ==>
              forall k :: 0 <= k < |turns| ==> Retain(turns[k], nativeId, target, source, fork) == Some(r.value[k])
  {
    if turns == [] then Some([])
    else
      match (Retain(turns[0], nativeId, target, source, fork), RetainAll(turns[1..], nativeId, target, source, fork))
      case (Some(turn), Some(rest)) => Some([turn] + rest)
      case _ => None
  }

  predicate Comparable(a: Message, b: Message) {
    a.role == b.role && a.body == b.body
  }

  function NativeIdOf(session: Session): string {
    if session.nativeId.Some? then session.nativeId.value else session.id
  }

  /** Index of the selected turn; |turns| when it does not exist. */
  function Selected(session: Session, lastTurnId: Option<string>): nat {
    match lastTurnId
    case Some(id) => FindTurn(session.turns, id)
    case None => if session.turns == [] then 0 else |session.turns| - 1
  }

  predicate Branchable(session: Session, selected: nat) {
    && selected < |session.turns| && session.turns[selected].status.Completed?
    && (forall turn <- session.turns[..selected + 1] :: !turn.status.InProgress? && !turn.status.Uncertain?)
  }

  /** Turns up to the one after the selected turn, whose positions must be known. */
  function CheckedTurns(turns: seq<Turn>, at: nat): seq<Turn> {
    if at + 2 <= |turns| then turns[..at + 2] else turns
  }

  /** The first position of the turn after the selected one, or the end of the history. */
  function EndOf(positions: seq<seq<int>>, at: nat, messages: History): int {
    if at + 1 < |positions| then if positions[at + 1] == [] then -1 else positions[at + 1][0] else |messages|
  }

  predicate EndsBefore(positions: seq<seq<int>>, kept: nat, end: int) {
    forall i :: 0 <= i < kept && i < |positions| ==> positions[i] != [] && Last(positions[i]) < end
  }

  function CutAt(turns: seq<Turn>, at: nat, kept: nat, messages: History): Option<nat> {
    match TurnPositions(CheckedTurns(turns, at), messages)
    case None => None
    case Some(positions) =>
      var end := EndOf(positions, at, messages);
      if end < 1 || !EndsBefore(positions, kept, end) then None else Some(end)
  }

  function Retained(session: Session, lastTurnId: Option<string>): seq<Turn> {
    var selected := Selected(session, lastTurnId);
    if selected < |session.turns| then session.turns[..selected + 1] else session.turns
  }

  /** The retained turns of the current native session. */
  function KeptTurns(session: Session, lastTurnId: Option<string>): seq<Turn> {
    NativeTurns(Retained(session, lastTurnId), NativeIdOf(session))
  }

  /** Every retained turn can be remapped, tried on the source history itself. */
  predicate Preflight(session: Session, lastTurnId: Option<string>, messages: History) {
    RetainAll(Retained(session, lastTurnId), NativeIdOf(session), NativeIdOf(session), messages, messages).Some?
  }

  /** Where the fork must end, once every check before the SDK call passed. */
  function Cut(session: Session, lastTurnId: Option<string>, messages: History): Option<nat> {
    var selected := Selected(session, lastTurnId);
    var nativeId := NativeIdOf(session);
    if !Branchable(session, selected) then None
    else
      var turns := NativeTurns(session.turns, nativeId);
      var at := FindTurn(turns, session.turns[selected].id);
      if at == |turns| || !Preflight(session, lastTurnId, messages) then None
      else CutAt(turns, at, |KeptTurns(session, lastTurnId)|, messages)
  }

  /**
   The turns of a fork of a session with history, given the SDK's fork receipt and
   the history it then reads back. None where the source throws.
   */
  function ForkAtTurn(session: Session, lastTurnId: Option<string>, messages: History,
                      receipt: Option<string>, fork: History): Option<seq<Turn>> {
    match Cut(session, lastTurnId, messages)
    case None => None
    case Some(end) =>
      if receipt.None? || receipt.value == "" || receipt.value == NativeIdOf(session) then None
      else if |fork| != end || !(forall i :: 0 <= i < end ==>
          i < |messages| && Comparable(messages[i], fork[i])) then None
      else
        RetainAll(Retained(session, lastTurnId), NativeIdOf(session), receipt.value, messages, fork)
  }

  // ------------------------------------------------------------------ what a fork must keep

  /** Every position lies before `cut`, and positions rise within and across turns. */
  predicate Increasing(positions: seq<seq<int>>, cut: int) {
    && (forall i :: 0 <= i < |positions| ==> positions[i] != [])
    && (forall i, a :: 0 <= i < |positions| && 0 <= a < |positions[i]| ==> 0 <= positions[i][a] < cut)
    && (forall i, a, b :: 0 <= i < |positions| && 0 <= a < b < |positions[i]| ==> positions[i][a] < positions[i][b])
    && (forall i, j, a, b :: 0 <= i < j < |positions| && 0 <= a < |positions[i]| && 0 <= b < |positions[j]| ==>
          positions[i][a] < positions[j][b])
  }

  function ItemIds(item: Item): Option<seq<string>> {
    InputMessages.NativeInputIds(item.nativeIds, item.nativeId)
  }

  /** A withdrawn composite input keeps its old UUIDs, which the fork need not contain. */
  predicate StaleBoundary(turn: Turn) {
    var k := InitialItem(turn.items);
    k < |turn.items| && turn.items[k].withdrawn && turn.items[k].nativeIds.Some?
  }

  predicate UniqueIds(messages: History) {
    forall i, j :: 0 <= i < j < |messages| ==> messages[i].uuid != messages[j].uuid
  }

  /** Position of the only occurrence of a UUID, or -1. */
  function Where(messages: History, id: string): int {
    Outcome.PositionOf(Outcome.Index(Outcome.PositionMap(Ids(messages)), {}, {}, true), id)
  }

  /** `positions` are those of the turns' first inputs, all before `cut` and in order. */
  predicate LieBefore(turns: seq<Turn>, messages: History, positions: seq<seq<int>>, cut: int) {
    && |positions| == |turns| && Increasing(positions, cut)
    && (forall i :: 0 <= i < |turns| ==> PartPositions(turns[i], messages) == Some(positions[i]))
  }

  /** No composite id list and no boundary changed, and later inputs not at all. */
  predicate SameInputs(before: Turn, after: Turn) {
    && |after.items| == |before.items| && NativeParts(after) == NativeParts(before)
    && (forall k :: 0 <= k < |before.items| && k != InitialItem(before.items) ==> after.items[k] == before.items[k])
    && (forall k :: 0 <= k < |before.items| ==> after.items[k].nativeIds == before.items[k].nativeIds)
  }

  /** What a retained turn becomes in the new thread. */
  predicate Branches(before: Turn, after: Turn, nativeId: string, target: Option<string>, source: History,
                     fork: History) {
    if Native(before, nativeId) then SitsAlike(before, after, source, fork) && after.nativeSessionId == target
    else after == before
  }

  /** The turn's boundary is found at the same positions of both histories. */
  predicate BoundarySits(before: Turn, after: Turn, source: History, fork: History) {
    && NativeParts(before).Some? && NativeParts(after).Some?
    && Positions(fork, NativeParts(after).value) == Positions(source, NativeParts(before).value)
  }

  /** The fork has every part of the boundary under its old UUID. */
  predicate KeepsUuids(turn: Turn, source: History, fork: History)
    requires PartPositions(turn, source).Some?
  {
    var parts, at := NativeParts(turn).value, PartPositions(turn, source).value;
    |at| == |parts| && forall i :: 0 <= i < |at| ==> 0 <= at[i] < |fork| && fork[at[i]].uuid == parts[i]
  }

  /** The boundary sits alike unless it is stale and got new UUIDs, and every later retained input does. */
  predicate SitsAlike(before: Turn, after: Turn, source: History, fork: History) {
    && |after.items| == |before.items| && PartPositions(before, source).Some?
    && (BoundarySits(before, after, source, fork) <==> !StaleBoundary(before) || KeepsUuids(before, source, fork))
    && (forall i :: 0 <= i < |before.items| && i != InitialItem(before.items) && !Exempt(before.items[i]) ==>
          && ItemIds(before.items[i]).Some? && ItemIds(after.items[i]).Some?
          && Positions(fork, ItemIds(after.items[i]).value) == Positions(source, ItemIds(before.items[i]).value))
  }

  /** The message at the id's place in the source has a UUID in the fork. */
  predicate HasPlace(id: string, source: History, fork: History) {
    0 <= Where(source, id) < |fork| && fork[Where(source, id)].uuid != ""
  }

  /** Every input of the turn that is not withdrawn has its place in the fork. */
  predicate TurnHasPlace(turn: Turn, source: History, fork: History) {
    NativeParts(turn).Some? &&
    forall k :: 0 <= k < |turn.items| && !Exempt(turn.items[k]) ==>
      var ids := OwnIds(turn.items[k], k == InitialItem(turn.items), NativeParts(turn).value);
      ids.Some? && forall id <- ids.value :: HasPlace(id, source, fork)
  }

  /** The SDK's fork is usable: a new session that holds the history up to the cut. */
  predicate Copies(messages: History, fork: History, end: nat, receipt: Option<string>, nativeId: string) {
    && receipt.Some? && receipt.value != "" && receipt.value != nativeId
    && |fork| == end <= |messages| && (forall i :: 0 <= i < end ==> Comparable(messages[i], fork[i]))
  }
}

/** What a successful fork guarantees. */
module ForkTheorems {
  import opened Basics
  import InputMessages
  import Outcome = HistoryOutcome
  import Scan = HistoryOutcomeTheorems
  import opened Fork

  // ------------------------------------------------------------------ positions

  lemma {:induction false} PositionsScan(messages: History, ids: seq<string>)
    ensures Positions(messages, ids).Some? <==> Outcome.InOrder(Ids(messages), ids)
    ensures Positions(messages, ids).Some? ==> Outcome.InOrderAt(Ids(messages), ids, Positions(messages, ids).value)
  {
    Scan.PositionsAreTheScan(Ids(messages), Outcome.Index(Outcome.PositionMap(Ids(messages)), {}, {}, true), ids);
  }

  lemma {:induction false} PartsRise(turn: Turn, messages: History)
    requires PartPositions(turn, messages).Some?
    ensures Increasing([PartPositions(turn, messages).value], |messages|)
  {
    var parts := NativeParts(turn).value;
    PositionsScan(messages, parts);
    var at := PartPositions(turn, messages).value;
    forall a | 0 <= a < |at|
      ensures 0 <= at[a] < |messages|
    {
      assert Outcome.OnceAt(Ids(messages), parts[a], at[a]);
    }
  }

  lemma {:induction false} RiseJoins(front: seq<seq<int>>, parts: seq<int>, cut: int)
    requires Increasing(front, cut) && Increasing([parts], cut)
    requires parts != [] && (front != [] ==> parts[0] > Last(Last(front)))
    ensures Increasing(front + [parts], cut)
  {
    var all := front + [parts];
    assert [parts][0] == parts;
    forall i, j, a, b | 0 <= i < j < |all| && 0 <= a < |all[i]| && 0 <= b < |all[j]|
      ensures all[i][a] < all[j][b]
    {
      if j == |front| {
        var n := |front| - 1;
        assert front[i][a] <= Last(front[n]);
        assert parts[0] <= parts[b];
      }
    }
  }

  lemma {:induction false} TurnsRise(turns: seq<Turn>, messages: History)
    requires TurnPositions(turns, messages).Some?
    ensures Increasing(TurnPositions(turns, messages).value, |messages|)
  {
    if turns != [] {
      var n := |turns| - 1;
      TurnsRise(turns[..n], messages);
      PartsRise(turns[n], messages);
      RiseJoins(TurnPositions(turns[..n], messages).value, PartPositions(turns[n], messages).value, |messages|);
    }
  }

  lemma {:induction false} TurnParts(turns: seq<Turn>, messages: History)
    requires TurnPositions(turns, messages).Some?
    ensures forall i :: 0 <= i < |turns| ==>
              PartPositions(turns[i], messages) == Some(TurnPositions(turns, messages).value[i])
  {
    if turns != [] {
      TurnParts(turns[..|turns| - 1], messages);
    }
  }

  // ------------------------------------------------------------------ the cut

  lemma {:induction false} NativePrefix(turns: seq<Turn>, m: nat, nativeId: string)
    requires m <= |turns|
    ensures NativeTurns(turns[..m], nativeId) <= NativeTurns(turns, nativeId)
    decreases |turns| - m
  {
    if m == |turns| {
      assert turns[..m] == turns;
    } else {
      assert turns[..m + 1][..m] == turns[..m];
      NativePrefix(turns, m + 1, nativeId);
    }
  }

  /** No turn after the selected one is retained. */
  lemma {:induction false} CutCovers(positions: seq<seq<int>>, kept: nat, at: nat, total: int, messages: History)
    requires Increasing(positions, total) && EndsBefore(positions, kept, EndOf(positions, at, messages))
    requires at + 1 < |positions|
    ensures kept <= at + 1
  {
    var next := positions[at + 1];
    assert next[0] <= Last(next);
  }

  lemma {:induction false} BeforeCut(positions: seq<seq<int>>, kept: nat, total: int, end: int)
    requires Increasing(positions, total) && kept <= |positions| && EndsBefore(positions, kept, end)
    ensures Increasing(positions[..kept], end)
  {
    forall i, a | 0 <= i < kept && 0 <= a < |positions[i]|
      ensures 0 <= positions[i][a] < end
    {
      assert positions[i][a] <= Last(positions[i]);
    }
  }

  lemma {:induction false} CutOrders(turns: seq<Turn>, at: nat, kept: nat, messages: History)
    returns (positions: seq<seq<int>>)
    requires at < |turns| && kept <= |turns| && CutAt(turns, at, kept, messages).Some?
    ensures |positions| == kept <= at + 1 && Increasing(positions, CutAt(turns, at, kept, messages).value)
    ensures forall i :: 0 <= i < kept ==> PartPositions(turns[i], messages) == Some(positions[i])
  {
    var checked := CheckedTurns(turns, at);
    var all := TurnPositions(checked, messages).value;
    TurnsRise(checked, messages);
    TurnParts(checked, messages);
    if at + 1 < |turns| {
      CutCovers(all, kept, at, |messages|, messages);
    }
    BeforeCut(all, kept, |messages|, EndOf(all, at, messages));
    positions := all[..kept];
  }

  /**
   When every check before the SDK call passed, the first inputs of all retained turns
   lie strictly before the cut, in strictly increasing order within and across turns.
   */
  lemma {:induction false} RetainedLieBeforeTheCut(session: Session, lastTurnId: Option<string>, messages: History)
    returns (positions: seq<seq<int>>)
    requires Cut(session, lastTurnId, messages).Some?
    ensures LieBefore(KeptTurns(session, lastTurnId), messages, positions, Cut(session, lastTurnId, messages).value)
  {
    var turns, at := CutChecks(session, lastTurnId, messages);
    positions := CutOrders(turns, at, |KeptTurns(session, lastTurnId)|, messages);
  }

  lemma {:induction false} CutChecks(session: Session, lastTurnId: Option<string>, messages: History)
    returns (turns: seq<Turn>, at: nat)
    requires Cut(session, lastTurnId, messages).Some?
    ensures at < |turns| && KeptTurns(session, lastTurnId) <= turns
    ensures Cut(session, lastTurnId, messages) == CutAt(turns, at, |KeptTurns(session, lastTurnId)|, messages)
  {
    var selected := Selected(session, lastTurnId);
    turns := NativeTurns(session.turns, NativeIdOf(session));
    at := FindTurn(turns, session.turns[selected].id);
    KeptPrefix(session, lastTurnId);
  }

  lemma {:induction false} KeptPrefix(session: Session, lastTurnId: Option<string>)
    requires Selected(session, lastTurnId) < |session.turns|
    ensures KeptTurns(session, lastTurnId) <= NativeTurns(session.turns, NativeIdOf(session))
  {
    NativePrefix(session.turns, Selected(session, lastTurnId) + 1, NativeIdOf(session));
  }

  // ------------------------------------------------------------------ remapping

  lemma {:induction false} WhereUnique(messages: History, p: nat)
    requires UniqueIds(messages) && p < |messages|
    ensures Where(messages, messages[p].uuid) == p
  {
    assert Outcome.OnceAt(Ids(messages), messages[p].uuid, p);
    Scan.OnceIsFound(Ids(messages), messages[p].uuid, p);
  }

  lemma {:induction false} WhereFound(messages: History, id: string)
    requires Where(messages, id) >= 0
    ensures Where(messages, id) < |messages| && messages[Where(messages, id)].uuid == id
  {
    Scan.MapIsScan(Ids(messages), id);
  }

  lemma {:induction false} RemapIdPlace(id: string, source: History, fork: History)
    requires UniqueIds(fork) && RemapId(id, source, fork).Some?
    ensures Where(fork, RemapId(id, source, fork).value) == Where(source, id) >= 0
  {
    var at := Positions(source, [id]).value;
    assert at[0] == Where(source, id);
    WhereUnique(fork, at[0]);
  }

  /** Renaming through a prefix with unique UUIDs keeps every position and every gap. */
  lemma {:induction false} RemapIdsPlace(ids: seq<string>, source: History, fork: History)
    requires UniqueIds(fork) && RemapIds(ids, source, fork).Some?
    ensures var to := RemapIds(ids, source, fork).value;
            && (forall k :: 0 <= k < |ids| ==> Where(fork, to[k]) == Where(source, ids[k]) >= 0)
            && Positions(fork, to) == Positions(source, ids)
            && (InputMessages.Distinct(ids) ==> InputMessages.Distinct(to))
  {
    var to := RemapIds(ids, source, fork).value;
    forall k | 0 <= k < |ids|
      ensures Where(fork, to[k]) == Where(source, ids[k]) >= 0
    {
      RemapIdPlace(ids[k], source, fork);
    }
    forall i, j | 0 <= i < j < |ids| && ids[i] != ids[j]
      ensures to[i] != to[j]
    {
      WhereFound(source, ids[i]);
      WhereFound(source, ids[j]);
    }
    SamePlaces(ids, to, source, fork);
  }

  lemma {:induction false} SamePlaces(ids: seq<string>, to: seq<string>, source: History, fork: History)
    requires |ids| == |to| && forall k :: 0 <= k < |ids| ==> Where(fork, to[k]) == Where(source, ids[k])
    ensures Positions(fork, to) == Positions(source, ids)
  {
    var a := Outcome.Index(Outcome.PositionMap(Ids(source)), {}, {}, true);
    var b := Outcome.Index(Outcome.PositionMap(Ids(fork)), {}, {}, true);
    assert forall k :: 0 <= k < |ids| ==> Outcome.PositionOf(b, to[k]) == Outcome.PositionOf(a, ids[k]);
    assert Outcome.Rising(a, ids) <==> Outcome.Rising(b, to);
    if Outcome.Rising(a, ids) {
      assert Positions(fork, to).value == Positions(source, ids).value;
    }
  }

  lemma {:induction false} ItemKeepsPlaces(item: Item, parts: seq<string>, source: History, fork: History)
    requires UniqueIds(fork) && !Exempt(item) && RemapItem(item, false, parts, source, fork).Some?
    ensures var after := RemapItem(item, false, parts, source, fork).value;
            && ItemIds(item).Some? && ItemIds(after).Some?
            && Positions(fork, ItemIds(after).value) == Positions(source, ItemIds(item).value)
  {
    var ids := OwnIds(item, false, parts).value;
    RemapIdsPlace(ids, source, fork);
    var to := RemapIds(ids, source, fork).value;
    var after := RemapItem(item, false, parts, source, fork).value;
    if item.nativeIds.None? {
      assert to == [to[0]];
    }
    assert ItemIds(item) == Some(ids) && ItemIds(after) == Some(to);
  }

  /** A retained later input is found at the same positions of the fork as before. */
  lemma {:induction false} RemapKeepsInputs(turn: Turn, source: History, fork: History, k: nat)
    requires UniqueIds(fork) && RemapTurn(turn, source, fork).Some?
    requires k < |turn.items| && k != InitialItem(turn.items) && !Exempt(turn.items[k])
    ensures var after := RemapTurn(turn, source, fork).value.items[k];
            && ItemIds(turn.items[k]).Some? && ItemIds(after).Some?
            && Positions(fork, ItemIds(after).value) == Positions(source, ItemIds(turn.items[k]).value)
  {
    ItemKeepsPlaces(turn.items[k], NativeParts(turn).value, source, fork);
  }

  lemma {:induction false} InitialStays(turn: Turn, source: History, fork: History)
    requires RemapTurn(turn, source, fork).Some?
    ensures InitialItem(RemapTurn(turn, source, fork).value.items) == InitialItem(turn.items)
  {
    var items := RemapTurn(turn, source, fork).value.items;
    assert forall k :: 0 <= k < |items| ==> items[k].user == turn.items[k].user;
  }

  /** The boundary's new UUIDs are found where the old ones were. */
  predicate SamePlacedParts(turn: Turn, after: Turn, source: History, fork: History) {
    && NativeParts(turn).Some? && NativeParts(after).Some? && |NativeParts(after).value| == |NativeParts(turn).value|
    && (forall i :: 0 <= i < |NativeParts(turn).value| ==>
          Where(fork, NativeParts(after).value[i]) == Where(source, NativeParts(turn).value[i]))
  }

  lemma {:induction false} FirstPlace(turn: Turn, source: History, fork: History)
    requires UniqueIds(fork) && RemapTurn(turn, source, fork).Some?
    ensures var first := PartPositions(turn, source).value[0];
            && 0 <= first < |fork| && first == Where(source, NativeParts(turn).value[0])
            && Where(fork, fork[first].uuid) == first
  {
    WhereUnique(fork, PartPositions(turn, source).value[0]);
  }

  lemma {:induction false} CompositeBoundary(turn: Turn, source: History, fork: History)
    requires UniqueIds(fork) && RemapTurn(turn, source, fork).Some?
    requires var k := InitialItem(turn.items);
             k < |turn.items| && !turn.items[k].withdrawn && turn.items[k].nativeIds.Some?
    ensures SamePlacedParts(turn, RemapTurn(turn, source, fork).value, source, fork)
  {
    var parts := NativeParts(turn).value;
    var remapped := RemapTurn(turn, source, fork).value;
    InitialStays(turn, source, fork);
    FirstPlace(turn, source, fork);
    RemapIdsPlace(parts, source, fork);
    var to := RemapIds(parts, source, fork).value;
    WhereFound(fork, to[0]);
    assert to[0] in to && remapped.nativeMessageId == Some(to[0]);
    assert NativeParts(remapped) == Some(to);
  }

  lemma {:induction false} BoundaryIds(turn: Turn, source: History, fork: History)
    requires UniqueIds(fork) && RemapTurn(turn, source, fork).Some? && !StaleBoundary(turn)
    ensures SamePlacedParts(turn, RemapTurn(turn, source, fork).value, source, fork)
  {
    var k := InitialItem(turn.items);
    if k < |turn.items| && turn.items[k].nativeIds.Some? {
      CompositeBoundary(turn, source, fork);
    } else {
      InitialStays(turn, source, fork);
      FirstPlace(turn, source, fork);
      assert NativeParts(RemapTurn(turn, source, fork).value)
          == Some([fork[PartPositions(turn, source).value[0]].uuid]);
    }
  }

  /** The turn's boundary sits at the same positions of the fork as before. */
  lemma {:induction false} RemapKeepsBoundary(turn: Turn, source: History, fork: History)
    requires UniqueIds(fork) && RemapTurn(turn, source, fork).Some? && !StaleBoundary(turn)
    ensures NativeParts(RemapTurn(turn, source, fork).value).Some?
    ensures Positions(fork, NativeParts(RemapTurn(turn, source, fork).value).value)
            == Positions(source, NativeParts(turn).value)
  {
    BoundaryIds(turn, source, fork);
    SamePlaces(NativeParts(turn).value, NativeParts(RemapTurn(turn, source, fork).value).value, source, fork);
  }

  /** A stale boundary is readable exactly when the fork reuses one of its UUIDs, and is then unchanged. */
  lemma {:induction false} StaleBoundaryIsLost(turn: Turn, source: History, fork: History)
    requires RemapTurn(turn, source, fork).Some? && StaleBoundary(turn)
    ensures 0 <= PartPositions(turn, source).value[0] < |fork|
    ensures NativeParts(RemapTurn(turn, source, fork).value).Some? <==>
            fork[PartPositions(turn, source).value[0]].uuid in NativeParts(turn).value
    ensures NativeParts(RemapTurn(turn, source, fork).value).Some? ==>
              NativeParts(RemapTurn(turn, source, fork).value) == NativeParts(turn)
  {
    InitialStays(turn, source, fork);
  }

  lemma {:induction false} KeptUuidsSit(turn: Turn, source: History, fork: History)
    requires UniqueIds(fork) && PartPositions(turn, source).Some? && KeepsUuids(turn, source, fork)
    ensures Positions(fork, NativeParts(turn).value) == Positions(source, NativeParts(turn).value)
  {
    var parts, at := NativeParts(turn).value, PartPositions(turn, source).value;
    forall i | 0 <= i < |parts|
      ensures Where(fork, parts[i]) == Where(source, parts[i])
    {
      WhereUnique(fork, at[i]);
      assert at[i] == Where(source, parts[i]);
    }
    SamePlaces(parts, parts, source, fork);
  }

  lemma {:induction false} SittingKeepsUuids(turn: Turn, source: History, fork: History)
    requires PartPositions(turn, source).Some?
    requires Positions(fork, NativeParts(turn).value) == Positions(source, NativeParts(turn).value)
    ensures KeepsUuids(turn, source, fork)
  {
    var parts, at := NativeParts(turn).value, PartPositions(turn, source).value;
    PositionsScan(fork, parts);
    forall i | 0 <= i < |at|
      ensures 0 <= at[i] < |fork| && fork[at[i]].uuid == parts[i]
    {
      assert Outcome.OnceAt(Ids(fork), parts[i], at[i]);
    }
  }

  /** The boundary keeps its positions exactly when it is not stale, or the fork kept all of its UUIDs. */
  lemma {:induction false} BoundarySitsExactly(turn: Turn, source: History, fork: History)
    requires UniqueIds(fork) && RemapTurn(turn, source, fork).Some?
    ensures BoundarySits(turn, RemapTurn(turn, source, fork).value, source, fork) <==>
            !StaleBoundary(turn) || KeepsUuids(turn, source, fork)
  {
    if !StaleBoundary(turn) {
      RemapKeepsBoundary(turn, source, fork);
    } else {
      StaleBoundaryIsLost(turn, source, fork);
      if KeepsUuids(turn, source, fork) {
        KeptUuidsSit(turn, source, fork);
        assert NativeParts(turn).value[0] in NativeParts(turn).value;
      } else if BoundarySits(turn, RemapTurn(turn, source, fork).value, source, fork) {
        SittingKeepsUuids(turn, source, fork);
      }
    }
  }

  lemma {:induction false} RemapSitsAlike(turn: Turn, source: History, fork: History)
    requires UniqueIds(fork) && RemapTurn(turn, source, fork).Some?
    ensures SitsAlike(turn, RemapTurn(turn, source, fork).value, source, fork)
  {
    BoundarySitsExactly(turn, source, fork);
    var after := RemapTurn(turn, source, fork).value;
    forall i | 0 <= i < |turn.items| && i != InitialItem(turn.items) && !Exempt(turn.items[i])
      ensures ItemIds(turn.items[i]).Some? && ItemIds(after.items[i]).Some?
      ensures Positions(fork, ItemIds(after.items[i]).value) == Positions(source, ItemIds(turn.items[i]).value)
    {
      RemapKeepsInputs(turn, source, fork, i);
    }
  }

  lemma {:induction false} RetainSitsAlike(turn: Turn, nativeId: string, target: string, source: History, fork: History)
    requires UniqueIds(fork) && Native(turn, nativeId) && Retain(turn, nativeId, target, source, fork).Some?
    ensures SitsAlike(turn, Retain(turn, nativeId, target, source, fork).value, source, fork)
    ensures Retain(turn, nativeId, target, source, fork).value.nativeSessionId == Some(target)
  {
    RemapSitsAlike(turn, source, fork);
    var remapped := RemapTurn(turn, source, fork).value;
    assert NativeParts(remapped.(nativeSessionId := Some(target))) == NativeParts(remapped);
  }

  /** In the new thread every retained input of the native session sits where it sat in the old one. */
  lemma {:induction false} ForkKeepsPositions(session: Session, lastTurnId: Option<string>, messages: History,
                                              receipt: Option<string>, fork: History, k: nat)
    requires ForkAtTurn(session, lastTurnId, messages, receipt, fork).Some? && UniqueIds(fork)
    requires k < |Retained(session, lastTurnId)|
    ensures |ForkAtTurn(session, lastTurnId, messages, receipt, fork).value| == |Retained(session, lastTurnId)|
    ensures Branches(Retained(session, lastTurnId)[k],
                     ForkAtTurn(session, lastTurnId, messages, receipt, fork).value[k],
                     NativeIdOf(session), receipt, messages, fork)
  {
    ForkRetains(session, lastTurnId, messages, receipt, fork);
    if Native(Retained(session, lastTurnId)[k], NativeIdOf(session)) {
      RetainSitsAlike(Retained(session, lastTurnId)[k], NativeIdOf(session), receipt.value, messages, fork);
    }
  }

  lemma {:induction false} ForkRetains(session: Session, lastTurnId: Option<string>, messages: History,
                                       receipt: Option<string>, fork: History)
    requires ForkAtTurn(session, lastTurnId, messages, receipt, fork).Some?
    ensures receipt.Some?
    ensures ForkAtTurn(session, lastTurnId, messages, receipt, fork)
            == RetainAll(Retained(session, lastTurnId), NativeIdOf(session), receipt.value, messages, fork)
  {
  }

  // ------------------------------------------------------------------ the preflight

  lemma {:induction false} RemapIdSame(id: string, source: History)
    requires RemapId(id, source, source).Some?
    ensures RemapId(id, source, source) == Some(id)
  {
    assert Positions(source, [id]).value[0] == Where(source, id);
    WhereFound(source, id);
  }

  lemma {:induction false} RemapIdsSame(ids: seq<string>, source: History)
    requires RemapIds(ids, source, source).Some?
    ensures RemapIds(ids, source, source) == Some(ids)
  {
    if ids != [] {
      RemapIdSame(ids[0], source);
      RemapIdsSame(ids[1..], source);
      assert [ids[0]] + ids[1..] == ids;
    }
  }

  /** Remapping onto the same history changes no later input and keeps the turn's boundary. */
  lemma {:induction false} RemapOntoItself(turn: Turn, source: History)
    requires RemapTurn(turn, source, source).Some?
    ensures SameInputs(turn, RemapTurn(turn, source, source).value)
  {
    var after := RemapTurn(turn, source, source).value;
    var parts := NativeParts(turn).value;
    forall k | 0 <= k < |turn.items|
      ensures k != InitialItem(turn.items) ==> after.items[k] == turn.items[k]
      ensures after.items[k].nativeIds == turn.items[k].nativeIds
      ensures k == InitialItem(turn.items) && !Exempt(turn.items[k]) ==> after.items[k].nativeId == Some(Last(parts))
    {
      ItemOntoItself(turn.items[k], k == InitialItem(turn.items), parts, source);
    }
    BoundaryOntoItself(turn, source);
  }

  lemma {:induction false} ItemOntoItself(item: Item, initial: bool, parts: seq<string>, source: History)
    requires RemapItem(item, initial, parts, source, source).Some?
    requires initial && item.nativeIds.Some? ==> ItemIds(item) == Some(parts)
    ensures var after := RemapItem(item, initial, parts, source, source).value;
            && after.nativeIds == item.nativeIds
            && (!initial ==> after == item)
            && (initial && !Exempt(item) ==> after.nativeId == Some(Last(parts)))
  {
    if !Exempt(item) {
      RemapIdsSame(OwnIds(item, initial, parts).value, source);
    }
  }

  lemma {:induction false} BoundaryOntoItself(turn: Turn, source: History)
    requires RemapTurn(turn, source, source).Some?
    ensures NativeParts(RemapTurn(turn, source, source).value) == NativeParts(turn)
  {
    var after := RemapTurn(turn, source, source).value;
    var parts := NativeParts(turn).value;
    var k := InitialItem(turn.items);
    InitialStays(turn, source, source);
    var first := PartPositions(turn, source).value[0];
    assert first == Where(source, parts[0]);
    WhereFound(source, parts[0]);
    assert after.nativeMessageId == Some(parts[0]);
    if k < |turn.items| && turn.items[k].nativeIds.Some? {
      ItemOntoItself(turn.items[k], true, parts, source);
    }
  }

  // ------------------------------------------------------------------ when a fork succeeds

  lemma {:induction false} RemapIdExactly(id: string, source: History, fork: History)
    requires RemapId(id, source, source).Some?
    ensures RemapId(id, source, fork).Some? <==> HasPlace(id, source, fork)
  {
    assert Positions(source, [id]).value[0] == Where(source, id);
  }

  lemma {:induction false} RemapIdsExactly(ids: seq<string>, source: History, fork: History)
    requires RemapIds(ids, source, source).Some?
    ensures RemapIds(ids, source, fork).Some? <==> forall id <- ids :: HasPlace(id, source, fork)
  {
    if ids != [] {
      RemapIdExactly(ids[0], source, fork);
      RemapIdsExactly(ids[1..], source, fork);
      assert ids == [ids[0]] + ids[1..];
    }
  }

  lemma {:induction false} RemapItemExactly(item: Item, initial: bool, parts: seq<string>, source: History,
                                            fork: History)
    requires RemapItem(item, initial, parts, source, source).Some?
    ensures RemapItem(item, initial, parts, source, fork).Some? <==>
            (!Exempt(item) ==> OwnIds(item, initial, parts).Some?
                               && forall id <- OwnIds(item, initial, parts).value :: HasPlace(id, source, fork))
  {
    if !Exempt(item) {
      RemapIdsExactly(OwnIds(item, initial, parts).value, source, fork);
    }
  }

  lemma {:induction false} RemapTurnExactly(turn: Turn, source: History, fork: History)
    requires RemapTurn(turn, source, source).Some? && 0 <= PartPositions(turn, source).value[0] < |fork|
    ensures RemapTurn(turn, source, fork).Some? <==> TurnHasPlace(turn, source, fork)
  {
    var parts := NativeParts(turn).value;
    forall k | 0 <= k < |turn.items|
      ensures RemapItem(turn.items[k], k == InitialItem(turn.items), parts, source, fork).Some? <==>
              (!Exempt(turn.items[k]) ==>
                 var ids := OwnIds(turn.items[k], k == InitialItem(turn.items), parts);
                 ids.Some? && forall id <- ids.value :: HasPlace(id, source, fork))
    {
      RemapItemExactly(turn.items[k], k == InitialItem(turn.items), parts, source, fork);
    }
  }

  lemma {:induction false} RetainAllExactly(turns: seq<Turn>, nativeId: string, target: string, source: History,
                                            fork: History)
    ensures RetainAll(turns, nativeId, target, source, fork).Some? <==>
            forall turn <- turns :: Native(turn, nativeId) ==> RemapTurn(turn, source, fork).Some?
  {
    if turns != [] {
      RetainAllExactly(turns[1..], nativeId, target, source, fork);
      assert turns == [turns[0]] + turns[1..];
    }
  }

  lemma {:induction false} NativeTurnKept(turns: seq<Turn>, nativeId: string, turn: Turn)
    requires turn in turns && Native(turn, nativeId)
    ensures turn in NativeTurns(turns, nativeId)
  {
    var n := |turns| - 1;
    if turn != turns[n] {
      assert turns == turns[..n] + [turns[n]];
      NativeTurnKept(turns[..n], nativeId, turn);
    }
  }

  /** Every retained native turn begins before the cut. */
  lemma {:induction false} RetainedBegins(session: Session, lastTurnId: Option<string>, messages: History, turn: Turn)
    requires Cut(session, lastTurnId, messages).Some?
    requires turn in Retained(session, lastTurnId) && Native(turn, NativeIdOf(session))
    ensures PartPositions(turn, messages).Some? && PartPositions(turn, messages).value != []
    ensures 0 <= PartPositions(turn, messages).value[0] < Cut(session, lastTurnId, messages).value
  {
    var positions := RetainedLieBeforeTheCut(session, lastTurnId, messages);
    NativeTurnKept(Retained(session, lastTurnId), NativeIdOf(session), turn);
    var i :| 0 <= i < |KeptTurns(session, lastTurnId)| && KeptTurns(session, lastTurnId)[i] == turn;
    assert positions[i] != [];
  }

  lemma {:induction false} RetainedExactly(session: Session, lastTurnId: Option<string>, messages: History,
                                           fork: History, turn: Turn)
    requires Cut(session, lastTurnId, messages) == Some(|fork|) && Preflight(session, lastTurnId, messages)
    requires turn in Retained(session, lastTurnId) && Native(turn, NativeIdOf(session))
    ensures RemapTurn(turn, messages, fork).Some? <==> TurnHasPlace(turn, messages, fork)
  {
    RetainAllExactly(Retained(session, lastTurnId), NativeIdOf(session), NativeIdOf(session), messages, messages);
    RetainedBegins(session, lastTurnId, messages, turn);
    RemapTurnExactly(turn, messages, fork);
  }

  lemma {:induction false} CutIsInside(session: Session, lastTurnId: Option<string>, messages: History)
    requires Cut(session, lastTurnId, messages).Some?
    ensures 1 <= Cut(session, lastTurnId, messages).value <= |messages| && Preflight(session, lastTurnId, messages)
  {
    var turns, at := CutChecks(session, lastTurnId, messages);
    TurnsRise(CheckedTurns(turns, at), messages);
  }

  /** A fork that is not a usable copy fails; any other remaps the retained turns. */
  lemma {:induction false} ForkChecks(session: Session, lastTurnId: Option<string>, messages: History,
                                      receipt: Option<string>, fork: History, end: nat)
    requires Cut(session, lastTurnId, messages) == Some(end) && end <= |messages|
    ensures Copies(messages, fork, end, receipt, NativeIdOf(session)) ==>
              ForkAtTurn(session, lastTurnId, messages, receipt, fork)
              == RetainAll(Retained(session, lastTurnId), NativeIdOf(session), receipt.value, messages, fork)
    ensures !Copies(messages, fork, end, receipt, NativeIdOf(session)) ==>
              ForkAtTurn(session, lastTurnId, messages, receipt, fork).None?
  {
  }

  lemma {:induction false} RetainedAllExactly(session: Session, lastTurnId: Option<string>, messages: History,
                                              target: string, fork: History)
    requires Cut(session, lastTurnId, messages) == Some(|fork|) && Preflight(session, lastTurnId, messages)
    ensures RetainAll(Retained(session, lastTurnId), NativeIdOf(session), target, messages, fork).Some? <==>
            forall turn <- Retained(session, lastTurnId) ::
              Native(turn, NativeIdOf(session)) ==> TurnHasPlace(turn, messages, fork)
  {
    RetainAllExactly(Retained(session, lastTurnId), NativeIdOf(session), target, messages, fork);
    forall turn | turn in Retained(session, lastTurnId) && Native(turn, NativeIdOf(session))
      ensures RemapTurn(turn, messages, fork).Some? <==> TurnHasPlace(turn, messages, fork)
    {
      RetainedExactly(session, lastTurnId, messages, fork, turn);
    }
  }

  /** After the checks before the SDK call, a fork succeeds exactly when it copies the history up to the cut
      into a new session and every retained input that is not withdrawn has its place there. */
  lemma {:induction false} ForkSucceedsExactly(session: Session, lastTurnId: Option<string>, messages: History,
                                               receipt: Option<string>, fork: History)
    requires Cut(session, lastTurnId, messages).Some?
    ensures 1 <= Cut(session, lastTurnId, messages).value <= |messages|
    ensures ForkAtTurn(session, lastTurnId, messages, receipt, fork).Some? <==>
            && Copies(messages, fork, Cut(session, lastTurnId, messages).value, receipt, NativeIdOf(session))
            && (forall turn <- Retained(session, lastTurnId) ::
                  Native(turn, NativeIdOf(session)) ==> TurnHasPlace(turn, messages, fork))
  {
    CutIsInside(session, lastTurnId, messages);
    var end := Cut(session, lastTurnId, messages).value;
    ForkChecks(session, lastTurnId, messages, receipt, fork, end);
    if Copies(messages, fork, end, receipt, NativeIdOf(session)) {
      RetainedAllExactly(session, lastTurnId, messages, receipt.value, fork);
    }
  }

  // ------------------------------------------------------------------ a boundary that a fork loses

  const Composite := Item(true, true, Some("p1"), Some(["p0", "p1"]))

  const Withdrawn := Turn("t", Completed, None, false, Some("p0"), [Composite], true)

  const Before := [Message("p0", User, false, ""), Message("p1", User, false, "")]

  const After := [Message("n0", User, false, ""), Message("n1", User, false, "")]

  lemma {:induction false} WithdrawnParts()
    ensures InitialItem([Composite]) == 0 && NativeParts(Withdrawn) == Some(["p0", "p1"]) && StaleBoundary(Withdrawn)
    ensures UniqueIds(Before) && UniqueIds(After)
  {
    assert "p0"[1] != "p1"[1] && "n0"[1] != "n1"[1];
  }

  lemma {:induction false} WithdrawnPositions()
    ensures Positions(Before, ["p0", "p1"]) == Some([0, 1]) && PartPositions(Withdrawn, Before) == Some([0, 1])
  {
    WithdrawnParts();
    WhereUnique(Before, 0);
    WhereUnique(Before, 1);
    assert Positions(Before, ["p0", "p1"]).value == [0, 1];
  }

  /** Forking behind a withdrawn composite input gives a turn whose boundary cannot be read. */
  lemma {:induction false} WithdrawnBoundaryIsLost()
    ensures RemapTurn(Withdrawn, Before, After).Some? && UniqueIds(After) && StaleBoundary(Withdrawn)
    ensures NativeParts(RemapTurn(Withdrawn, Before, After).value).None?
    ensures !BoundarySits(Withdrawn, RemapTurn(Withdrawn, Before, After).value, Before, After)
  {
    WithdrawnParts();
    WithdrawnPositions();
    assert "n0"[0] != "p0"[0] && "n0"[0] != "p1"[0];
    assert ItemsRemap(Withdrawn.items, ["p0", "p1"], Before, After);
    StaleBoundaryIsLost(Withdrawn, Before, After);
  }

  const Thread := Session("s", None, true, [Withdrawn])

  lemma {:induction false} ThreadCut()
    ensures Retained(Thread, None) == [Withdrawn] && Native(Withdrawn, "s")
    ensures Cut(Thread, None, Before) == Some(2)
  {
    WithdrawnParts();
    WithdrawnPositions();
    assert Thread.turns[..1] == [Withdrawn] && [Withdrawn][..0] == [];
    assert NativeTurns([Withdrawn][..0], "s") + [Withdrawn] == [Withdrawn];
    assert FindTurn([Withdrawn], "t") == 0;
    assert ItemsRemap(Withdrawn.items, ["p0", "p1"], Before, Before);
    assert RemapTurn(Withdrawn, Before, Before).Some?;
    RetainAllExactly([Withdrawn], "s", "s", Before, Before);
    assert TurnPositions([Withdrawn][..0], Before) == Some([]) && [] + [[0, 1]] == [[0, 1]];
    assert TurnPositions([Withdrawn], Before) == Some([[0, 1]]);
    assert CutAt([Withdrawn], 0, 1, Before) == Some(2);
  }

  lemma {:induction false} WithdrawnRetained()
    ensures var r := RetainAll([Withdrawn], "s", "r", Before, After);
            r.Some? && |r.value| == 1 && NativeParts(r.value[0]).None?
  {
    WithdrawnBoundaryIsLost();
    RetainAllExactly([Withdrawn], "s", "r", Before, After);
    var turn := RetainAll([Withdrawn], "s", "r", Before, After).value[0];
    var remapped := RemapTurn(Withdrawn, Before, After).value;
    assert turn == remapped.(nativeSessionId := Some("r"));
    assert NativeParts(turn) == NativeParts(remapped);
  }

  /** The source accepts that fork. */
  lemma {:induction false} ForkLosesTheBoundary()
    ensures ForkAtTurn(Thread, None, Before, Some("r"), After).Some?
    ensures |ForkAtTurn(Thread, None, Before, Some("r"), After).value| == 1
    ensures NativeParts(ForkAtTurn(Thread, None, Before, Some("r"), After).value[0]).None?
  {
    ThreadCut();
    assert "r" != "s";
    ForkChecks(Thread, None, Before, Some("r"), After, 2);
    WithdrawnRetained();
  }
}
