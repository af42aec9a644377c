/**
 How one logical input becomes an ordered batch of native messages
 (claude-bridge/input-messages.ts).

 A native UUID is opaque: it is modelled by the identity and part it is derived
 from, so two UUIDs are equal exactly when their derivations are.
 */
module InputMessages {
  import opened Basics

  datatype Origin = Human | StudioEvent

  /** One block of user input; `inputOrigin` may be omitted. */
  datatype Block = Block(inputOrigin: Option<string>, body: string)

  datatype Group = Group(origin: Origin, blocks: seq<Block>)

  /** UUID of the final part (the logical identity) or of an earlier part. */
  datatype Uuid = Whole(identity: string) | PartOf(identity: string, index: nat)

  /** `attempt` is the submission attempt that the bridge keeps on the owning item. */
  datatype Message = Message(uuid: Uuid, identity: string, shouldQuery: bool, attempt: nat)

  function OriginOf(block: Block): Option<Origin> {
    match block.inputOrigin
    case None => Some(Human)
    case Some(name) =>
      if name == "human" then Some(Human)
      else if name == "studio_event" then Some(StudioEvent)
      else None
  }

  predicate Supported(input: seq<Block>) {
    forall block <- input :: OriginOf(block).Some?
  }

  /** The blocks of one origin, in input order. */
  function Select(input: seq<Block>, origin: Origin): seq<Block> {
    if input == [] then []
    else Select(input[..|input| - 1], origin)
         + if OriginOf(input[|input| - 1]) == Some(origin) then [input[|input| - 1]] else []
  }

  /** The groups of one origin, in group order. */
  function GroupsOf(groups: seq<Group>, origin: Origin): (r: seq<Group>)
    ensures forall g <- r :: g.origin == origin && g in groups
  {
    if groups == [] then []
    else GroupsOf(groups[..|groups| - 1], origin)
         + if groups[|groups| - 1].origin == origin then [groups[|groups| - 1]] else []
  }

  function Blocks(groups: seq<Group>): seq<Block> {
    if groups == [] then []
    else Blocks(groups[..|groups| - 1]) + groups[|groups| - 1].blocks
  }

  /** One step of the source's first loop: extend the last run or open a new one. */
  function AddBlock(runs: seq<Group>, block: Block, origin: Origin): (r: seq<Group>)
    ensures r != []
  {
    if runs != [] && runs[|runs| - 1].origin == origin
    then runs[..|runs| - 1] + [Group(origin, runs[|runs| - 1].blocks + [block])]
    else runs + [Group(origin, [block])]
  }

  /** Maximal runs of one origin. */
  function Runs(input: seq<Block>): seq<Group>
    requires Supported(input)
  {
    if input == [] then []
    else AddBlock(Runs(input[..|input| - 1]), input[|input| - 1], OriginOf(input[|input| - 1]).value)
  }

  /** Studio events first and human text last, each in its own order. */
  function Groups(input: seq<Block>): seq<Group>
    requires Supported(input)
  {
    var runs := Runs(input);
    if runs == [] then [Group(Human, [])]
    else GroupsOf(runs, StudioEvent) + GroupsOf(runs, Human)
  }

  function ExtendLast(groups: seq<Group>, block: Block): seq<Group>
    requires groups != []
  {
    var last := groups[|groups| - 1];
    groups[..|groups| - 1] + [Group(last.origin, last.blocks + [block])]
  }

  lemma {:induction false} OpenThenExtend(groups: seq<Group>, block: Block, origin: Origin)
    ensures AddBlock(groups, block, origin)
            == ExtendLast(if groups == [] || groups[|groups| - 1].origin != origin
                          then groups + [Group(origin, [])] else groups, block)
  {
    var wider := groups + [Group(origin, [])];
    assert wider[..|wider| - 1] == groups && [] + [block] == [block];
  }

  method InputGroups(input: seq<Block>) returns (r: Result<seq<Group>>)
    ensures r.Success? <==> Supported(input)
    ensures r.Success? ==> r.value == Groups(input)
  {
    var groups: seq<Group> := [];
    for i := 0 to |input|
      invariant Supported(input[..i])
      invariant groups == Runs(input[..i])
    {
      assert input[..i + 1][..i] == input[..i] && input[..i + 1][i] == input[i];
      var origin := OriginOf(input[i]);
      if origin.None? {
        assert input[i] in input;
        return Failure("Unsupported Claude input origin");
      }
      var wider := groups;
      if groups == [] || groups[|groups| - 1].origin != origin.value {
        wider := groups + [Group(origin.value, [])];
      }
      OpenThenExtend(groups, input[i], origin.value);
      groups := ExtendLast(wider, input[i]);
    }
    assert input[..|input|] == input;
    // The comparator only distinguishes human groups, and the sort is stable.
    var sorted := GroupsOf(groups, StudioEvent) + GroupsOf(groups, Human);
    if groups == [] {
      sorted := [Group(Human, [])];
    }
    return Success(sorted);
  }

  lemma {:induction false} GroupsOfAppend(a: seq<Group>, b: seq<Group>, origin: Origin)
    ensures GroupsOf(a + b, origin) == GroupsOf(a, origin) + GroupsOf(b, origin)
  {
    if b == [] {
      assert a + b == a;
    } else {
      assert (a + b)[..|a + b| - 1] == a + b[..|b| - 1];
      GroupsOfAppend(a, b[..|b| - 1], origin);
    }
  }

  lemma {:induction false} BlocksAppend(a: seq<Group>, b: seq<Group>)
    ensures Blocks(a + b) == Blocks(a) + Blocks(b)
  {
    if b == [] {
      assert a + b == a;
    } else {
      assert (a + b)[..|a + b| - 1] == a + b[..|b| - 1];
      BlocksAppend(a, b[..|b| - 1]);
    }
  }

  lemma {:induction false} AddBlockSelect(runs: seq<Group>, block: Block, o: Origin, origin: Origin)
    ensures Blocks(GroupsOf(AddBlock(runs, block, o), origin))
            == Blocks(GroupsOf(runs, origin)) + if o == origin then [block] else []
  {
    if runs != [] && runs[|runs| - 1].origin == o {
      GrowLastSelect(runs, block, o, origin);
    } else {
      SplitLast(runs, Group(o, [block]), origin);
    }
  }

  lemma {:induction false} GrowLastSelect(runs: seq<Group>, block: Block, o: Origin, origin: Origin)
    requires runs != [] && runs[|runs| - 1].origin == o
    ensures Blocks(GroupsOf(AddBlock(runs, block, o), origin))
            == Blocks(GroupsOf(runs, origin)) + if o == origin then [block] else []
  {
    var front, last := runs[..|runs| - 1], runs[|runs| - 1];
    var grown := Group(o, last.blocks + [block]);
    assert AddBlock(runs, block, o) == front + [grown];
    assert runs == front + [last];
    GrownSelect(front, last, grown, block, origin);
  }

  lemma {:induction false} GrownSelect(front: seq<Group>, last: Group, grown: Group, block: Block, origin: Origin)
    requires grown.origin == last.origin && grown.blocks == last.blocks + [block]
    ensures Blocks(GroupsOf(front + [grown], origin))
            == Blocks(GroupsOf(front + [last], origin)) + if last.origin == origin then [block] else []
  {
    SplitLast(front, last, origin);
    SplitLast(front, grown, origin);
    Regroup(Blocks(GroupsOf(front, origin)), last.blocks, block);
  }

  lemma {:induction false} Regroup(front: seq<Block>, blocks: seq<Block>, block: Block)
    ensures front + (blocks + [block]) == front + blocks + [block]
    ensures front + [] == front
  {
  }

  lemma {:induction false} SplitLast(front: seq<Group>, last: Group, origin: Origin)
    ensures Blocks(GroupsOf(front + [last], origin))
            == Blocks(GroupsOf(front, origin)) + if last.origin == origin then last.blocks else []
  {
    GroupsOfAppend(front, [last], origin);
    BlocksAppend(GroupsOf(front, origin), GroupsOf([last], origin));
    SingleGroup(last, origin);
  }

  lemma {:induction false} RunsSelect(input: seq<Block>, origin: Origin)
    requires Supported(input)
    ensures Blocks(GroupsOf(Runs(input), origin)) == Select(input, origin)
  {
    if input != [] {
      var front := input[..|input| - 1];
      var block := input[|input| - 1];
      RunsSelect(front, origin);
      AddBlockSelect(Runs(front), block, OriginOf(block).value, origin);
    }
  }

  lemma {:induction false} SingleGroup(group: Group, origin: Origin)
    ensures GroupsOf([group], origin) == if group.origin == origin then [group] else []
    ensures Blocks(GroupsOf([group], origin)) == if group.origin == origin then group.blocks else []
  {
    assert [group][..0] == [];
  }

  /**
   Grouping loses, repeats and reorders nothing within one origin, puts every
   Studio event before every human block, and never yields an empty batch.
   */
  lemma {:induction false} GroupsKeepEveryBlock(input: seq<Block>)
    requires Supported(input)
    ensures |Groups(input)| >= 1
    ensures Blocks(Groups(input)) == Select(input, StudioEvent) + Select(input, Human)
    ensures forall i, j :: 0 <= i < j < |Groups(input)| && Groups(input)[i].origin == Human
                           ==> Groups(input)[j].origin == Human
  {
    OriginsSorted(input);
    NoRuns(input);
    if input != [] {
      RunsSelect(input, StudioEvent);
      RunsSelect(input, Human);
      BlocksAppend(GroupsOf(Runs(input), StudioEvent), GroupsOf(Runs(input), Human));
    }
  }

  lemma {:induction false} OriginsSorted(input: seq<Block>)
    requires Supported(input)
    ensures forall i, j :: 0 <= i < j < |Groups(input)| && Groups(input)[i].origin == Human
                           ==> Groups(input)[j].origin == Human
  {
    var first, last := GroupsOf(Runs(input), StudioEvent), GroupsOf(Runs(input), Human);
    assert forall i :: 0 <= i < |first| ==> first[i] in first;
    assert forall i :: 0 <= i < |last| ==> last[i] in last;
  }

  /** An empty input still gives one, empty, human group. */
  lemma {:induction false} NoRuns(input: seq<Block>)
    requires Supported(input)
    ensures Runs(input) == [] <==> input == []
    ensures |Groups(input)| >= 1
    ensures input == [] ==> Blocks(Groups(input)) == Select(input, StudioEvent) + Select(input, Human)
  {
    var runs := Runs(input);
    if input == [] {
      assert [Group(Human, [])][..0] == [];
    } else {
      assert GroupsOf(runs, runs[|runs| - 1].origin) != [];
    }
  }

  /** The native messages of one logical input; only the last one queries. */
  function SdkInputMessages(identity: string, parts: nat, attempt: nat): (r: seq<Message>)
    ensures |r| == parts
  {
    seq(parts, i requires 0 <= i < parts =>
      Message(if i == parts - 1 then Whole(identity) else PartOf(identity, i),
              identity, i == parts - 1, attempt))
  }

  function Uuids(messages: seq<Message>): (r: seq<Uuid>)
    ensures |r| == |messages|
    ensures forall i :: 0 <= i < |r| ==> r[i] == messages[i].uuid
  {
    seq(|messages|, i requires 0 <= i < |messages| => messages[i].uuid)
  }

  /** nativeUserMessageId: the text of a native UUID. It is any function; nothing below depends on which. */
  const NativeText: Uuid -> string

  function NativeTexts(ids: seq<Uuid>): (r: seq<string>)
    ensures |r| == |ids|
    ensures forall i :: 0 <= i < |r| ==> r[i] == NativeText(ids[i])
  {
    seq(|ids|, i requires 0 <= i < |ids| => NativeText(ids[i]))
  }

  predicate Distinct<T(==)>(ids: seq<T>) {
    forall i, j :: 0 <= i < j < |ids| ==> ids[i] != ids[j]
  }

  /** Ordered native UUIDs recorded on an item, or None when they are not usable. */
  function NativeInputIds<T(==)>(nativeIds: Option<seq<T>>, nativeId: Option<T>): Option<seq<T>> {
    match nativeIds
    case None => if nativeId.Some? then Some([nativeId.value]) else None
    case Some(ids) =>
      if ids == [] || !Distinct(ids) || (nativeId.Some? && ids[|ids| - 1] != nativeId.value)
      then None else Some(ids)
  }

  /** What the bridge records for a submission is exactly what it reads back. */
  lemma {:induction false} SubmissionIdsReadBack(identity: string, parts: nat, attempt: nat)
    requires parts >= 1
    ensures var ids := Uuids(SdkInputMessages(identity, parts, attempt));
            && NativeInputIds(if parts > 1 then Some(ids) else None, Some(Whole(identity))) == Some(ids)
            && Distinct(ids) && ids[parts - 1] == Whole(identity)
  {
    var ids := Uuids(SdkInputMessages(identity, parts, attempt));
    if parts == 1 {
      assert ids == [Whole(identity)];
    }
  }
}
