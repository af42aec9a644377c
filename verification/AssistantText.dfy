/**
 Text blocks of one assistant message (assistantBlockState, assistantText, the delta
 handler and mergeBlocks in claude-bridge/bridge.ts): streamed deltas and complete
 message frames build one text, joined lazily.
 */
module AssistantText {
  import opened Basics

  datatype Block = Block(text: string, complete: bool)

  /** A content entry of one SDK message: its message UUID and position. */
  datatype Frame = Frame(uuid: string, index: nat)

  /** `streams` maps a stream index to its block; only streamed blocks are in it. */
  datatype Blocks = Blocks(blocks: seq<Block>, streams: map<int, nat>, frames: set<Frame>)

  const Empty := Blocks([], map[], {})

  /** The non-empty block texts, one per line. */
  function Joined(blocks: seq<Block>): string {
    if blocks == [] then ""
    else
      var front, last := Joined(blocks[..|blocks| - 1]), blocks[|blocks| - 1].text;
      if last == "" then front else if front == "" then last else front + "\n" + last
  }

  /** A delta opens its block when its stream index is new. */
  function Opened(b: Blocks, index: int): Blocks {
    if index in b.streams then b
    else b.(blocks := b.blocks + [Block("", false)], streams := b.streams[index := |b.blocks|])
  }

  predicate Valid(b: Blocks) {
    forall index <- b.streams :: b.streams[index] < |b.blocks|
  }

  function Delta(b: Blocks, index: int, delta: string): (r: (Blocks, Option<string>))
    requires Valid(b)
    ensures Valid(r.0)
  {
    var o := Opened(b, index);
    var at := o.streams[index];
    var block := o.blocks[at];
    if block.complete then (o, None)
    else
      (o.(blocks := o.blocks[at := block.(text := block.text + delta)]),
       Some((if block.text == "" && at > 0 then "\n" else "") + delta))
  }

  /** The first incomplete block with exactly this text; |blocks| when there is none. */
  function Pending(blocks: seq<Block>, text: string): (r: nat)
    ensures r <= |blocks|
    ensures r < |blocks| ==> !blocks[r].complete && blocks[r].text == text
    ensures forall i :: 0 <= i < r ==> blocks[i].complete || blocks[i].text != text
  {
    if blocks == [] then 0
    else if !blocks[0].complete && blocks[0].text == text then 0
    else 1 + Pending(blocks[1..], text)
  }

  function MergeEntry(b: Blocks, frame: Frame, text: string): (r: Blocks)
    ensures Valid(b) ==> Valid(r)
  {
    if text == "" || frame in b.frames then b
    else
      var at := Pending(b.blocks, text);
      b.(frames := b.frames + {frame},
         blocks := if at < |b.blocks| then b.blocks[at := b.blocks[at].(complete := true)]
                   else b.blocks + [Block(text, true)])
  }

  /** All entries of one frame from `from` on; an entry of another kind has no text. */
  function Merge(b: Blocks, uuid: string, content: seq<string>, from: nat): (r: Blocks)
    requires from <= |content|
    ensures Valid(b) ==> Valid(r)
    decreases |content| - from
  {
    if from == |content| then b else Merge(MergeEntry(b, Frame(uuid, from), content[from]), uuid, content, from + 1)
  }

  class AssistantBlocks {
    var blocks: seq<Block>
    var streams: map<int, nat>
    var frames: set<Frame>
    var text: string
    var dirty: bool

    ghost function View(): Blocks
      reads this
    {
      Blocks(blocks, streams, frames)
    }

    /** The cached text is current unless a change marked it dirty. */
    ghost predicate Cached()
      reads this
    {
      Valid(View()) && (!dirty ==> text == Joined(blocks))
    }

    constructor ()
      ensures View() == Empty && Cached()
    {
      blocks, streams, frames, text, dirty := [], map[], {}, "", false;
    }

    method OnDelta(index: int, delta: string) returns (emitted: Option<string>)
      requires Cached()
      modifies this
      ensures Cached() && (View(), emitted) == Delta(old(View()), index, delta)
    {
      OpenKeepsText(blocks);
      if index !in streams {
        blocks, streams := blocks + [Block("", false)], streams[index := |blocks|];
      }
      assert View() == Opened(old(View()), index);
      var at := streams[index];
      var block := blocks[at];
      var separator := if block.text == "" && at > 0 then "\n" else "";
      emitted := None;
      if !block.complete {
        blocks := blocks[at := block.(text := block.text + delta)];
        dirty := true;
        emitted := Some(separator + delta);
      }
    }

    method OnFrame(uuid: string, content: seq<string>)
      requires Cached()
      modifies this
      ensures Cached() && View() == Merge(old(View()), uuid, content, 0)
    {
      var index := 0;
      while index < |content|
        invariant 0 <= index <= |content| && Cached()
        invariant Merge(View(), uuid, content, index) == Merge(old(View()), uuid, content, 0)
      {
        var entry := content[index];
        var frame := Frame(uuid, index);
        index := index + 1;
        if entry == "" || frame in frames {
          continue;
        }
        frames := frames + {frame};
        var at := Pending(blocks, entry);
        if at < |blocks| {
          CompleteKeepsText(blocks, at);
          blocks := blocks[at := blocks[at].(complete := true)];
        } else {
          blocks := blocks + [Block(entry, true)];
          dirty := true;
        }
      }
    }

    /** The lazily joined text is always the join of the current blocks. */
    method Read() returns (r: string)
      requires Cached()
      modifies this
      ensures Cached() && View() == old(View()) && r == Joined(blocks)
    {
      if dirty {
        text := JoinBlocks(blocks);
        dirty := false;
      }
      return text;
    }
  }

  method JoinBlocks(blocks: seq<Block>) returns (r: string)
    ensures r == Joined(blocks)
  {
    r := "";
    for i := 0 to |blocks|
      invariant r == Joined(blocks[..i])
    {
      assert blocks[..i + 1][..i] == blocks[..i];
      if blocks[i].text != "" {
        r := if r == "" then blocks[i].text else r + "\n" + blocks[i].text;
      }
    }
    assert blocks[..|blocks|] == blocks;
  }

  // ------------------------------------------------------------------ texts

  lemma {:induction false} OpenKeepsText(blocks: seq<Block>)
    ensures Joined(blocks + [Block("", false)]) == Joined(blocks)
  {
    assert (blocks + [Block("", false)])[..|blocks|] == blocks;
  }

  /** The join reads only texts. */
  lemma {:induction false} SameTexts(a: seq<Block>, b: seq<Block>)
    requires |a| == |b| && forall i :: 0 <= i < |a| ==> a[i].text == b[i].text
    ensures Joined(a) == Joined(b)
  {
    if a != [] {
      SameTexts(a[..|a| - 1], b[..|b| - 1]);
    }
  }

  lemma {:induction false} CompleteKeepsText(blocks: seq<Block>, at: nat)
    requires at < |blocks|
    ensures Joined(blocks[at := blocks[at].(complete := true)]) == Joined(blocks)
  {
    SameTexts(blocks[at := blocks[at].(complete := true)], blocks);
  }

  // ------------------------------------------------------------------ event sequences

  datatype Event = DeltaEvent(index: int, delta: string) | FrameEvent(uuid: string, content: seq<string>)

  /** `emitted` is the concatenation of all delta notifications. */
  datatype World = World(b: Blocks, emitted: string)

  function Apply(x: World, event: Event): World
    requires Valid(x.b)
    ensures Valid(Apply(x, event).b)
  {
    match event
    case DeltaEvent(index, delta) =>
      var r := Delta(x.b, index, delta);
      World(r.0, x.emitted + if r.1.Some? then r.1.value else "")
    case FrameEvent(uuid, content) => World(Merge(x.b, uuid, content, 0), x.emitted)
  }

  function Run(x: World, events: seq<Event>): (r: World)
    requires Valid(x.b)
    ensures Valid(r.b)
  {
    if events == [] then x else Apply(Run(x, events[..|events| - 1]), events[|events| - 1])
  }

  /** A non-empty delta of the newest or a new block, or a frame that adds no block. */
  predicate Orderly(b: Blocks, event: Event)
    requires Valid(b)
  {
    match event
    case DeltaEvent(index, delta) => delta != "" && (index in b.streams ==> b.streams[index] == |b.blocks| - 1)
    case FrameEvent(uuid, content) => |Merge(b, uuid, content, 0).blocks| == |b.blocks|
  }

  predicate OrderlyRun(events: seq<Event>) {
    forall k :: 0 <= k < |events| ==> Orderly(Run(World(Empty, ""), events[..k]).b, events[k])
  }
}

/** Frames repeat harmlessly, and orderly deltas spell the text. */
module AssistantTextTheorems {
  import opened Basics
  import opened AssistantText

  // ------------------------------------------------------------------ frames

  predicate Seen(b: Blocks, uuid: string, content: seq<string>, from: nat) {
    forall k :: from <= k < |content| && content[k] != "" ==> Frame(uuid, k) in b.frames
  }

  lemma {:induction false} MergeAddsFrames(b: Blocks, uuid: string, content: seq<string>, from: nat)
    requires from <= |content|
    ensures b.frames <= Merge(b, uuid, content, from).frames
    ensures Seen(Merge(b, uuid, content, from), uuid, content, from)
    decreases |content| - from
  {
    if from < |content| {
      MergeAddsFrames(MergeEntry(b, Frame(uuid, from), content[from]), uuid, content, from + 1);
    }
  }

  lemma {:induction false} SeenFrameIsIgnored(b: Blocks, uuid: string, content: seq<string>, from: nat)
    requires from <= |content| && Seen(b, uuid, content, from)
    ensures Merge(b, uuid, content, from) == b
    decreases |content| - from
  {
    if from < |content| {
      SeenFrameIsIgnored(b, uuid, content, from + 1);
    }
  }

  lemma {:induction false} FramesStay(x: World, events: seq<Event>)
    requires Valid(x.b)
    ensures x.b.frames <= Run(x, events).b.frames
  {
    if events != [] {
      var y, last := Run(x, events[..|events| - 1]), events[|events| - 1];
      FramesStay(x, events[..|events| - 1]);
      if last.FrameEvent? {
        MergeAddsFrames(y.b, last.uuid, last.content, 0);
      }
    }
  }

  /** A frame that was handled once changes nothing when it arrives again, however much later. */
  lemma {:induction false} ReplayChangesNothing(x: World, uuid: string, content: seq<string>, between: seq<Event>)
    requires Valid(x.b)
    ensures var after := Run(Apply(x, FrameEvent(uuid, content)), between);
            Apply(after, FrameEvent(uuid, content)) == after
  {
    var first := Apply(x, FrameEvent(uuid, content));
    MergeAddsFrames(x.b, uuid, content, 0);
    FramesStay(first, between);
    SeenFrameIsIgnored(Run(first, between).b, uuid, content, 0);
  }

  /** A frame that repeats an incomplete streamed block completes that block and adds none. */
  lemma {:induction false} FrameCompletesItsBlock(b: Blocks, frame: Frame, i: nat)
    requires frame !in b.frames && i < |b.blocks| && !b.blocks[i].complete && b.blocks[i].text != ""
    requires forall j :: 0 <= j < i ==> b.blocks[j].complete || b.blocks[j].text != b.blocks[i].text
    ensures MergeEntry(b, frame, b.blocks[i].text).blocks == b.blocks[i := b.blocks[i].(complete := true)]
    ensures Joined(MergeEntry(b, frame, b.blocks[i].text).blocks) == Joined(b.blocks)
  {
    assert Pending(b.blocks, b.blocks[i].text) == i;
    CompleteKeepsText(b.blocks, i);
  }

  // ------------------------------------------------------------------ deltas

  predicate Spelled(x: World) {
    && x.emitted == Joined(x.b.blocks)
    && forall i :: 0 <= i < |x.b.blocks| ==> x.b.blocks[i].text != ""
  }

  lemma {:induction false} JoinedSnoc(blocks: seq<Block>, block: Block)
    requires block.text != ""
    ensures Joined(blocks + [block]) ==
            if Joined(blocks) == "" then block.text else Joined(blocks) + "\n" + block.text
  {
    assert (blocks + [block])[..|blocks|] == blocks;
  }

  lemma {:induction false} JoinedEmpty(blocks: seq<Block>)
    requires forall i :: 0 <= i < |blocks| ==> blocks[i].text != ""
    ensures Joined(blocks) == "" <==> blocks == []
  {
  }

  lemma {:induction false} OpensBlock(b: Blocks, index: int, delta: string)
    requires Valid(b) && index !in b.streams
    ensures Delta(b, index, delta) ==
            (Blocks(b.blocks + [Block(delta, false)], b.streams[index := |b.blocks|], b.frames),
             Some((if b.blocks != [] then "\n" else "") + delta))
  {
    var o := Opened(b, index);
    var n := |b.blocks|;
    assert o.blocks[n := Block("" + delta, false)] == b.blocks + [Block("" + delta, false)];
    assert "" + delta == delta;
  }

  lemma {:induction false} GrowsBlock(b: Blocks, index: int, delta: string)
    requires Valid(b) && index in b.streams && !b.blocks[b.streams[index]].complete
    requires b.blocks[b.streams[index]].text != ""
    ensures var at := b.streams[index];
            Delta(b, index, delta) ==
            (b.(blocks := b.blocks[at := Block(b.blocks[at].text + delta, false)]), Some(delta))
  {
    assert "" + delta == delta;
  }

  lemma {:induction false} NewBlockText(blocks: seq<Block>, delta: string)
    requires delta != "" && forall i :: 0 <= i < |blocks| ==> blocks[i].text != ""
    ensures Joined(blocks + [Block(delta, false)]) == Joined(blocks) + ((if blocks != [] then "\n" else "") + delta)
  {
    var a := Joined(blocks);
    JoinedSnoc(blocks, Block(delta, false));
    JoinedEmpty(blocks);
    assert a + ("\n" + delta) == a + "\n" + delta && "" + ("" + delta) == delta;
  }

  lemma {:induction false} NewBlockSpells(x: World, index: int, delta: string)
    requires Valid(x.b) && Spelled(x) && index !in x.b.streams && delta != ""
    ensures Spelled(Apply(x, DeltaEvent(index, delta)))
  {
    OpensBlock(x.b, index, delta);
    NewBlockText(x.b.blocks, delta);
  }

  lemma {:induction false} Regroup(a: string, b: string, c: string)
    ensures a + (b + c) == a + b + c
  {
  }

  lemma {:induction false} JoinedGrows(blocks: seq<Block>, delta: string)
    requires blocks != [] && blocks[|blocks| - 1].text != ""
    ensures var n := |blocks| - 1;
            Joined(blocks[n := Block(blocks[n].text + delta, false)]) == Joined(blocks) + delta
  {
    var n := |blocks| - 1;
    var front, last := blocks[..n], blocks[n];
    var grown := Block(last.text + delta, false);
    assert blocks == front + [last] && blocks[n := grown] == front + [grown];
    JoinedSnoc(front, last);
    JoinedSnoc(front, grown);
    Regroup(Joined(front) + "\n", last.text, delta);
  }

  lemma {:induction false} LastBlockSpells(x: World, index: int, delta: string)
    requires Valid(x.b) && Spelled(x) && index in x.b.streams && x.b.streams[index] == |x.b.blocks| - 1 && delta != ""
    ensures Spelled(Apply(x, DeltaEvent(index, delta)))
  {
    if x.b.blocks[|x.b.blocks| - 1].complete {
      assert x.emitted + "" == x.emitted;
    } else {
      GrowsBlock(x.b, index, delta);
      JoinedGrows(x.b.blocks, delta);
    }
  }

  lemma {:induction false} MergeEntryTexts(b: Blocks, frame: Frame, text: string)
    requires |MergeEntry(b, frame, text).blocks| == |b.blocks|
    ensures forall i :: 0 <= i < |b.blocks| ==> MergeEntry(b, frame, text).blocks[i].text == b.blocks[i].text
  {
  }

  lemma {:induction false} MergeGrows(b: Blocks, uuid: string, content: seq<string>, from: nat)
    requires from <= |content|
    ensures |Merge(b, uuid, content, from).blocks| >= |b.blocks|
    decreases |content| - from
  {
    if from < |content| {
      MergeGrows(MergeEntry(b, Frame(uuid, from), content[from]), uuid, content, from + 1);
    }
  }

  lemma {:induction false} QuietMerge(b: Blocks, uuid: string, content: seq<string>, from: nat)
    requires from <= |content| && |Merge(b, uuid, content, from).blocks| == |b.blocks|
    ensures forall i :: 0 <= i < |b.blocks| ==> Merge(b, uuid, content, from).blocks[i].text == b.blocks[i].text
    decreases |content| - from
  {
    if from < |content| {
      var next := MergeEntry(b, Frame(uuid, from), content[from]);
      MergeGrows(next, uuid, content, from + 1);
      MergeEntryTexts(b, Frame(uuid, from), content[from]);
      QuietMerge(next, uuid, content, from + 1);
    }
  }

  lemma {:induction false} StepSpells(x: World, event: Event)
    requires Valid(x.b) && Spelled(x) && Orderly(x.b, event)
    ensures Spelled(Apply(x, event))
  {
    match event
    case DeltaEvent(index, delta) =>
      if index in x.b.streams {
        LastBlockSpells(x, index, delta);
      } else {
        NewBlockSpells(x, index, delta);
      }
    case FrameEvent(uuid, content) =>
      QuietMerge(x.b, uuid, content, 0);
      SameTexts(Merge(x.b, uuid, content, 0).blocks, x.b.blocks);
  }

  /** With in-order non-empty deltas and no frame-only block, the emitted deltas spell the joined text. */
  lemma {:induction false} DeltasSpellTheText(events: seq<Event>)
    requires OrderlyRun(events)
    ensures Run(World(Empty, ""), events).emitted == Joined(Run(World(Empty, ""), events).b.blocks)
    ensures Spelled(Run(World(Empty, ""), events))
  {
    if events != [] {
      var front := events[..|events| - 1];
      forall k | 0 <= k < |front|
        ensures Orderly(Run(World(Empty, ""), front[..k]).b, front[k])
      {
        assert front[..k] == events[..k];
      }
      DeltasSpellTheText(front);
      StepSpells(Run(World(Empty, ""), front), events[|events| - 1]);
    }
  }

  // ------------------------------------------------------------------ exactly which events keep the spelling

  /** What follows a block in the joined text, separators included. */
  function Rest(blocks: seq<Block>): string {
    if blocks == [] then "" else Rest(blocks[..|blocks| - 1]) + "\n" + blocks[|blocks| - 1].text
  }

  /** The event leaves the emitted deltas and the joined text equal. */
  predicate Fits(b: Blocks, event: Event)
    requires Valid(b)
  {
    match event
    case DeltaEvent(index, delta) =>
      if index !in b.streams then delta != "" || b.blocks == []
      else
        var at := b.streams[index];
        b.blocks[at].complete || Rest(b.blocks[at + 1..]) + delta == delta + Rest(b.blocks[at + 1..])
    case FrameEvent(uuid, content) => |Merge(b, uuid, content, 0).blocks| == |b.blocks|
  }

  lemma {:induction false} RestSnoc(blocks: seq<Block>, block: Block)
    ensures Rest(blocks + [block]) == Rest(blocks) + ("\n" + block.text)
  {
    assert (blocks + [block])[..|blocks|] == blocks;
    Regroup(Rest(blocks), "\n", block.text);
  }

  lemma {:induction false} JoinedAll(front: seq<Block>, rest: seq<Block>)
    requires front != [] && (forall b <- front :: b.text != "") && (forall b <- rest :: b.text != "")
    ensures Joined(front + rest) == Joined(front) + Rest(rest)
    decreases |rest|
  {
    if rest == [] {
      assert front + rest == front && Joined(front) + "" == Joined(front);
    } else {
      var n := |rest| - 1;
      var r, last := rest[..n], rest[n];
      JoinedAll(front, r);
      JoinedMore(front, r, last);
      assert rest == r + [last];
    }
  }

  lemma {:induction false} JoinedMore(front: seq<Block>, rest: seq<Block>, last: Block)
    requires front != [] && (forall b <- front :: b.text != "") && (forall b <- rest :: b.text != "") && last.text != ""
    requires Joined(front + rest) == Joined(front) + Rest(rest)
    ensures Joined(front + (rest + [last])) == Joined(front) + Rest(rest + [last])
  {
    JoinedSnoc(front + rest, last);
    JoinedEmpty(front + rest);
    RestSnoc(rest, last);
    Regroup(Joined(front + rest), "\n", last.text);
    Regroup(Joined(front), Rest(rest), "\n" + last.text);
    assert front + (rest + [last]) == front + rest + [last];
  }

  lemma {:induction false} JoinedSplit(blocks: seq<Block>, k: nat)
    requires 1 <= k <= |blocks| && forall i :: 0 <= i < |blocks| ==> blocks[i].text != ""
    ensures Joined(blocks) == Joined(blocks[..k]) + Rest(blocks[k..])
  {
    JoinedAll(blocks[..k], blocks[k..]);
    assert blocks[..k] + blocks[k..] == blocks;
  }

  lemma {:induction false} GrownText(blocks: seq<Block>, at: nat, delta: string)
    requires at < |blocks| && forall i :: 0 <= i < |blocks| ==> blocks[i].text != ""
    ensures var a, r := Joined(blocks[..at + 1]), Rest(blocks[at + 1..]);
            && Joined(blocks) == a + r
            && Joined(blocks[at := Block(blocks[at].text + delta, false)]) == a + delta + r
  {
    var grown := blocks[at := Block(blocks[at].text + delta, false)];
    JoinedSplit(blocks, at + 1);
    JoinedSplit(grown, at + 1);
    JoinedGrows(blocks[..at + 1], delta);
    assert grown[..at + 1] == blocks[..at + 1][at := grown[at]] && grown[at + 1..] == blocks[at + 1..];
  }

  lemma {:induction false} Commutes(a: string, r: string, delta: string)
    ensures a + r + delta == a + delta + r <==> r + delta == delta + r
  {
    var x, y := r + delta, delta + r;
    assert a + r + delta == a + x && a + delta + r == a + y;
    assert (a + x)[|a|..] == x && (a + y)[|a|..] == y;
  }

  lemma {:induction false} GrowingFits(x: World, index: int, delta: string)
    requires Valid(x.b) && Spelled(x) && index in x.b.streams && !x.b.blocks[x.b.streams[index]].complete
    ensures var n := Apply(x, DeltaEvent(index, delta));
            n.emitted == Joined(n.b.blocks) <==> Fits(x.b, DeltaEvent(index, delta))
  {
    var at := x.b.streams[index];
    GrowsBlock(x.b, index, delta);
    GrownText(x.b.blocks, at, delta);
    Commutes(Joined(x.b.blocks[..at + 1]), Rest(x.b.blocks[at + 1..]), delta);
  }

  lemma {:induction false} OpeningFits(x: World, index: int, delta: string)
    requires Valid(x.b) && Spelled(x) && index !in x.b.streams
    ensures var n := Apply(x, DeltaEvent(index, delta));
            n.emitted == Joined(n.b.blocks) <==> Fits(x.b, DeltaEvent(index, delta))
  {
    if delta != "" {
      NewBlockSpells(x, index, delta);
    } else {
      OpensBlock(x.b, index, delta);
      OpenKeepsText(x.b.blocks);
      assert x.emitted + ("" + "") == x.emitted && |x.emitted + ("\n" + "")| == |x.emitted| + 1;
    }
  }

  lemma {:induction false} EntryGrowsText(b: Blocks, frame: Frame, text: string)
    ensures var n := MergeEntry(b, frame, text);
            && |Joined(n.blocks)| >= |Joined(b.blocks)|
            && (|n.blocks| > |b.blocks| ==> |Joined(n.blocks)| > |Joined(b.blocks)|)
  {
    var n := MergeEntry(b, frame, text);
    if |n.blocks| > |b.blocks| {
      JoinedSnoc(b.blocks, Block(text, true));
    } else {
      MergeEntryTexts(b, frame, text);
      SameTexts(n.blocks, b.blocks);
    }
  }

  lemma {:induction false} MergeGrowsText(b: Blocks, uuid: string, content: seq<string>, from: nat)
    requires from <= |content|
    ensures var n := Merge(b, uuid, content, from);
            && |Joined(n.blocks)| >= |Joined(b.blocks)|
            && (|n.blocks| > |b.blocks| ==> |Joined(n.blocks)| > |Joined(b.blocks)|)
    decreases |content| - from
  {
    if from < |content| {
      EntryGrowsText(b, Frame(uuid, from), content[from]);
      MergeGrowsText(MergeEntry(b, Frame(uuid, from), content[from]), uuid, content, from + 1);
    }
  }

  lemma {:induction false} FrameFits(x: World, uuid: string, content: seq<string>)
    requires Valid(x.b) && Spelled(x)
    ensures var n := Apply(x, FrameEvent(uuid, content));
            n.emitted == Joined(n.b.blocks) <==> Fits(x.b, FrameEvent(uuid, content))
  {
    MergeGrows(x.b, uuid, content, 0);
    if |Merge(x.b, uuid, content, 0).blocks| == |x.b.blocks| {
      QuietMerge(x.b, uuid, content, 0);
      SameTexts(Merge(x.b, uuid, content, 0).blocks, x.b.blocks);
    } else {
      MergeGrowsText(x.b, uuid, content, 0);
    }
  }

  /** While the emitted deltas spell the text, the next event keeps them equal exactly when it fits: a delta
      opens a block, meets a complete one, or commutes with the text after its block; a frame adds no block. */
  lemma {:induction false} SpellingIsKeptExactly(x: World, event: Event)
    requires Valid(x.b) && Spelled(x)
    ensures Apply(x, event).emitted == Joined(Apply(x, event).b.blocks) <==> Fits(x.b, event)
  {
    match event
    case DeltaEvent(index, delta) =>
      if index !in x.b.streams {
        OpeningFits(x, index, delta);
      } else if !x.b.blocks[x.b.streams[index]].complete {
        GrowingFits(x, index, delta);
      } else {
        assert x.emitted + "" == x.emitted;
      }
    case FrameEvent(uuid, content) => FrameFits(x, uuid, content);
  }

  lemma {:induction false} RunSnoc(x: World, events: seq<Event>, event: Event)
    requires Valid(x.b)
    ensures Run(x, events + [event]) == Apply(Run(x, events), event)
  {
    assert (events + [event])[..|events|] == events;
  }

  lemma {:induction false} OneStream() returns (x: World)
    ensures x == Run(World(Empty, ""), [DeltaEvent(0, "a")])
    ensures x == World(Blocks([Block("a", false)], map[0 := 0], {}), "a")
  {
    var x0, first := World(Empty, ""), DeltaEvent(0, "a");
    OpensBlock(x0.b, 0, "a");
    x := Apply(x0, first);
    RunSnoc(x0, [], first);
    assert [] + [first] == [first] && [] + [Block("a", false)] == [Block("a", false)];
    assert "" + ("" + "a") == "a";
  }

  lemma {:induction false} TwoStreams() returns (x: World)
    ensures x == Run(World(Empty, ""), [DeltaEvent(0, "a"), DeltaEvent(1, "b")])
    ensures x.b.blocks == [Block("a", false), Block("b", false)] && x.emitted == "a\nb"
    ensures 0 in x.b.streams && x.b.streams[0] == 0
  {
    var x1 := OneStream();
    var first, second := DeltaEvent(0, "a"), DeltaEvent(1, "b");
    OpensBlock(x1.b, 1, "b");
    x := Apply(x1, second);
    RunSnoc(World(Empty, ""), [first], second);
    assert [first] + [second] == [first, second];
    assert "a" + ("\n" + "b") == "a\nb";
  }

  /** Interleaved streams do not spell it: the third delta lands in the first block. */
  lemma {:induction false} InterleavedDeltasDiffer()
    ensures var x := Run(World(Empty, ""), [DeltaEvent(0, "a"), DeltaEvent(1, "b")] + [DeltaEvent(0, "c")]);
            x.emitted == "a\nbc" && Joined(x.b.blocks) == "ac\nb"
  {
    var x2 := TwoStreams();
    GrowsBlock(x2.b, 0, "c");
    RunSnoc(World(Empty, ""), [DeltaEvent(0, "a"), DeltaEvent(1, "b")], DeltaEvent(0, "c"));
    TwoBlocks();
    assert "a" + "c" == "ac";
    assert x2.b.blocks[0 := Block("ac", false)] == [Block("ac", false), Block("b", false)];
  }

  lemma {:induction false} TwoBlocks()
    ensures Joined([Block("ac", false), Block("b", false)]) == "ac\nb"
  {
    var ac, b := Block("ac", false), Block("b", false);
    JoinedSnoc([], ac);
    JoinedSnoc([ac], b);
    assert [] + [ac] == [ac] && [ac] + [b] == [ac, b];
  }
}
