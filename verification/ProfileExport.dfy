/**
 Exporting one object store of a browser profile (the paging loop of
 client/apps/desktop/export-browser-profile.ts) and the receiver's limits
 (client/apps/desktop/export-profile.ts). A record is its key and the UTF-8 length of
 its JSON; keys of a store rise strictly.
 */
module ProfileExport {
  import opened Basics

  const PAGE := 32
  const CHUNK_BYTES := 8 * 1024 * 1024
  const MAX_BYTES := 64 * 1024 * 1024
  const PAYLOAD_SLACK := 1024

  datatype Record = Record(key: int, bytes: nat)

  /** With a chunk receiver the records go to chunks, otherwise they stay in the result. */
  datatype Export = Export(records: seq<Record>, chunks: seq<seq<Record>>)

  predicate Sorted(store: seq<Record>) {
    forall i, j :: 0 <= i < j < |store| ==> store[i].key < store[j].key
  }

  // ------------------------------------------------------------------ the database

  /** Records with a key above the open lower bound, in key order. */
  function Above(store: seq<Record>, lower: Option<int>): seq<Record> {
    if store == [] then []
    else if lower.Some? && store[0].key <= lower.value then Above(store[1..], lower)
    else [store[0]] + Above(store[1..], lower)
  }

  /** getAllKeys and getAll of one page. */
  function PageOf(store: seq<Record>, lower: Option<int>): (r: seq<Record>)
    ensures |r| <= PAGE
  {
    var rest := Above(store, lower);
    if |rest| <= PAGE then rest else rest[..PAGE]
  }

  /** The open lower bound after `n` records. */
  function BoundAfter(store: seq<Record>, n: nat): Option<int>
    requires n <= |store|
  {
    if n == 0 then None else Some(store[n - 1].key)
  }

  lemma {:induction false} AboveAll(store: seq<Record>, lower: Option<int>)
    requires lower.Some? ==> forall i :: 0 <= i < |store| ==> store[i].key > lower.value
    ensures Above(store, lower) == store
  {
    if store != [] {
      AboveAll(store[1..], lower);
    }
  }

  /** The last key read is exactly where the next page begins. */
  lemma {:induction false} AboveBound(store: seq<Record>, n: nat, lower: int)
    requires Sorted(store) && n <= |store|
    requires forall i :: 0 <= i < n ==> store[i].key <= lower
    requires forall i :: n <= i < |store| ==> store[i].key > lower
    ensures Above(store, Some(lower)) == store[n..]
  {
    if n == 0 {
      AboveAll(store, Some(lower));
    } else {
      AboveBound(store[1..], n - 1, lower);
    }
  }

  lemma {:induction false} PageIsNext(store: seq<Record>, n: nat)
    requires Sorted(store) && n <= |store|
    ensures PageOf(store, BoundAfter(store, n)) ==
            if |store| - n <= PAGE then store[n..] else store[n..n + PAGE]
  {
    if n == 0 {
      AboveAll(store, None);
      assert store[0..] == store;
    } else {
      AboveBound(store, n, store[n - 1].key);
    }
  }

  // ------------------------------------------------------------------ sizes

  /** UTF-8 length of the JSON array of these records: brackets, records and commas. */
  function JsonBytes(records: seq<Record>): nat {
    if records == [] then 2
    else if |records| == 1 then 2 + records[0].bytes
    else JsonBytes(records[..|records| - 1]) + 1 + records[|records| - 1].bytes
  }

  predicate Oversize(record: Record) {
    record.bytes + 1 > MAX_BYTES - 2
  }

  /** No record before `n` is too large for a chunk of its own. */
  predicate Fits(store: seq<Record>, n: nat) {
    forall i :: 0 <= i < n && i < |store| ==> !Oversize(store[i])
  }

  /** What every emitted chunk satisfies. */
  predicate GoodChunk(chunk: seq<Record>) {
    && chunk != [] && JsonBytes(chunk) <= MAX_BYTES
    && (|chunk| > 1 ==> JsonBytes(chunk) <= CHUNK_BYTES)
  }

  predicate AllGood(chunks: seq<seq<Record>>) {
    forall chunk <- chunks :: GoodChunk(chunk)
  }

  function Flatten(chunks: seq<seq<Record>>): seq<Record> {
    if chunks == [] then [] else Flatten(chunks[..|chunks| - 1]) + chunks[|chunks| - 1]
  }

  lemma {:induction false} FlattenSnoc(chunks: seq<seq<Record>>, chunk: seq<Record>)
    ensures Flatten(chunks + [chunk]) == Flatten(chunks) + chunk
  {
    assert (chunks + [chunk])[..|chunks|] == chunks;
  }

  lemma {:induction false} JsonSnoc(records: seq<Record>, record: Record)
    ensures JsonBytes(records + [record]) ==
            if records == [] then 2 + record.bytes else JsonBytes(records) + 1 + record.bytes
  {
    assert (records + [record])[..|records|] == records;
  }

  /** The open chunk: `bytes` counts one comma more than the JSON has. */
  predicate OpenChunk(records: seq<Record>, bytes: nat) {
    && bytes == (if records == [] then 2 else JsonBytes(records) + 1)
    && (records != [] ==> GoodChunk(records))
  }

  /** The records read so far, in chunks and in the open one. */
  predicate Holds(done: seq<Record>, chunks: seq<seq<Record>>, records: seq<Record>) {
    done == Flatten(chunks) + records
  }

  lemma {:induction false} PushRecord(records: seq<Record>, bytes: nat, record: Record)
    requires OpenChunk(records, bytes) && !Oversize(record)
    requires records == [] || bytes + record.bytes + 1 <= CHUNK_BYTES
    ensures OpenChunk(records + [record], bytes + record.bytes + 1)
  {
    JsonSnoc(records, record);
  }

  lemma {:induction false} FlushHolds(done: seq<Record>, chunks: seq<seq<Record>>, records: seq<Record>)
    requires Holds(done, chunks, records)
    ensures Holds(done, chunks + [records], [])
  {
    FlattenSnoc(chunks, records);
    assert Flatten(chunks) + records + [] == Flatten(chunks) + records;
  }

  lemma {:induction false} PushHolds(store: seq<Record>, n: nat, chunks: seq<seq<Record>>, records: seq<Record>)
    requires n < |store| && Holds(store[..n], chunks, records)
    ensures Holds(store[..n + 1], chunks, records + [store[n]])
  {
    assert store[..n + 1] == store[..n] + [store[n]];
    assert Flatten(chunks) + records + [store[n]] == Flatten(chunks) + (records + [store[n]]);
  }

  // ------------------------------------------------------------------ the exporter

  /** What the loops hold after the first `n` records. */
  predicate Collected(store: seq<Record>, n: nat, streaming: bool, chunks: seq<seq<Record>>, records: seq<Record>,
                      bytes: nat) {
    && n <= |store| && Holds(store[..n], chunks, records) && AllGood(chunks)
    && (if streaming then OpenChunk(records, bytes) && Fits(store, n) else chunks == [])
  }

  lemma {:induction false} Flushed(store: seq<Record>, n: nat, chunks: seq<seq<Record>>, records: seq<Record>,
                                   bytes: nat)
    requires Collected(store, n, true, chunks, records, bytes) && records != []
    ensures Collected(store, n, true, chunks + [records], [], 2)
  {
    FlushHolds(store[..n], chunks, records);
  }

  lemma {:induction false} Pushed(store: seq<Record>, n: nat, streaming: bool, chunks: seq<seq<Record>>,
                                  records: seq<Record>, bytes: nat)
    requires n < |store| && Collected(store, n, streaming, chunks, records, bytes)
    requires streaming ==> !Oversize(store[n]) && (records == [] || bytes + store[n].bytes + 1 <= CHUNK_BYTES)
    ensures Collected(store, n + 1, streaming, chunks, records + [store[n]], bytes + store[n].bytes + 1)
  {
    PushHolds(store, n, chunks, records);
    if streaming {
      PushRecord(records, bytes, store[n]);
    }
  }

  lemma {:induction false} AllRead(store: seq<Record>, streaming: bool, chunks: seq<seq<Record>>, records: seq<Record>,
                                   bytes: nat)
    requires Collected(store, |store|, streaming, chunks, records, bytes)
    ensures !streaming ==> records == store
    ensures records == [] ==> Flatten(chunks) == store
  {
    assert store[..|store|] == store;
    assert Flatten(chunks) + [] == Flatten(chunks) && [] + records == records;
  }

  /** The next page, and the bound above which the one after it begins. */
  method ReadPage(store: seq<Record>, lower: Option<int>, ghost n: nat) returns (page: seq<Record>, next: Option<int>)
    requires Sorted(store) && n <= |store| && lower == BoundAfter(store, n)
    ensures n + |page| <= |store| && page == store[n..n + |page|] && |page| <= PAGE
    ensures |page| < PAGE ==> n + |page| == |store|
    ensures next == BoundAfter(store, n + |page|)
  {
    page := PageOf(store, lower);
    PageIsNext(store, n);
    next := if page == [] then lower else Some(page[|page| - 1].key);
  }

  /** One page of records joins the open chunk, which is emitted before it would exceed its size. */
  method AddPage(ghost store: seq<Record>, ghost first: nat, streaming: bool, page: seq<Record>,
                 chunks0: seq<seq<Record>>, records0: seq<Record>, bytes0: nat)
    returns (ok: bool, chunks: seq<seq<Record>>, records: seq<Record>, bytes: nat)
    requires first + |page| <= |store| && page == store[first..first + |page|]
    requires Collected(store, first, streaming, chunks0, records0, bytes0)
    ensures ok ==> Collected(store, first + |page|, streaming, chunks, records, bytes)
    ensures !ok ==> streaming && !Fits(store, |store|)
  {
    chunks, records, bytes := chunks0, records0, bytes0;
    var index := 0;
    while index < |page|
      invariant 0 <= index <= |page|
      invariant Collected(store, first + index, streaming, chunks, records, bytes)
    {
      var record := page[index];
      var size := record.bytes + 1;
      if streaming && size > MAX_BYTES - 2 {
        assert Oversize(store[first + index]);
        return false, chunks, records, bytes;
      }
      if streaming && bytes + size > CHUNK_BYTES && records != [] {
        Flushed(store, first + index, chunks, records, bytes);
        chunks, records, bytes := chunks + [records], [], 2;
      }
      Pushed(store, first + index, streaming, chunks, records, bytes);
      records := records + [record];
      bytes := bytes + size;
      index := index + 1;
    }
    ok := true;
  }

  /** After the last page a receiver gets what the open chunk still holds. */
  method LastChunk(ghost store: seq<Record>, streaming: bool, chunks: seq<seq<Record>>, records: seq<Record>,
                   ghost bytes: nat) returns (r: Export)
    requires Collected(store, |store|, streaming, chunks, records, bytes)
    ensures streaming ==> Flatten(r.chunks) == store && r.records == [] && AllGood(r.chunks)
    ensures !streaming ==> r.records == store && r.chunks == []
  {
    AllRead(store, streaming, chunks, records, bytes);
    r := Export(records, chunks);
    if streaming && records != [] {
      Flushed(store, |store|, chunks, records, bytes);
      AllRead(store, true, chunks + [records], [], 2);
      r := Export([], chunks + [records]);
    }
  }

  // ------------------------------------------------------------------ the receiver

  /** UTF-8 length of {"id":…,"records":…} around a chunk, for an id of `digits` decimal digits. */
  function PayloadBytes(digits: nat, chunk: seq<Record>): nat {
    6 + digits + 11 + JsonBytes(chunk) + 1
  }

  /** Number.isSafeInteger: at most 9007199254740991, which has 16 digits. */
  const SAFE_DIGITS := 16

  /** Both size checks of the receiver pass. */
  predicate Accepts(digits: nat, chunk: seq<Record>) {
    PayloadBytes(digits, chunk) <= MAX_BYTES + PAYLOAD_SLACK && JsonBytes(chunk) <= MAX_BYTES
  }

  /** The receiver takes every chunk, whatever id it arrives under. */
  predicate AllAccepted(chunks: seq<seq<Record>>) {
    forall chunk <- chunks, digits: nat :: digits <= SAFE_DIGITS ==> Accepts(digits, chunk)
  }

  lemma {:induction false} ReceiverAcceptsEveryChunk(chunks: seq<seq<Record>>)
    requires AllGood(chunks)
    ensures AllAccepted(chunks)
  {
    forall chunk, digits: nat | chunk in chunks && digits <= SAFE_DIGITS
      ensures Accepts(digits, chunk)
    {
      assert GoodChunk(chunk);
    }
  }

  /**
   Reads the store page by page. With a receiver, the chunks concatenate to the whole
   store, once and in key order, each within the limits and accepted; the export fails
   exactly when some record alone exceeds the limit. Without one, the result holds every
   record.
   */
  method ExportStore(store: seq<Record>, streaming: bool) returns (r: Option<Export>)
    requires Sorted(store)
    ensures r.None? <==> streaming && !Fits(store, |store|)
    ensures r.Some? && streaming ==>
              Flatten(r.value.chunks) == store && r.value.records == [] && AllGood(r.value.chunks)
    ensures r.Some? && streaming ==> AllAccepted(r.value.chunks)
    ensures r.Some? && !streaming ==> r.value.records == store && r.value.chunks == []
  {
    var records: seq<Record>, chunks: seq<seq<Record>> := [], [];
    var bytes: nat := 2;
    var lower: Option<int> := None;
    var more := true;
    ghost var n := 0;
    while more
      invariant 0 <= n <= |store| && lower == BoundAfter(store, n)
      invariant Collected(store, n, streaming, chunks, records, bytes)
      invariant !more ==> n == |store|
      decreases |store| - n, more
    {
      var page;
      page, lower := ReadPage(store, lower, n);
      more := |page| == PAGE;
      var ok;
      ok, chunks, records, bytes := AddPage(store, n, streaming, page, chunks, records, bytes);
      if !ok {
        return None;
      }
      n := n + |page|;
    }
    var whole := LastChunk(store, streaming, chunks, records, bytes);
    if streaming {
      ReceiverAcceptsEveryChunk(whole.chunks);
    }
    return Some(whole);
  }
}
