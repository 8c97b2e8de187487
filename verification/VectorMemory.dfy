/** Texts cut into overlapping chunks, stored, and put together again (memory/vector.py). */
module VectorMemory {
  import opened Common
  import opened Sorting

  // ---- Chunking ---------------------------------------------------------------------------------

  function Max(a: int, b: int): int {
    if a >= b then a else b
  }

  function Min(a: int, b: int): int {
    if a <= b then a else b
  }

  function ClampOverlap(size: int, overlap: int): int {
    Min(Max(overlap, 0), size - 1)
  }

  // The chunks from `start` on; each begins `step` after the one before.
  function ChunksFrom(text: string, start: nat, size: nat, step: nat): seq<string>
    requires start < |text| && 1 <= step <= size
    decreases |text| - start
  {
    var end := Min(start + size, |text|);
    [text[start..end]] + if end == |text| then [] else ChunksFrom(text, start + step, size, step)
  }

  function Chunks(text: string, size: int, overlap: int): seq<string> {
    if |text| <= size || size <= 0 then [text]
    else ChunksFrom(text, 0, size, size - ClampOverlap(size, overlap))
  }

  /** `_chunk_text` */
  method ChunkText(text: string, size: int, overlap: int) returns (chunks: seq<string>)
    ensures chunks == Chunks(text, size, overlap)
  {
    if |text| <= size || size <= 0 {
      return [text];
    }
    chunks := [];
    var start := 0;
    var step := size - ClampOverlap(size, overlap);
    while start < |text|
      invariant 0 <= start < |text|
      invariant Chunks(text, size, overlap) == chunks + ChunksFrom(text, start, size, step)
      decreases |text| - start
    {
      var end := Min(start + size, |text|);
      chunks := chunks + [text[start..end]];
      if end == |text| {
        break;
      }
      start := start + step;
    }
  }

  // Chunk i is full, and the next one begins with its last o characters and has more.
  predicate GoesOn(chunks: seq<string>, size: nat, o: nat, i: nat)
    requires o < size && i + 1 < |chunks|
  {
    |chunks[i]| == size && o < |chunks[i + 1]| <= size && chunks[i + 1][..o] == chunks[i][size - o..]
  }

  // Each chunk goes on with the one before.
  predicate Overlapping(chunks: seq<string>, size: nat, o: nat)
    requires o < size
  {
    forall i: nat :: i + 1 < |chunks| ==> GoesOn(chunks, size, o, i)
  }

  lemma {:induction false} PartOfPart(text: string, start: nat, skip: nat, end: nat)
    requires start + skip <= end <= |text|
    ensures text[start..end][skip..] == text[start + skip..end]
  {
  }

  lemma {:induction false} ChunksOverlap(text: string, start: nat, size: nat, o: nat)
    requires o < size && start + o < |text|
    ensures var chunks := ChunksFrom(text, start, size, size - o);
            chunks != [] && Overlapping(chunks, size, o) && chunks[0] == text[start..Min(start + size, |text|)]
    decreases |text| - start
  {
    var end := Min(start + size, |text|);
    if end < |text| {
      var next := start + size - o;
      var chunks, later := ChunksFrom(text, start, size, size - o), ChunksFrom(text, next, size, size - o);
      ChunksOverlap(text, next, size, o);
      assert chunks == [text[start..end]] + later;
      forall i: nat | i + 1 < |chunks|
        ensures GoesOn(chunks, size, o, i)
      {
        if i > 0 {
          assert GoesOn(later, size, o, i - 1);
        } else {
          PartOfPart(text, start, size - o, end);
          assert text[next..Min(next + size, |text|)][..o] == text[next..next + o];
        }
      }
    }
  }

  /** A text that is not longer than the size is one chunk, and so is any text for a size below one. A
      longer one is cut into chunks of that size, the last of which may be shorter, and each begins with as
      much of the end of the one before as was asked for: at least nothing, at most all but one character. */
  lemma {:induction false} ChunksFit(text: string, size: int, overlap: int)
    ensures var chunks := Chunks(text, size, overlap);
            if size <= 0 || |text| <= size then chunks == [text]
            else
              var o := if overlap <= 0 then 0 else if overlap >= size then size - 1 else overlap;
              |chunks| >= 2 && Overlapping(chunks, size, o)
  {
    if size > 0 && |text| > size {
      ChunksOverlap(text, 0, size, ClampOverlap(size, overlap));
    }
  }

  // ---- Reassembling -----------------------------------------------------------------------------

  // What a chunk adds to the text before it.
  function NewPart(doc: string, overlap: nat): string {
    if |doc| > overlap then doc[overlap..] else ""
  }

  function NewParts(docs: seq<string>, overlap: nat): string {
    if docs == [] then "" else NewPart(docs[0], overlap) + NewParts(docs[1..], overlap)
  }

  lemma {:induction false} NextPart(docs: seq<string>, i: nat, overlap: nat, before: string)
    requires i < |docs|
    ensures before + NewParts(docs[i..], overlap)
            == (before + NewPart(docs[i], overlap)) + NewParts(docs[i + 1..], overlap)
  {
    assert docs[i..][1..] == docs[i + 1..];
  }

  function Reassembled(docs: seq<string>, overlap: nat): string {
    if docs == [] then "" else docs[0] + NewParts(docs[1..], overlap)
  }

  lemma {:induction false} CutAt(text: string, start: nat, middle: nat)
    requires start <= middle <= |text|
    ensures text[start..middle] + text[middle..] == text[start..]
  {
  }

  lemma {:induction false} LaterChunks(text: string, start: nat, size: nat, overlap: nat)
    requires overlap < size && start + overlap < |text|
    ensures NewParts(ChunksFrom(text, start, size, size - overlap), overlap) == text[start + overlap..]
    decreases |text| - start
  {
    var end := Min(start + size, |text|);
    var chunks := ChunksFrom(text, start, size, size - overlap);
    PartOfPart(text, start, overlap, end);
    if end == |text| {
      assert NewParts(chunks[1..], overlap) == "";
    } else {
      var next := start + size - overlap;
      LaterChunks(text, next, size, overlap);
      CutAt(text, start + overlap, end);
      assert chunks[1..] == ChunksFrom(text, next, size, size - overlap);
    }
  }

  /** Chunking and reassembling is the identity, for every text, every size of at least one and
      every requested overlap. */
  lemma {:induction false} ReassembleChunks(text: string, size: int, overlap: int)
    requires size >= 1
    ensures Reassembled(Chunks(text, size, overlap), ClampOverlap(size, overlap)) == text
  {
    if |text| <= size {
      assert NewParts([text][1..], ClampOverlap(size, overlap)) == "";
    } else {
      var o := ClampOverlap(size, overlap);
      var chunks := Chunks(text, size, overlap);
      LaterChunks(text, size - o, size, o);
      CutAt(text, 0, size);
      assert chunks[1..] == ChunksFrom(text, size - o, size, size - o);
    }
  }

  // ---- Records ----------------------------------------------------------------------------------

  datatype Record = Record(scope: string, key: string, index: int, size: Option<int>, overlap: Option<int>,
                           document: string)

  function RecordsOf(scope: string, key: string, chunks: seq<string>, size: int, overlap: int): (r: seq<Record>)
    ensures |r| == |chunks|
  {
    seq(|chunks|, i requires 0 <= i < |chunks| => Record(scope, key, i, Some(size), Some(overlap), chunks[i]))
  }

  predicate Matches(r: Record, scope: string, key: string) {
    r.scope == scope && r.key == key
  }

  function Matching(records: seq<Record>, scope: string, key: string): seq<Record>
    decreases |records|
  {
    if records == [] then []
    else
      Matching(records[..|records| - 1], scope, key)
      + if Matches(records[|records| - 1], scope, key) then [records[|records| - 1]] else []
  }

  function Without(records: seq<Record>, drop: Record -> bool): seq<Record>
    decreases |records|
  {
    if records == [] then []
    else
      Without(records[..|records| - 1], drop)
      + if drop(records[|records| - 1]) then [] else [records[|records| - 1]]
  }

  lemma {:induction false} MatchingAppend(xs: seq<Record>, ys: seq<Record>, scope: string, key: string)
    ensures Matching(xs + ys, scope, key) == Matching(xs, scope, key) + Matching(ys, scope, key)
    decreases |ys|
  {
    if ys == [] {
      assert xs + ys == xs;
    } else {
      assert (xs + ys)[..|xs + ys| - 1] == xs + ys[..|ys| - 1];
      MatchingAppend(xs, ys[..|ys| - 1], scope, key);
    }
  }

  lemma {:induction false} MatchingAll(records: seq<Record>, scope: string, key: string, here: bool)
    requires forall r :: r in records ==> Matches(r, scope, key) == here
    ensures Matching(records, scope, key) == if here then records else []
    decreases |records|
  {
    if records != [] {
      var before, last := records[..|records| - 1], records[|records| - 1];
      assert last in records && forall r :: r in before ==> r in records;
      MatchingAll(before, scope, key, here);
      assert records == before + [last];
    }
  }

  lemma {:induction false} MatchingWithout(records: seq<Record>, drop: Record -> bool, scope: string, key: string,
                                           gone: bool)
    requires forall r :: Matches(r, scope, key) ==> drop(r) == gone
    ensures Matching(Without(records, drop), scope, key) == if gone then [] else Matching(records, scope, key)
    decreases |records|
  {
    if records != [] {
      var before, last := records[..|records| - 1], records[|records| - 1];
      MatchingWithout(before, drop, scope, key, gone);
      assert Matches(last, scope, key) ==> drop(last) == gone;
      if drop(last) {
        assert Without(records, drop) == Without(before, drop);
      } else {
        MatchingAppend(Without(before, drop), [last], scope, key);
        assert Matching([last], scope, key) == (if Matches(last, scope, key) then [last] else []) by {
          assert [last][..0] == [];
        }
      }
    }
  }

  // `chunk_index`, by which a read sorts what comes back
  function IndexOf(r: Record): int {
    r.index
  }

  // ---- The chunk configuration a read uses ------------------------------------------------------

  // `_resolve_chunk_config`
  function ResolveConfig(record: Record, size: int, overlap: int): (int, int) {
    var s := if record.size.Some? && record.size.value > 0 then record.size.value else size;
    var o := if record.overlap.Some? then Max(record.overlap.value, 0) else Max(overlap, 0);
    (s, Min(o, s - 1))
  }

  // The text that a read puts together from sorted records.
  function TextOf(sorted: seq<Record>, size: int, overlap: int): string
    requires sorted != []
  {
    var (s, o) := ResolveConfig(sorted[0], size, overlap);
    Reassembled(Documents(sorted), Max(s - Max(s - o, 1), 0))
  }

  function Documents(records: seq<Record>): (docs: seq<string>)
    ensures |docs| == |records|
  {
    seq(|records|, i requires 0 <= i < |records| => records[i].document)
  }

  // ---- The store --------------------------------------------------------------------------------

  // What was written under a scope and key, and with which configuration.
  datatype Entry = Entry(text: string, size: int, overlap: int)

  predicate WellConfigured(size: int, overlap: int) {
    0 <= overlap < size
  }

  function EntryRecords(scope: string, key: string, e: Entry): seq<Record> {
    RecordsOf(scope, key, Chunks(e.text, e.size, e.overlap), e.size, e.overlap)
  }

  /** The records of an entry give back its text, in whatever order the database returns them and
      whatever the configuration of the store that reads them. */
  lemma {:induction false} RecordsHoldTheText(scope: string, key: string, e: Entry, returned: seq<Record>,
          size: int, overlap: int)
    requires WellConfigured(e.size, e.overlap) && multiset(returned) == multiset(EntryRecords(scope, key, e))
    ensures SortBy(returned, IndexOf) != [] && TextOf(SortBy(returned, IndexOf), size, overlap) == e.text
  {
    var records := EntryRecords(scope, key, e);
    SortSorts(returned, IndexOf);
    assert StrictlySorted(records, IndexOf);
    SortedIsUnique(SortBy(returned, IndexOf), records, IndexOf);
    assert Documents(records) == Chunks(e.text, e.size, e.overlap);
    ReassembleChunks(e.text, e.size, e.overlap);
  }

  function Expected(contents: map<(string, string), Entry>, scope: string, key: string): seq<Record> {
    if (scope, key) in contents then EntryRecords(scope, key, contents[(scope, key)]) else []
  }

  // The records are those of the contents.
  ghost predicate Holds(records: seq<Record>, contents: map<(string, string), Entry>) {
    && (forall at :: at in contents ==> WellConfigured(contents[at].size, contents[at].overlap))
    && (forall scope, key :: Matching(records, scope, key) == Expected(contents, scope, key))
  }

  lemma {:induction false} RecordsMatch(scope: string, key: string, e: Entry)
    ensures forall r :: r in EntryRecords(scope, key, e) ==> Matches(r, scope, key)
  {
  }

  lemma {:induction false} WriteAt(records: seq<Record>, scope: string, key: string, e: Entry, drop: Record -> bool,
                                   s: string, k: string)
    requires forall r :: drop(r) == Matches(r, scope, key)
    ensures Matching(Without(records, drop) + EntryRecords(scope, key, e), s, k)
            == if s == scope && k == key then EntryRecords(scope, key, e) else Matching(records, s, k)
  {
    var added := EntryRecords(scope, key, e);
    var here := s == scope && k == key;
    MatchingAppend(Without(records, drop), added, s, k);
    MatchingWithout(records, drop, s, k, here);
    RecordsMatch(scope, key, e);
    forall r | r in added
      ensures Matches(r, s, k) == here
    {
      assert Matches(r, scope, key);
    }
    MatchingAll(added, s, k, here);
  }

  lemma {:induction false} WriteHolds(records: seq<Record>, contents: map<(string, string), Entry>, scope: string,
                                      key: string, e: Entry, drop: Record -> bool)
    requires Holds(records, contents) && WellConfigured(e.size, e.overlap)
    requires forall r :: drop(r) == Matches(r, scope, key)
    ensures Holds(Without(records, drop) + EntryRecords(scope, key, e), contents[(scope, key) := e])
  {
    forall s, k
      ensures Matching(Without(records, drop) + EntryRecords(scope, key, e), s, k)
              == Expected(contents[(scope, key) := e], s, k)
    {
      WriteAt(records, scope, key, e, drop, s, k);
    }
  }

  lemma {:induction false} ResetHolds(records: seq<Record>, contents: map<(string, string), Entry>, scope: string,
                                      drop: Record -> bool)
    requires Holds(records, contents)
    requires forall r :: drop(r) == (r.scope == scope)
    ensures Holds(Without(records, drop), map at | at in contents && at.0 != scope :: contents[at])
  {
    var left := map at | at in contents && at.0 != scope :: contents[at];
    forall s, k
      ensures Matching(Without(records, drop), s, k) == Expected(left, s, k)
    {
      MatchingWithout(records, drop, s, k, s == scope);
    }
  }

  // The collection of the database; several stores can share it.
  class Collection {
    var records: seq<Record>
    ghost var contents: map<(string, string), Entry>

    ghost predicate Valid()
      reads this
    {
      Holds(records, contents)
    }

    constructor ()
      ensures Valid() && contents == map[]
    {
      records, contents := [], map[];
    }

    method Delete(drop: Record -> bool)
      modifies this`records
      ensures records == Without(old(records), drop)
    {
      records := Without(records, drop);
    }

    method Add(added: seq<Record>)
      modifies this`records
      ensures records == old(records) + added
    {
      records := records + added;
    }
  }

  class VectorMemoryStore {
    const size: int
    const overlap: int
    const collection: Collection

    constructor (collection: Collection, size: int, overlap: int)
      ensures this.collection == collection && this.size == Max(size, 1)
      ensures this.overlap == ClampOverlap(this.size, overlap) && WellConfigured(this.size, this.overlap)
    {
      this.collection, this.size := collection, Max(size, 1);
      this.overlap := Min(Max(overlap, 0), Max(size, 1) - 1);
    }

    /** `write` */
    method Write(key: string, text: string, scope: string)
      requires collection.Valid() && WellConfigured(size, overlap)
      modifies collection
      ensures collection.Valid()
      ensures collection.contents == old(collection.contents)[(scope, key) := Entry(text, size, overlap)]
    {
      var chunks := ChunkText(text, size, overlap);
      var added := BuildRecords(key, scope, chunks);
      var drop := (r: Record) => Matches(r, scope, key);
      WriteHolds(collection.records, collection.contents, scope, key, Entry(text, size, overlap), drop);
      collection.Delete(drop);
      collection.Add(added);
      collection.contents := collection.contents[(scope, key) := Entry(text, size, overlap)];
    }

    method BuildRecords(key: string, scope: string, chunks: seq<string>) returns (added: seq<Record>)
      ensures added == RecordsOf(scope, key, chunks, size, overlap)
    {
      added := [];
      for i := 0 to |chunks|
        invariant |added| == i
        invariant forall j :: 0 <= j < i ==> added[j] == Record(scope, key, j, Some(size), Some(overlap), chunks[j])
      {
        added := added + [Record(scope, key, i, Some(size), Some(overlap), chunks[i])];
      }
    }

    /** `read`: whatever the order in which the database returns the chunks, and whatever the
        configuration of the reading store, the text is the one last written. */
    method Read(key: string, scope: string, returned: seq<Record>) returns (text: Option<string>)
      requires collection.Valid() && WellConfigured(size, overlap)
      requires multiset(returned) == multiset(Matching(collection.records, scope, key))
      ensures text == if (scope, key) in collection.contents then Some(collection.contents[(scope, key)].text) else None
    {
      SameSize(returned, Matching(collection.records, scope, key));
      if returned == [] {
        NeverEmpty(collection, scope, key);
        return None;
      }
      RecordsHoldTheText(scope, key, collection.contents[(scope, key)], returned, size, overlap);
      var sorted := SortBy(returned, IndexOf);
      var (s, o) := ResolveConfig(sorted[0], size, overlap);
      var step := Max(s - o, 1);
      var joined := JoinDocuments(Documents(sorted), Max(s - step, 0));
      text := Some(joined);
    }

    method JoinDocuments(docs: seq<string>, overlapSize: nat) returns (text: string)
      requires docs != []
      ensures text == Reassembled(docs, overlapSize)
    {
      text := docs[0];
      ghost var whole := Reassembled(docs, overlapSize);
      for i := 1 to |docs|
        invariant text + NewParts(docs[i..], overlapSize) == whole
      {
        NextPart(docs, i, overlapSize, text);
        text := AppendPart(text, docs[i], overlapSize);
      }
    }

    // A chunk that has nothing beyond the overlap adds nothing.
    method AppendPart(text: string, doc: string, overlapSize: nat) returns (longer: string)
      ensures longer == text + NewPart(doc, overlapSize)
    {
      longer := text;
      var newLength := |doc| - overlapSize;
      if newLength > 0 {
        longer := text + doc[|doc| - newLength..];
      }
    }

    /** `reset` */
    method Reset(scope: string)
      requires collection.Valid()
      modifies collection
      ensures collection.Valid()
      ensures collection.contents
              == map at | at in old(collection.contents) && at.0 != scope :: old(collection.contents)[at]
    {
      var drop := (r: Record) => r.scope == scope;
      ResetHolds(collection.records, collection.contents, scope, drop);
      collection.Delete(drop);
      collection.contents := map at | at in collection.contents && at.0 != scope :: collection.contents[at];
    }
  }

  lemma {:induction false} NeverEmpty(c: Collection, scope: string, key: string)
    requires c.Valid() && Matching(c.records, scope, key) == []
    ensures (scope, key) !in c.contents
  {
  }
}
