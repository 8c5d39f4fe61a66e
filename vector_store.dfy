/**
 * The bookkeeping of `EmbeddingStore` (backend/embeddings.py) around the
 * vector database: the ids and metadata `add_meeting` derives for a
 * meeting's chunks, the request and the post-filter of `search`, and
 * `delete_meeting`. The collection is a map from chunk id to the stored
 * document and its metadata; the embedding model and the nearest-neighbour
 * query are a caller-supplied `index`, which answers a request with its
 * candidates in rank order.
 */
module VectorStore {
  import opened Wrappers
  import opened Strings
  import Chunker

  /** The length of the text preview kept in each chunk's metadata. */
  const PreviewLength := 200

  datatype ChunkMeta = ChunkMeta(meetingId: int, chunkIndex: nat, preview: string)

  /** What the collection holds under one id. */
  datatype Entry = Entry(document: string, meta: ChunkMeta)

  // ================================================================ ids and metadata

  predicate NoUnderscore(s: string) {
    forall k :: 0 <= k < |s| ==> s[k] != '_'
  }

  /** `f"meeting_{meeting_id}_chunk_{i}"`. */
  function ChunkId(meetingId: int, i: nat): (id: string)
    ensures |id| > 15
  {
    "meeting_" + IntToString(meetingId) + "_chunk_" + NatToString(i)
  }

  /** `chunk[:200]`: the whole chunk when it is short, its first 200 characters otherwise. */
  function Preview(chunk: string): (p: string)
    ensures |p| <= PreviewLength && p <= chunk
    ensures |chunk| <= PreviewLength ==> p == chunk
    ensures |chunk| > PreviewLength ==> |p| == PreviewLength
  {
    if |chunk| <= PreviewLength then chunk else chunk[..PreviewLength]
  }

  /** Two joins around the separator agree only when both sides do, as long as the left parts contain no underscore. */
  lemma SplitAtSeparator(a: string, b: string, a2: string, b2: string)
    requires NoUnderscore(a) && NoUnderscore(a2)
    requires a + "_chunk_" + b == a2 + "_chunk_" + b2
    ensures a == a2 && b == b2
  {
    if |a| < |a2| {
      SeparatorAfterShorter(a, b, a2, b2);
    } else if |a2| < |a| {
      SeparatorAfterShorter(a2, b2, a, b);
    }
    var s := a + "_chunk_" + b;
    var s2 := a2 + "_chunk_" + b2;
    assert a == s[..|a|] && a2 == s2[..|a2|];
    assert b == s[|a| + 7..] && b2 == s2[|a2| + 7..];
  }

  /** The first underscore of such a join sits right after its left part. */
  lemma SeparatorAfterShorter(a: string, b: string, a2: string, b2: string)
    requires NoUnderscore(a2)
    requires |a| < |a2|
    ensures a + "_chunk_" + b != a2 + "_chunk_" + b2
  {
    assert (a + "_chunk_" + b)[|a|] == '_';
    assert (a2 + "_chunk_" + b2)[|a|] == a2[|a|];
  }

  /** Chunk ids are distinct: two ids agree exactly when meeting and chunk index do. */
  lemma ChunkIdInjective(m1: int, i1: nat, m2: int, i2: nat)
    ensures ChunkId(m1, i1) == ChunkId(m2, i2) <==> m1 == m2 && i1 == i2
  {
    if ChunkId(m1, i1) == ChunkId(m2, i2) {
      ChunkIdParts(m1, i1, m2, i2);
      IntToStringInjective(m1, m2);
      NatToStringInjective(i1, i2);
    }
  }

  /** Equal ids have equal meeting and index renderings. */
  lemma ChunkIdParts(m1: int, i1: nat, m2: int, i2: nat)
    requires ChunkId(m1, i1) == ChunkId(m2, i2)
    ensures IntToString(m1) == IntToString(m2) && NatToString(i1) == NatToString(i2)
  {
    IntToStringNoUnderscore(m1);
    IntToStringNoUnderscore(m2);
    IdParts(IntToString(m1), NatToString(i1), IntToString(m2), NatToString(i2));
  }

  /** The meeting and index parts of an id string can be read back, as long as the meeting part has no underscore. */
  lemma IdParts(a1: string, b1: string, a2: string, b2: string)
    requires NoUnderscore(a1) && NoUnderscore(a2)
    requires "meeting_" + a1 + "_chunk_" + b1 == "meeting_" + a2 + "_chunk_" + b2
    ensures a1 == a2 && b1 == b2
  {
    assert "meeting_" + a1 + "_chunk_" + b1 == "meeting_" + (a1 + "_chunk_" + b1);
    assert "meeting_" + a2 + "_chunk_" + b2 == "meeting_" + (a2 + "_chunk_" + b2);
    DropPrefix("meeting_", a1 + "_chunk_" + b1, a2 + "_chunk_" + b2);
    SplitAtSeparator(a1, b1, a2, b2);
  }

  lemma DropPrefix(p: string, t1: string, t2: string)
    requires p + t1 == p + t2
    ensures t1 == t2
  {
    assert t1 == (p + t1)[|p|..];
    assert t2 == (p + t2)[|p|..];
  }

  lemma IntToStringNoUnderscore(m: int)
    ensures NoUnderscore(IntToString(m))
  {
    var s := IntToString(m);
    forall k | 0 <= k < |s| ensures s[k] != '_' {
      assert s[k] == '-' || IsDigit(s[k]);
    }
  }

  /** The entries `add_meeting` stores for a meeting's chunks, by id. */
  function MeetingEntries(meetingId: int, chunks: seq<string>): (es: map<string, Entry>)
    ensures forall i :: 0 <= i < |chunks| ==> ChunkId(meetingId, i) in es
    ensures forall id :: id in es ==> exists i :: 0 <= i < |chunks| && id == ChunkId(meetingId, i)
  {
    forall i, j | 0 <= i < |chunks| && 0 <= j < |chunks| && ChunkId(meetingId, i) == ChunkId(meetingId, j)
      ensures i == j
    {
      ChunkIdInjective(meetingId, i, meetingId, j);
    }
    map i | 0 <= i < |chunks| :: ChunkId(meetingId, i) := Entry(chunks[i], ChunkMeta(meetingId, i, Preview(chunks[i])))
  }

  /**
   * The entry for chunk `i`: the chunk as the document, the meeting id, the
   * chunk's position, and the chunk's first at most 200 characters.
   */
  lemma MeetingEntryAt(meetingId: int, chunks: seq<string>, i: nat)
    requires i < |chunks|
    ensures ChunkId(meetingId, i) in MeetingEntries(meetingId, chunks)
    ensures MeetingEntries(meetingId, chunks)[ChunkId(meetingId, i)]
      == Entry(chunks[i], ChunkMeta(meetingId, i, Preview(chunks[i])))
  {
    var es := MeetingEntries(meetingId, chunks);
    var id := ChunkId(meetingId, i);
    var j :| 0 <= j < |chunks| && id == ChunkId(meetingId, j) && es[id] == Entry(chunks[j], ChunkMeta(meetingId, j, Preview(chunks[j])));
    ChunkIdInjective(meetingId, i, meetingId, j);
  }

  /** Every entry `add_meeting` stores for a meeting carries that meeting's id. */
  lemma MeetingEntriesOfMeeting(meetingId: int, chunks: seq<string>)
    ensures forall id :: id in MeetingEntries(meetingId, chunks) ==> MeetingEntries(meetingId, chunks)[id].meta.meetingId == meetingId
  {
    var es := MeetingEntries(meetingId, chunks);
    forall id | id in es ensures es[id].meta.meetingId == meetingId {
      var i :| 0 <= i < |chunks| && id == ChunkId(meetingId, i);
      MeetingEntryAt(meetingId, chunks, i);
    }
  }

  /** A meeting with `n` chunks gets exactly `n` ids. */
  lemma MeetingEntriesCount(meetingId: int, chunks: seq<string>)
    ensures |MeetingEntries(meetingId, chunks).Keys| == |chunks|
  {
    var es := MeetingEntries(meetingId, chunks);
    var ids := set i | 0 <= i < |chunks| :: ChunkId(meetingId, i);
    assert es.Keys == ids;
    IdsOfRangeCount(meetingId, |chunks|);
  }

  lemma {:induction false} IdsOfRangeCount(meetingId: int, n: nat)
    ensures |set i | 0 <= i < n :: ChunkId(meetingId, i)| == n
  {
    if n > 0 {
      IdsOfRangeCount(meetingId, n - 1);
      var smaller := set i | 0 <= i < n - 1 :: ChunkId(meetingId, i);
      var all := set i | 0 <= i < n :: ChunkId(meetingId, i);
      assert all == smaller + {ChunkId(meetingId, n - 1)};
      if ChunkId(meetingId, n - 1) in smaller {
        var j :| 0 <= j < n - 1 && ChunkId(meetingId, j) == ChunkId(meetingId, n - 1);
        ChunkIdInjective(meetingId, j, meetingId, n - 1);
        assert false;
      }
    }
  }

  /**
   * The collection after an `add` of `es`: an id already present keeps its
   * entry (the database ignores an add for an existing id), a new id gets
   * its entry, and nothing is removed.
   */
  function Added(coll: map<string, Entry>, es: map<string, Entry>): (r: map<string, Entry>)
    ensures r.Keys == coll.Keys + es.Keys
    ensures forall id :: id in coll ==> r[id] == coll[id]
    ensures forall id :: id in es && id !in coll ==> r[id] == es[id]
  {
    map id | id in coll.Keys + es.Keys :: if id in coll then coll[id] else es[id]
  }

  // ================================================================ delete

  /** `collection.get(where={"meeting_id": m})["ids"]`: the ids of every entry of the meeting. */
  function IdsOfMeeting(coll: map<string, Entry>, meetingId: int): (ids: set<string>)
    ensures forall id :: id in ids <==> id in coll && coll[id].meta.meetingId == meetingId
  {
    set id | id in coll && coll[id].meta.meetingId == meetingId
  }

  /** `collection.delete(ids=...)`: the ids go, every other entry stays as it was. */
  function Deleted(coll: map<string, Entry>, ids: set<string>): (r: map<string, Entry>)
    ensures r.Keys == coll.Keys - ids
    ensures forall id :: id in r ==> r[id] == coll[id]
  {
    map id | id in coll && id !in ids :: coll[id]
  }

  /** Every entry's id is the one `add_meeting` gives its meeting and position. */
  predicate IdsMatchEntries(coll: map<string, Entry>) {
    forall id :: id in coll ==> id == ChunkId(coll[id].meta.meetingId, coll[id].meta.chunkIndex)
  }

  /** Adding a meeting's entries keeps every id the one its entry calls for. */
  lemma AddedKeepsIds(coll: map<string, Entry>, meetingId: int, chunks: seq<string>)
    requires IdsMatchEntries(coll)
    ensures IdsMatchEntries(Added(coll, MeetingEntries(meetingId, chunks)))
  {
    var es := MeetingEntries(meetingId, chunks);
    var r := Added(coll, es);
    forall id | id in r ensures id == ChunkId(r[id].meta.meetingId, r[id].meta.chunkIndex) {
      if id !in coll {
        var i :| 0 <= i < |chunks| && id == ChunkId(meetingId, i);
        MeetingEntryAt(meetingId, chunks, i);
      }
    }
  }

  /**
   * Deleting a meeting right after adding it leaves what deleting it from
   * the collection before would have: the add leaves no trace once the
   * meeting is gone.
   */
  lemma DeleteUndoesAdd(coll: map<string, Entry>, meetingId: int, chunks: seq<string>)
    ensures var added := Added(coll, MeetingEntries(meetingId, chunks));
      Deleted(added, IdsOfMeeting(added, meetingId)) == Deleted(coll, IdsOfMeeting(coll, meetingId))
  {
    var es := MeetingEntries(meetingId, chunks);
    var added := Added(coll, es);
    var left := Deleted(added, IdsOfMeeting(added, meetingId));
    var right := Deleted(coll, IdsOfMeeting(coll, meetingId));
    MeetingEntriesOfMeeting(meetingId, chunks);
    assert left.Keys == right.Keys;
  }

  // ================================================================ search

  /** One candidate of the nearest-neighbour query: document, metadata and distance (absent when the database reports none). */
  datatype Hit = Hit(document: string, meta: ChunkMeta, distance: Option<real>)

  /** The query sent to the database: how many neighbours, and the meeting to restrict them to. */
  datatype QueryRequest = QueryRequest(nResults: int, whereMeeting: Option<int>)

  /**
   * The request `search` sends: three times `top_k` neighbours when more
   * than one meeting id is listed (they are filtered afterwards), `top_k`
   * otherwise; a single `meeting_id` becomes the database's equality filter.
   */
  function SearchRequest(meetingId: Option<int>, meetingIds: Option<seq<int>>, topK: int): (q: QueryRequest)
    ensures q.whereMeeting == meetingId
    ensures meetingIds.Some? && |meetingIds.value| > 1 ==> q.nResults == 3 * topK
    ensures !(meetingIds.Some? && |meetingIds.value| > 1) ==> q.nResults == topK
  {
    var fetch := if meetingIds.Some? && |meetingIds.value| > 1 then topK * 3 else topK;
    QueryRequest(fetch, meetingId)
  }

  /** The meetings results are kept for: the listed ids, or every meeting when the list is absent or empty. */
  function AllowedMeetings(meetingIds: Option<seq<int>>): (allowed: Option<set<int>>)
    ensures allowed.Some? <==> meetingIds.Some? && meetingIds.value != []
    ensures allowed.Some? ==> forall m :: m in allowed.value <==> m in meetingIds.value
  {
    if meetingIds.Some? && meetingIds.value != [] then Some(set m | m in meetingIds.value) else None
  }

  predicate Admits(allowed: Option<set<int>>, h: Hit) {
    allowed.None? || h.meta.meetingId in allowed.value
  }

  /** The candidates the filter admits, in rank order. */
  function Admitted(hits: seq<Hit>, allowed: Option<set<int>>): (r: seq<Hit>)
    ensures |r| <= |hits|
    ensures forall k :: 0 <= k < |r| ==> Admits(allowed, r[k]) && r[k] in hits
  {
    if hits == [] then []
    else if Admits(allowed, hits[0]) then [hits[0]] + Admitted(hits[1..], allowed)
    else Admitted(hits[1..], allowed)
  }

  /**
   * What the filter loop returns: the admitted candidates in rank order,
   * cut off once `top_k` are kept. The check for enough results follows the
   * append, so a `top_k` of zero or less still keeps the first admitted one.
   */
  function SearchResults(hits: seq<Hit>, allowed: Option<set<int>>, topK: int): seq<Hit> {
    var admitted := Admitted(hits, allowed);
    var limit := if topK < 1 then 1 else topK;
    if |admitted| <= limit then admitted else admitted[..limit]
  }

  /**
   * The results are admitted candidates in their rank order, a prefix of
   * all admitted ones, at most `top_k` of them (one when `top_k` is below
   * one), and fewer only when the candidates run out.
   */
  lemma SearchResultsShape(hits: seq<Hit>, allowed: Option<set<int>>, topK: int)
    ensures var r := SearchResults(hits, allowed, topK);
      && r <= Admitted(hits, allowed)
      && |r| <= (if topK < 1 then 1 else topK)
      && (|r| < topK ==> r == Admitted(hits, allowed))
      && forall k :: 0 <= k < |r| ==> Admits(allowed, r[k]) && r[k] in hits
  {
  }

  /** Filtering keeps the candidates' order: filtering a concatenation is filtering each part. */
  lemma {:induction false} AdmittedConcat(hits: seq<Hit>, more: seq<Hit>, allowed: Option<set<int>>)
    ensures Admitted(hits + more, allowed) == Admitted(hits, allowed) + Admitted(more, allowed)
  {
    if hits == [] {
      assert hits + more == more;
    } else {
      assert (hits + more)[0] == hits[0];
      assert (hits + more)[1..] == hits[1..] + more;
      AdmittedConcat(hits[1..], more, allowed);
    }
  }

  lemma {:induction false} AdmittedAll(hits: seq<Hit>, allowed: Option<set<int>>)
    requires forall k :: 0 <= k < |hits| ==> Admits(allowed, hits[k])
    ensures Admitted(hits, allowed) == hits
  {
    if hits != [] {
      AdmittedAll(hits[1..], allowed);
    }
  }

  /** The filter loop of `search`, stopping at the first append that reaches `top_k`. */
  method FilterHits(hits: seq<Hit>, allowed: Option<set<int>>, topK: int) returns (results: seq<Hit>)
    ensures results == SearchResults(hits, allowed, topK)
  {
    results := [];
    var i := 0;
    while i < |hits|
      invariant 0 <= i <= |hits|
      invariant results == Admitted(hits[..i], allowed)
      invariant |results| < (if topK < 1 then 1 else topK)
    {
      AdmittedAppend(hits[..i], hits[i], allowed);
      assert hits[..i + 1] == hits[..i] + [hits[i]];
      if Admits(allowed, hits[i]) {
        results := results + [hits[i]];
        if |results| >= topK {
          EnoughResults(hits, i + 1, allowed, topK);
          return;
        }
      }
      i := i + 1;
    }
    assert hits[..i] == hits;
  }

  /** Once the candidates seen so far give `top_k` results (one when `top_k` is below one), they are the search results. */
  lemma EnoughResults(hits: seq<Hit>, n: nat, allowed: Option<set<int>>, topK: int)
    requires n <= |hits|
    requires |Admitted(hits[..n], allowed)| == (if topK < 1 then 1 else topK)
    ensures Admitted(hits[..n], allowed) == SearchResults(hits, allowed, topK)
  {
    AdmittedPrefix(hits, n, allowed);
  }

  lemma {:induction false} AdmittedAppend(hits: seq<Hit>, h: Hit, allowed: Option<set<int>>)
    ensures Admitted(hits + [h], allowed) == Admitted(hits, allowed) + (if Admits(allowed, h) then [h] else [])
  {
    if hits == [] {
      assert [h][1..] == [];
    } else {
      assert (hits + [h])[1..] == hits[1..] + [h];
      AdmittedAppend(hits[1..], h, allowed);
    }
  }

  /** The admitted candidates of a prefix are a prefix of the admitted candidates. */
  lemma {:induction false} AdmittedPrefix(hits: seq<Hit>, n: nat, allowed: Option<set<int>>)
    requires n <= |hits|
    ensures Admitted(hits[..n], allowed) <= Admitted(hits, allowed)
  {
    if n > 0 {
      assert hits[..n][1..] == hits[1..][..n - 1];
      AdmittedPrefix(hits[1..], n - 1, allowed);
    }
  }

  /**
   * `search`: the request built from the arguments goes to the index, and
   * its candidates are filtered and cut off. The query embedding is the
   * index's business.
   */
  method Search(index: QueryRequest -> seq<Hit>, meetingId: Option<int>, meetingIds: Option<seq<int>>, topK: int)
    returns (results: seq<Hit>)
    ensures results == SearchResults(index(SearchRequest(meetingId, meetingIds, topK)), AllowedMeetings(meetingIds), topK)
  {
    var request := SearchRequest(meetingId, meetingIds, topK);
    var hits := index(request);
    results := [];
    if |hits| > 0 {
      results := FilterHits(hits, AllowedMeetings(meetingIds), topK);
    }
  }

  /**
   * With a list of meeting ids, every result belongs to one of them; with a
   * single meeting id and an index that honours its filter, every result
   * belongs to that meeting.
   */
  lemma SearchScope(index: QueryRequest -> seq<Hit>, meetingId: Option<int>, meetingIds: Option<seq<int>>, topK: int)
    requires meetingId.Some? ==> forall h :: h in index(SearchRequest(meetingId, meetingIds, topK)) ==> h.meta.meetingId == meetingId.value
    ensures var r := SearchResults(index(SearchRequest(meetingId, meetingIds, topK)), AllowedMeetings(meetingIds), topK);
      && (meetingIds.Some? && meetingIds.value != [] ==> forall k :: 0 <= k < |r| ==> r[k].meta.meetingId in meetingIds.value)
      && (meetingId.Some? ==> forall k :: 0 <= k < |r| ==> r[k].meta.meetingId == meetingId.value)
  {
    SearchResultsShape(index(SearchRequest(meetingId, meetingIds, topK)), AllowedMeetings(meetingIds), topK);
  }

  // ================================================================ the store

  /** The vector store: the collection of chunk entries by id. */
  class EmbeddingStore {
    var collection: map<string, Entry>

    /** An empty collection. */
    constructor ()
      ensures collection == map[]
    {
      collection := map[];
    }

    /**
     * `add_meeting`: the given chunks, or the transcript's own chunks when
     * none are given, stored under the meeting's chunk ids. The transcript is
     * cut by the window loop with the start forced forward; where every
     * window of the loop as written moves the start forward, those are the
     * chunks the loop as written gives.
     */
    method AddMeeting(meetingId: int, transcriptText: string, chunks: Option<seq<string>>)
      modifies this
      ensures var cs := if chunks.Some? then chunks.value else Chunker.ChunkSpec(transcriptText);
        collection == Added(old(collection), MeetingEntries(meetingId, cs))
      ensures chunks.None? && Chunker.AllAdvance(transcriptText, 0) ==>
        Chunker.ChunkAsWritten(transcriptText, |transcriptText|).Some? &&
        collection == Added(old(collection), MeetingEntries(meetingId, Chunker.ChunkAsWritten(transcriptText, |transcriptText|).value))
    {
      var cs: seq<string>;
      if chunks.None? {
        cs := Chunker.ChunkText(transcriptText);
        if Chunker.AllAdvance(transcriptText, 0) {
          Chunker.ChunkAsWrittenAgrees(transcriptText, |transcriptText|);
        }
      } else {
        cs := chunks.value;
      }
      collection := Added(collection, MeetingEntries(meetingId, cs));
    }

    /**
     * `delete_meeting`: every entry of the meeting goes and every other one
     * stays. When the database fails (`dbFails`), the error is logged and
     * swallowed and the collection is as it was.
     */
    method DeleteMeeting(meetingId: int, dbFails: bool)
      modifies this
      ensures dbFails ==> collection == old(collection)
      ensures !dbFails ==> collection == Deleted(old(collection), IdsOfMeeting(old(collection), meetingId))
    {
      if dbFails {
        return;
      }
      var ids := IdsOfMeeting(collection, meetingId);
      if ids != {} {
        collection := Deleted(collection, ids);
      } else {
        assert Deleted(collection, ids) == collection;
      }
    }
  }

  /** Deleting a meeting removes exactly its entries. */
  lemma DeleteMeetingExact(coll: map<string, Entry>, meetingId: int)
    ensures var r := Deleted(coll, IdsOfMeeting(coll, meetingId));
      && (forall id :: id in r <==> id in coll && coll[id].meta.meetingId != meetingId)
      && (forall id :: id in r ==> r[id] == coll[id])
  {
  }
}
