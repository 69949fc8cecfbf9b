/**
 * The history log: past generation results, newest first. A successful generation
 * prepends one entry; deleting by id keeps every entry whose id differs, in order,
 * so it removes every entry carrying that id.
 */
module History {
  import opened Wrappers
  import opened Json
  import opened Normalize

  datatype HistoryEntry = HistoryEntry(
    id: string,
    timestamp: string,
    productName: string,
    videos: seq<Json>,
    researchSummary: Option<ResearchSummary>,
    contentStrategyNotes: string,
    visualStyleRecommendations: string)

  /** The entry recorded for a successful manager answer `data`. */
  function EntryFor(id: string, timestamp: string, productName: string, data: Json): (e: HistoryEntry)
    ensures e.id == id && e.timestamp == timestamp && e.productName == productName
    ensures e.videos == NormalizeManager(data).videos
    ensures e.researchSummary == NormalizeResearch(data)
    ensures e.contentStrategyNotes == NormalizeManager(data).contentStrategyNotes
    ensures e.visualStyleRecommendations == NormalizeManager(data).visualStyleRecommendations
  {
    var m := NormalizeManager(data);
    HistoryEntry(id, timestamp, productName, m.videos, NormalizeResearch(data),
                 m.contentStrategyNotes, m.visualStyleRecommendations)
  }

  /** `[entry, ...history]`: the new entry goes in front and the older ones follow in their order. */
  function Prepend(h: seq<HistoryEntry>, e: HistoryEntry): (r: seq<HistoryEntry>)
    ensures |r| == |h| + 1 && r[0] == e && r[1..] == h
  {
    [e] + h
  }

  /** `h.filter(e => e.id !== id)`. */
  function Delete(h: seq<HistoryEntry>, id: string): (r: seq<HistoryEntry>)
    ensures |r| <= |h|
    ensures forall k :: 0 <= k < |r| ==> r[k].id != id
    ensures forall e :: e in r ==> e in h
    ensures forall e :: e in h && e.id != id ==> e in r
  {
    if h == [] then []
    else if h[0].id == id then Delete(h[1..], id)
    else [h[0]] + Delete(h[1..], id)
  }

  /** How many entries of `h` carry `id`. */
  function CountId(h: seq<HistoryEntry>, id: string): nat {
    if h == [] then 0 else (if h[0].id == id then 1 else 0) + CountId(h[1..], id)
  }

  predicate HasId(h: seq<HistoryEntry>, id: string) {
    exists k :: 0 <= k < |h| && h[k].id == id
  }

  /** Deleting distributes over concatenation, so the survivors keep their relative order. */
  lemma {:induction false} DeleteAppend(a: seq<HistoryEntry>, b: seq<HistoryEntry>, id: string)
    ensures Delete(a + b, id) == Delete(a, id) + Delete(b, id)
  {
    if a == [] {
      assert a + b == b;
    } else {
      assert (a + b)[1..] == a[1..] + b;
      DeleteAppend(a[1..], b, id);
    }
  }

  /** Deleting an id no entry carries leaves the log unchanged. */
  lemma {:induction false} DeleteAbsent(h: seq<HistoryEntry>, id: string)
    requires !HasId(h, id)
    ensures Delete(h, id) == h
  {
    if h != [] {
      assert h[0].id != id;
      assert !HasId(h[1..], id) by {
        forall k | 0 <= k < |h[1..]| ensures h[1..][k].id != id {
          assert h[1..][k] == h[k + 1];
        }
      }
      DeleteAbsent(h[1..], id);
      assert h == [h[0]] + h[1..];
    }
  }

  /** The log shrinks by exactly the number of entries with the id: all of them go. */
  lemma {:induction false} DeleteCount(h: seq<HistoryEntry>, id: string)
    ensures |Delete(h, id)| == |h| - CountId(h, id)
    ensures CountId(Delete(h, id), id) == 0
  {
    if h != [] {
      DeleteCount(h[1..], id);
      if h[0].id != id {
        assert ([h[0]] + Delete(h[1..], id))[1..] == Delete(h[1..], id);
      }
    }
  }

  /** Deleting twice is deleting once. */
  lemma DeleteIdempotent(h: seq<HistoryEntry>, id: string)
    ensures Delete(Delete(h, id), id) == Delete(h, id)
  {
    DeleteAbsent(Delete(h, id), id);
  }

  /**
   * Newest first: after prepending `e1` and then `e2`, the log starts `e2, e1`,
   * and deleting `e2`'s id (carried by no other entry) gives back `e1` followed by
   * the old log.
   */
  lemma PrependThenDelete(h: seq<HistoryEntry>, e1: HistoryEntry, e2: HistoryEntry)
    requires e2.id != e1.id && !HasId(h, e2.id)
    ensures Prepend(Prepend(h, e1), e2)[..2] == [e2, e1]
    ensures Delete(Prepend(Prepend(h, e1), e2), e2.id) == Prepend(h, e1)
  {
    var log := [e2] + ([e1] + h);
    assert log[1..] == [e1] + h;
    assert !HasId([e1] + h, e2.id) by {
      forall k | 0 <= k < |[e1] + h| ensures ([e1] + h)[k].id != e2.id {
        if k > 0 { assert ([e1] + h)[k] == h[k - 1]; }
      }
    }
    DeleteAbsent([e1] + h, e2.id);
  }
}
