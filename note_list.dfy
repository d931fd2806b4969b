/**
 * The cached list of notes that both notes slices keep, and the array
 * operations their reducers apply to it: `findIndex` by `note_id` followed by
 * an indexed assignment (update), and `filter` by `note_id` (delete).
 * Ids are compared with `===`, which on the string ids is value equality.
 */
module NoteList {

  type NoteId = string

  /** A note as the backend serializes it; the reducers read only its id, title and content. */
  datatype Note = Note(note_id: NoteId, note_title: string, note_content: string,
                       last_update: string, created_on: string)

  /** The `note_id` of every cached note, in list order. */
  function Ids(items: seq<Note>): (r: seq<NoteId>)
    ensures |r| == |items|
    ensures forall k :: 0 <= k < |items| ==> r[k] == items[k].note_id
  {
    if items == [] then [] else [items[0].note_id] + Ids(items[1..])
  }

  /** No two cached notes share an id. */
  predicate DistinctIds(items: seq<Note>) {
    forall i, j :: 0 <= i < j < |items| ==> items[i].note_id != items[j].note_id
  }

  /**
   * `items.findIndex(note => note.note_id === id)`: the position of the first
   * note with that id, or -1 when there is none.
   */
  function IndexOfId(items: seq<Note>, id: NoteId): (r: int)
    ensures -1 <= r < |items|
    ensures r == -1 <==> id !in Ids(items)
    ensures 0 <= r ==> items[r].note_id == id
    ensures 0 <= r ==> forall j :: 0 <= j < r ==> items[j].note_id != id
  {
    if items == [] then -1
    else if items[0].note_id == id then 0
    else
      var k := IndexOfId(items[1..], id);
      if k == -1 then -1 else k + 1
  }

  /** The linear search `findIndex` performs. */
  method FindIndex(items: seq<Note>, id: NoteId) returns (index: int)
    ensures index == IndexOfId(items, id)
  {
    index := 0;
    while index < |items| && items[index].note_id != id
      invariant 0 <= index <= |items|
      invariant forall j :: 0 <= j < index ==> items[j].note_id != id
    {
      index := index + 1;
    }
    if index == |items| {
      index := -1;
    }
  }

  /**
   * Reference definition of an update: the first note whose id is the
   * payload's is replaced by the payload; every other note stays.
   */
  function ReplaceFirst(items: seq<Note>, n: Note): seq<Note> {
    if items == [] then []
    else if items[0].note_id == n.note_id then [n] + items[1..]
    else [items[0]] + ReplaceFirst(items[1..], n)
  }

  /**
   * Reference definition of a delete,
   * `items.filter(note => note.note_id !== id)`.
   */
  function RemoveId(items: seq<Note>, id: NoteId): (r: seq<Note>)
    ensures |r| <= |items|
    ensures id !in Ids(r)
  {
    if items == [] then []
    else if items[0].note_id != id then [items[0]] + RemoveId(items[1..], id)
    else RemoveId(items[1..], id)
  }

  /** `a` is `b` with some elements dropped, the rest in their original order. */
  predicate IsSubsequence(a: seq<Note>, b: seq<Note>) {
    if a == [] then true
    else if b == [] then false
    else if a[0] == b[0] then IsSubsequence(a[1..], b[1..])
    else IsSubsequence(a, b[1..])
  }

  // ---------------------------------------------------------------------
  // Update: the findIndex-and-assign the reducers perform is ReplaceFirst
  // ---------------------------------------------------------------------

  /** Assigning the payload at the index `findIndex` returns, when it is not -1, is ReplaceFirst. */
  lemma {:induction false} ReplaceFirstAt(items: seq<Note>, n: Note)
    ensures IndexOfId(items, n.note_id) == -1 ==> ReplaceFirst(items, n) == items
    ensures 0 <= IndexOfId(items, n.note_id) ==>
              ReplaceFirst(items, n) == items[IndexOfId(items, n.note_id) := n]
  {
    if items != [] && items[0].note_id != n.note_id {
      ReplaceFirstAt(items[1..], n);
      var k := IndexOfId(items[1..], n.note_id);
      if 0 <= k {
        assert [items[0]] + items[1..][k := n] == items[k + 1 := n];
      } else {
        assert [items[0]] + items[1..] == items;
      }
    }
  }

  /** An update keeps the length and the sequence of ids. */
  lemma {:induction false} ReplaceFirstPreservesIds(items: seq<Note>, n: Note)
    ensures |ReplaceFirst(items, n)| == |items|
    ensures Ids(ReplaceFirst(items, n)) == Ids(items)
  {
    if items != [] && items[0].note_id != n.note_id {
      ReplaceFirstPreservesIds(items[1..], n);
    }
  }

  /** An update stores the payload exactly when a note with its id is cached, and at most once. */
  lemma ReplaceFirstStoresPayload(items: seq<Note>, n: Note)
    ensures |ReplaceFirst(items, n)| == |items|
    ensures n.note_id in Ids(items) ==> ReplaceFirst(items, n)[IndexOfId(items, n.note_id)] == n
    ensures n.note_id !in Ids(items) ==> ReplaceFirst(items, n) == items
    ensures forall j :: 0 <= j < |items| && j != IndexOfId(items, n.note_id) ==>
              ReplaceFirst(items, n)[j] == items[j]
  {
    ReplaceFirstAt(items, n);
    ReplaceFirstPreservesIds(items, n);
  }

  /** Applying the same update twice is applying it once. */
  lemma {:induction false} ReplaceFirstIdempotent(items: seq<Note>, n: Note)
    ensures ReplaceFirst(ReplaceFirst(items, n), n) == ReplaceFirst(items, n)
  {
    if items != [] {
      if items[0].note_id == n.note_id {
        assert ReplaceFirst([n] + items[1..], n) == [n] + items[1..];
      } else {
        ReplaceFirstIdempotent(items[1..], n);
        assert ReplaceFirst(items, n)[1..] == ReplaceFirst(items[1..], n);
      }
    }
  }

  /** Ids stay pairwise distinct across an update. */
  lemma ReplaceFirstPreservesDistinct(items: seq<Note>, n: Note)
    requires DistinctIds(items)
    ensures DistinctIds(ReplaceFirst(items, n))
  {
    var r := ReplaceFirst(items, n);
    ReplaceFirstPreservesIds(items, n);
    forall i, j | 0 <= i < j < |r| ensures r[i].note_id != r[j].note_id {
      assert Ids(r)[i] == Ids(items)[i] && Ids(r)[j] == Ids(items)[j];
    }
  }

  // ---------------------------------------------------------------------
  // Delete: what the filter keeps
  // ---------------------------------------------------------------------

  /** A delete keeps the surviving notes in their original relative order. */
  lemma {:induction false} RemoveIdIsSubsequence(items: seq<Note>, id: NoteId)
    ensures IsSubsequence(RemoveId(items, id), items)
  {
    if items != [] {
      RemoveIdIsSubsequence(items[1..], id);
      var r := RemoveId(items, id);
      if items[0].note_id == id && r != [] {
        assert r[0].note_id == Ids(r)[0];
      }
    }
  }

  /** A delete keeps every occurrence of every note with another id, and nothing else. */
  lemma {:induction false} RemoveIdCounts(items: seq<Note>, id: NoteId)
    ensures forall x :: multiset(RemoveId(items, id))[x] ==
              if x.note_id == id then 0 else multiset(items)[x]
  {
    if items != [] {
      RemoveIdCounts(items[1..], id);
      assert items == [items[0]] + items[1..];
    }
  }

  /** Deleting an id that no cached note carries changes nothing. */
  lemma {:induction false} RemoveIdAbsent(items: seq<Note>, id: NoteId)
    requires id !in Ids(items)
    ensures RemoveId(items, id) == items
  {
    if items != [] {
      assert Ids(items)[0] == items[0].note_id;
      assert forall k :: 0 <= k < |items| - 1 ==> Ids(items[1..])[k] == Ids(items)[k + 1];
      RemoveIdAbsent(items[1..], id);
    }
  }

  /** Applying the same delete twice is applying it once. */
  lemma RemoveIdIdempotent(items: seq<Note>, id: NoteId)
    ensures RemoveId(RemoveId(items, id), id) == RemoveId(items, id)
  {
    RemoveIdAbsent(RemoveId(items, id), id);
  }

  /** Deleting from a concatenation deletes from each part. */
  lemma {:induction false} RemoveIdConcat(a: seq<Note>, b: seq<Note>, id: NoteId)
    ensures RemoveId(a + b, id) == RemoveId(a, id) + RemoveId(b, id)
  {
    if a == [] {
      assert a + b == b;
    } else {
      assert (a + b)[1..] == a[1..] + b;
      RemoveIdConcat(a[1..], b, id);
    }
  }

  /** Number of cached notes that carry the id. */
  function CountId(items: seq<Note>, id: NoteId): nat {
    if items == [] then 0
    else (if items[0].note_id == id then 1 else 0) + CountId(items[1..], id)
  }

  /** A delete removes exactly the notes with that id. */
  lemma {:induction false} RemoveIdLength(items: seq<Note>, id: NoteId)
    ensures |RemoveId(items, id)| + CountId(items, id) == |items|
  {
    if items != [] {
      RemoveIdLength(items[1..], id);
    }
  }

  /** With distinct ids, an id occurs at most once. */
  lemma {:induction false} CountIdDistinct(items: seq<Note>, id: NoteId)
    requires DistinctIds(items)
    ensures CountId(items, id) == if id in Ids(items) then 1 else 0
  {
    if items != [] {
      assert DistinctIds(items[1..]);
      CountIdDistinct(items[1..], id);
      assert Ids(items) == [items[0].note_id] + Ids(items[1..]);
    }
  }

  /** With distinct ids, deleting a cached id removes exactly one entry. */
  lemma RemoveIdRemovesOne(items: seq<Note>, id: NoteId)
    requires DistinctIds(items)
    ensures id in Ids(items) ==> |RemoveId(items, id)| == |items| - 1
    ensures id !in Ids(items) ==> RemoveId(items, id) == items
  {
    RemoveIdLength(items, id);
    CountIdDistinct(items, id);
    if id !in Ids(items) {
      RemoveIdAbsent(items, id);
    }
  }

  /** A subsequence of a list with distinct ids has distinct ids. */
  lemma {:induction false} SubsequenceDistinct(a: seq<Note>, b: seq<Note>)
    requires IsSubsequence(a, b) && DistinctIds(b)
    ensures DistinctIds(a)
    ensures forall x :: x in a ==> x in b
  {
    if a != [] {
      assert DistinctIds(b[1..]);
      if a[0] == b[0] {
        SubsequenceDistinct(a[1..], b[1..]);
        forall j | 0 < j < |a| ensures a[0].note_id != a[j].note_id {
          assert a[j] == a[1..][j - 1];
          assert a[j] in a[1..];
          var k :| 0 <= k < |b| - 1 && b[1..][k] == a[j];
          assert b[k + 1] == a[j];
        }
        assert a == [a[0]] + a[1..];
      } else {
        SubsequenceDistinct(a, b[1..]);
      }
    }
  }

  /** Ids stay pairwise distinct across a delete. */
  lemma RemoveIdPreservesDistinct(items: seq<Note>, id: NoteId)
    requires DistinctIds(items)
    ensures DistinctIds(RemoveId(items, id))
  {
    RemoveIdIsSubsequence(items, id);
    SubsequenceDistinct(RemoveId(items, id), items);
  }

  /** Deleting then applying an update of that id is the same as only deleting. */
  lemma {:induction false} RemoveAfterReplaceFirst(items: seq<Note>, n: Note)
    ensures RemoveId(ReplaceFirst(items, n), n.note_id) == RemoveId(items, n.note_id)
  {
    if items != [] && items[0].note_id != n.note_id {
      RemoveAfterReplaceFirst(items[1..], n);
    }
  }

  // ---------------------------------------------------------------------
  // Create: appending or prepending a fresh note, undone by deleting it
  // ---------------------------------------------------------------------

  /** Appending a note whose id is not cached, then deleting that id, restores the list. */
  lemma AppendThenRemove(items: seq<Note>, n: Note)
    requires n.note_id !in Ids(items)
    ensures RemoveId(items + [n], n.note_id) == items
  {
    RemoveIdConcat(items, [n], n.note_id);
    RemoveIdAbsent(items, n.note_id);
    assert RemoveId([n], n.note_id) == [];
  }

  /** Prepending a note whose id is not cached, then deleting that id, restores the list. */
  lemma PrependThenRemove(items: seq<Note>, n: Note)
    requires n.note_id !in Ids(items)
    ensures RemoveId([n] + items, n.note_id) == items
  {
    RemoveIdAbsent(items, n.note_id);
    assert ([n] + items)[1..] == items;
  }

  /** Adding a note whose id is not cached, at either end, keeps ids distinct. */
  lemma AddFreshPreservesDistinct(items: seq<Note>, n: Note)
    requires DistinctIds(items) && n.note_id !in Ids(items)
    ensures DistinctIds(items + [n])
    ensures DistinctIds([n] + items)
  {
    assert forall k :: 0 <= k < |items| ==> Ids(items)[k] == items[k].note_id;
  }
}
