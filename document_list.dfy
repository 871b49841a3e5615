/** The list of documents the CRUD store shows, and the two list operations
    the store applies to a copy of it after a single-document write: the
    lookup by id (lodash `findIndex`) and JavaScript's `Array.prototype.splice`. */
module DocumentList {
  import opened Base

  /** A document of the result list, reduced to its `_id` (absent when the
      document has none) and the rest of its content. */
  datatype Doc = Doc(id: Option<string>, content: string)

  /** The first position whose document has id `id`, or -1 when there is none
      (findIndex comparing string ids). */
  function IndexOfId(docs: seq<Doc>, id: Option<string>): (r: int)
    ensures -1 <= r < |docs|
    ensures r == -1 <==> forall j :: 0 <= j < |docs| ==> docs[j].id != id
    ensures r >= 0 ==> docs[r].id == id && forall j :: 0 <= j < r ==> docs[j].id != id
    decreases |docs|
  {
    if |docs| == 0 then -1
    else if docs[0].id == id then 0
    else
      var k := IndexOfId(docs[1..], id);
      if k == -1 then -1 else k + 1
  }

  /** Where `splice(start, …)` begins on a list of length `len`: a negative
      start counts from the end, and both are clamped to the list. */
  function SpliceStart(len: nat, start: int): (a: nat)
    ensures a <= len
  {
    if start < 0 then Max(len + start, 0) else Min(start, len)
  }

  /** The list after `s.splice(start, deleteCount, ...items)`. */
  function Splice<T>(s: seq<T>, start: int, deleteCount: nat, items: seq<T>): seq<T> {
    var a := SpliceStart(|s|, start);
    var d := Min(deleteCount, |s| - a);
    s[..a] + items + s[a + d..]
  }

  /** The list after the store removes the document with id `id`:
      `splice(findIndex(...), 1)` on a copy. */
  function RemoveById(docs: seq<Doc>, id: Option<string>): seq<Doc> {
    Splice(docs, IndexOfId(docs, id), 1, [])
  }

  /** The list after the store puts `d` in place of the document with id
      `id`: `splice(findIndex(...), 1, d)` on a copy. */
  function ReplaceById(docs: seq<Doc>, id: Option<string>, d: Doc): seq<Doc> {
    Splice(docs, IndexOfId(docs, id), 1, [d])
  }

  /** The found index, or -1, always starts the splice inside a non-empty
      list, so removing drops exactly one entry of a non-empty list. */
  lemma RemoveLength(docs: seq<Doc>, id: Option<string>)
    ensures |RemoveById(docs, id)| == if docs == [] then 0 else |docs| - 1
  {
    var a := SpliceStart(|docs|, IndexOfId(docs, id));
    assert docs != [] ==> a < |docs|;
  }

  /** Replacing keeps the length of a non-empty list and turns an empty
      one into a single entry. */
  lemma ReplaceLength(docs: seq<Doc>, id: Option<string>, d: Doc)
    ensures |ReplaceById(docs, id, d)| == if docs == [] then 1 else |docs|
  {
    var a := SpliceStart(|docs|, IndexOfId(docs, id));
    assert docs != [] ==> a < |docs|;
  }

  /** Removing a listed document drops exactly that entry: one fewer
      document, everything before it in place, everything after it moved up
      by one. */
  lemma RemoveListed(docs: seq<Doc>, id: Option<string>)
    requires exists j :: 0 <= j < |docs| && docs[j].id == id
    ensures var i := IndexOfId(docs, id);
      0 <= i < |docs| && docs[i].id == id &&
      RemoveById(docs, id) == docs[..i] + docs[i + 1..] &&
      |RemoveById(docs, id)| == |docs| - 1
  {
    var i := IndexOfId(docs, id);
    assert SpliceStart(|docs|, i) == i;
  }

  /** A document that is not in the list: findIndex gives -1 and
      `splice(-1, 1)` removes the last entry of a non-empty list. */
  lemma RemoveUnlistedDropsLast(docs: seq<Doc>, id: Option<string>)
    requires forall j :: 0 <= j < |docs| ==> docs[j].id != id
    ensures docs != [] ==> RemoveById(docs, id) == docs[..|docs| - 1]
    ensures docs == [] ==> RemoveById(docs, id) == []
  {
  }

  /** Replacing a listed document keeps the length, puts `d` at the found
      index and leaves every other entry untouched. */
  lemma ReplaceListed(docs: seq<Doc>, id: Option<string>, d: Doc)
    requires exists j :: 0 <= j < |docs| && docs[j].id == id
    ensures var i := IndexOfId(docs, id);
      var r := ReplaceById(docs, id, d);
      0 <= i < |docs| && docs[i].id == id &&
      |r| == |docs| && r[i] == d &&
      forall j :: 0 <= j < |docs| && j != i ==> r[j] == docs[j]
  {
    var i := IndexOfId(docs, id);
    var r := ReplaceById(docs, id, d);
    assert SpliceStart(|docs|, i) == i;
    assert r == docs[..i] + [d] + docs[i + 1..];
    forall j | 0 <= j < |docs| && j != i
      ensures r[j] == docs[j]
    {
      if j < i {
        assert r[j] == docs[..i][j];
      } else {
        assert r[j] == docs[i + 1..][j - i - 1];
      }
    }
  }

  /** A document that is not in the list: `splice(-1, 1, d)` overwrites the
      last entry of a non-empty list and turns an empty list into `[d]`. */
  lemma ReplaceUnlistedHitsLast(docs: seq<Doc>, id: Option<string>, d: Doc)
    requires forall j :: 0 <= j < |docs| ==> docs[j].id != id
    ensures docs != [] ==> ReplaceById(docs, id, d) == docs[..|docs| - 1] + [d]
    ensures docs == [] ==> ReplaceById(docs, id, d) == [d]
  {
  }
}
