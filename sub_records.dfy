/**
 * The experience and education lists of a profile: ordered lists of entries,
 * each carrying an id, to which the handlers add with Array.prototype.unshift and
 * from which they remove with indexOf over the ids followed by Array.prototype.splice.
 * The same operations serve both kinds of entry.
 */
module SubRecords {
  import opened Wrappers

  /** The string form of a sub-document id. */
  type EntryId = string

  /** A sub-document: its id and the fields the handler copied from the request. */
  datatype Entry<T> = Entry(id: EntryId, fields: T)

  /** Why a checked removal did not happen. */
  datatype RemoveError = EntryNotFound

  /** The ids of the entries, in list order (`list.map(item => item.id)`). */
  function Ids<T>(list: seq<Entry<T>>): (r: seq<EntryId>)
    ensures |r| == |list|
    ensures forall i :: 0 <= i < |list| ==> r[i] == list[i].id
  {
    seq(|list|, i requires 0 <= i < |list| => list[i].id)
  }

  /** No two entries share an id. */
  ghost predicate UniqueIds<T>(list: seq<Entry<T>>) {
    forall i, j :: 0 <= i < j < |list| ==> list[i].id != list[j].id
  }

  /** Array.prototype.indexOf under strict equality: the position of the first
      occurrence of `x`, or -1 when there is none. */
  function IndexOf<X(==)>(xs: seq<X>, x: X): (k: int)
    ensures -1 <= k < |xs|
    ensures k == -1 <==> x !in xs
    ensures 0 <= k ==> xs[k] == x && forall j :: 0 <= j < k ==> xs[j] != x
  {
    if xs == [] then -1
    else if xs[0] == x then 0
    else
      var k := IndexOf(xs[1..], x);
      if k == -1 then -1 else k + 1
  }

  /** The position at which Array.prototype.splice starts on a list of length `len`:
      a negative start counts back from the end, and both kinds are clamped to the list. */
  function SpliceStart(len: nat, start: int): (a: nat)
    ensures a <= len
    ensures 0 <= start ==> a == if start <= len then start else len
    ensures start < 0 && len + start >= 0 ==> a == len + start
    ensures len + start < 0 ==> a == 0
  {
    if start < 0 then (if len + start < 0 then 0 else len + start)
    else if start < len then start else len
  }

  /** How many entries Array.prototype.splice removes: the requested count clamped
      to what is left after the start position. */
  function SpliceCount(len: nat, start: int, deleteCount: int): (d: nat)
    ensures SpliceStart(len, start) + d <= len
    ensures 0 <= deleteCount <= len - SpliceStart(len, start) ==> d == deleteCount
    ensures deleteCount < 0 ==> d == 0
    ensures deleteCount > len - SpliceStart(len, start) ==> d == len - SpliceStart(len, start)
  {
    var a := SpliceStart(len, start);
    if deleteCount < 0 then 0 else if deleteCount < len - a then deleteCount else len - a
  }

  /** The list left behind by `list.splice(start, deleteCount)`: one contiguous block
      of SpliceCount entries at SpliceStart is gone, everything else keeps its order. */
  function Splice<T>(list: seq<T>, start: int, deleteCount: int): (r: seq<T>)
    ensures |r| == |list| - SpliceCount(|list|, start, deleteCount)
    ensures forall i :: 0 <= i < SpliceStart(|list|, start) ==> r[i] == list[i]
    ensures forall i :: SpliceStart(|list|, start) <= i < |r| ==>
              r[i] == list[i + SpliceCount(|list|, start, deleteCount)]
  {
    var a := SpliceStart(|list|, start);
    var d := SpliceCount(|list|, start, deleteCount);
    list[..a] + list[a + d..]
  }

  /** `list.unshift(e)`: the new entry goes first, the old entries follow in order. */
  function Prepend<T>(list: seq<Entry<T>>, e: Entry<T>): (r: seq<Entry<T>>)
    ensures |r| == |list| + 1 && r[0] == e && r[1..] == list
  {
    [e] + list
  }

  /** `list.splice(list.map(item => item.id).indexOf(id), 1)`, as written.
      A present id removes its first entry. An absent id gives index -1, which
      splice counts from the end, so the last entry goes (an empty list is unchanged). */
  function RemoveById<T>(list: seq<Entry<T>>, id: EntryId): (r: seq<Entry<T>>)
    ensures id in Ids(list) ==>
              var k := IndexOf(Ids(list), id);
              0 <= k < |list| && list[k].id == id &&
              (forall j :: 0 <= j < k ==> list[j].id != id) &&
              r == list[..k] + list[k + 1..]
    ensures id !in Ids(list) ==> r == if list == [] then [] else list[..|list| - 1]
  {
    var k := IndexOf(Ids(list), id);
    var r := Splice(list, k, 1);
    assert r == list[..SpliceStart(|list|, k)] + list[SpliceStart(|list|, k) + SpliceCount(|list|, k, 1)..];
    r
  }

  /** The removal the handlers evidently intend: the first entry with the id goes,
      and an absent id is reported instead of touching the list. */
  function RemoveByIdOrNotFound<T>(list: seq<Entry<T>>, id: EntryId): (r: Result<seq<Entry<T>>, RemoveError>)
    ensures r.Failure? <==> id !in Ids(list)
    ensures r.Success? ==>
              && |r.value| == |list| - 1
              && exists k :: FirstWithId(list, id, k) && r.value == list[..k] + list[k + 1..]
  {
    var k := IndexOf(Ids(list), id);
    if k == -1 then Failure(EntryNotFound)
    else
      var rest := Splice(list, k, 1);
      assert FirstWithId(list, id, k);
      assert rest == list[..k] + list[k + 1..];
      Success(rest)
  }

  /** Entry `k` is the first one with id `id`. */
  ghost predicate FirstWithId<T>(list: seq<Entry<T>>, id: EntryId, k: int) {
    0 <= k < |list| && list[k].id == id && forall j :: 0 <= j < k ==> list[j].id != id
  }

  /** Wherever the checked removal succeeds it agrees with the handlers' removal. */
  lemma {:induction false} CheckedRemoveAgrees<T>(list: seq<Entry<T>>, id: EntryId)
    ensures RemoveByIdOrNotFound(list, id).Success? ==>
              RemoveByIdOrNotFound(list, id).value == RemoveById(list, id)
  {
  }

  /** Adding an entry keeps the ids unique when the new id is fresh. */
  lemma {:induction false} PrependKeepsUniqueIds<T>(list: seq<Entry<T>>, e: Entry<T>)
    requires UniqueIds(list) && e.id !in Ids(list)
    ensures UniqueIds(Prepend(list, e))
  {
    var r := Prepend(list, e);
    forall i, j | 0 <= i < j < |r| ensures r[i].id != r[j].id {
      if i == 0 {
        assert r[j] == list[j - 1] && Ids(list)[j - 1] == r[j].id;
      } else {
        assert r[i] == list[i - 1] && r[j] == list[j - 1];
      }
    }
  }

  /** Dropping one entry from a list with unique ids keeps them unique. */
  lemma {:induction false} DropKeepsUniqueIds<T>(list: seq<Entry<T>>, k: nat)
    requires UniqueIds(list) && k < |list|
    ensures UniqueIds(list[..k] + list[k + 1..])
  {
    var r := list[..k] + list[k + 1..];
    forall i, j | 0 <= i < j < |r| ensures r[i].id != r[j].id {
      var i' := if i < k then i else i + 1;
      var j' := if j < k then j else j + 1;
      assert r[i] == list[i'] && r[j] == list[j'] && i' < j';
    }
  }

  /** Removing by id, whichever branch splice takes, keeps the ids unique. */
  lemma {:induction false} RemoveKeepsUniqueIds<T>(list: seq<Entry<T>>, id: EntryId)
    requires UniqueIds(list)
    ensures UniqueIds(RemoveById(list, id))
  {
    if id in Ids(list) {
      DropKeepsUniqueIds(list, IndexOf(Ids(list), id));
    } else if list != [] {
      assert list[..|list| - 1] == list[..|list| - 1] + list[|list|..];
      DropKeepsUniqueIds(list, |list| - 1);
    }
  }

  /** With unique ids, removing a present id leaves no entry with that id. */
  lemma {:induction false} RemovePresentIdIsGone<T>(list: seq<Entry<T>>, id: EntryId)
    requires UniqueIds(list) && id in Ids(list)
    ensures id !in Ids(RemoveById(list, id))
    ensures |RemoveById(list, id)| == |list| - 1
  {
    var k := IndexOf(Ids(list), id);
    var r := RemoveById(list, id);
    forall m | 0 <= m < |r| ensures r[m].id != id {
      var m' := if m < k then m else m + 1;
      assert r[m] == list[m'] && m' != k;
    }
  }

  /** Removing the id of the entry just added restores the list: indexOf finds it first. */
  lemma {:induction false} RemoveAfterPrepend<T>(list: seq<Entry<T>>, e: Entry<T>)
    ensures RemoveById(Prepend(list, e), e.id) == list
  {
    var r := Prepend(list, e);
    assert Ids(r)[0] == e.id;
    assert IndexOf(Ids(r), e.id) == 0;
  }

  /** The handlers' removal with an id no entry has: the last of two entries goes. */
  lemma {:induction false} AbsentIdRemovesLastEntry()
    ensures RemoveById([Entry("a", 1), Entry("b", 2)], "z") == [Entry("a", 1)]
  {
    var list := [Entry("a", 1), Entry("b", 2)];
    assert Ids(list) == ["a", "b"];
    assert "z" != "a" && "z" != "b";
    assert "z" !in Ids(list);
  }

  /** The checked removal reports that same id as missing. */
  lemma {:induction false} AbsentIdReported()
    ensures RemoveByIdOrNotFound([Entry("a", 1), Entry("b", 2)], "z") == Failure(EntryNotFound)
  {
    var list := [Entry("a", 1), Entry("b", 2)];
    assert Ids(list) == ["a", "b"];
    assert "z" != "a" && "z" != "b";
    assert "z" !in Ids(list);
  }
}
