/** Byte-wise string order, and the sorted duplicate-free lists that serve as indexes. */
module Ordering {

  /** The strict lexicographic order of the source's string comparison. */
  predicate Less(a: string, b: string) {
    b != "" && (a == "" || a[0] < b[0] || (a[0] == b[0] && Less(a[1..], b[1..])))
  }

  lemma {:induction false} LessTransitive(a: string, b: string, c: string)
    requires Less(a, b) && Less(b, c)
    ensures Less(a, c)
  {
    if a != "" && a[0] == b[0] && b[0] == c[0] {
      LessTransitive(a[1..], b[1..], c[1..]);
    }
  }

  lemma {:induction false} LessTotal(a: string, b: string)
    ensures Less(a, b) || a == b || Less(b, a)
    ensures !(Less(a, b) && Less(b, a)) && !Less(a, a)
    decreases |a|
  {
    if a != "" {
      LessTotal(a[1..], a[1..]);
    }
    if a != "" && b != "" && a[0] == b[0] {
      LessTotal(a[1..], b[1..]);
      assert a == [a[0]] + a[1..] && b == [b[0]] + b[1..];
    }
  }

  predicate Sorted(ids: seq<string>) {
    forall i, j :: 0 <= i < j < |ids| ==> Less(ids[i], ids[j])
  }

  function Elements(ids: seq<string>): set<string> { set i | 0 <= i < |ids| :: ids[i] }

  lemma NoElements(ids: seq<string>)
    ensures Elements(ids) == {} <==> ids == []
  {
    if ids != [] { assert ids[0] in Elements(ids); }
  }

  /** How many elements are below `id`. */
  ghost predicate Position(ids: seq<string>, id: string, pos: nat) {
    && pos <= |ids|
    && (forall i :: 0 <= i < pos ==> Less(ids[i], id))
    && (forall i :: pos <= i < |ids| ==> !Less(ids[i], id))
  }

  /** Binary search for the first element that is not below `id`. */
  method Search(ids: seq<string>, id: string) returns (pos: nat)
    requires Sorted(ids)
    ensures Position(ids, id, pos)
    ensures id in Elements(ids) <==> pos < |ids| && ids[pos] == id
  {
    pos := 0;
    var end := |ids|;
    while pos < end
      invariant 0 <= pos <= end <= |ids|
      invariant forall i :: 0 <= i < pos ==> Less(ids[i], id)
      invariant forall i :: end <= i < |ids| ==> !Less(ids[i], id)
    {
      var mid := (pos + end) / 2;
      if Less(ids[mid], id) {
        forall i | 0 <= i < mid
          ensures Less(ids[i], id)
        {
          LessTransitive(ids[i], ids[mid], id);
        }
        pos := mid + 1;
      } else {
        forall i | mid < i < |ids|
          ensures !Less(ids[i], id)
        {
          if Less(ids[i], id) { LessTransitive(ids[mid], ids[i], id); }
        }
        end := mid;
      }
    }
    Found(ids, id, pos);
  }

  lemma Found(ids: seq<string>, id: string, pos: nat)
    requires Sorted(ids) && Position(ids, id, pos)
    ensures id in Elements(ids) <==> pos < |ids| && ids[pos] == id
  {
    LessTotal(id, id);
    if id in Elements(ids) {
      var i :| 0 <= i < |ids| && ids[i] == id;
      assert i >= pos;
    }
  }

  /** What the sorted list becomes when an element joins it. */
  function Insert(ids: seq<string>, id: string): seq<string> {
    if ids == [] || Less(id, ids[0]) then [id] + ids
    else if ids[0] == id then ids
    else [ids[0]] + Insert(ids[1..], id)
  }

  function Remove(ids: seq<string>, id: string): seq<string> {
    if ids == [] then [] else if ids[0] == id then ids[1..] else [ids[0]] + Remove(ids[1..], id)
  }

  lemma SplitFirst(ids: seq<string>)
    requires Sorted(ids) && ids != []
    ensures Sorted(ids[1..]) && Elements(ids) == {ids[0]} + Elements(ids[1..]) && ids[0] !in Elements(ids[1..])
    ensures forall x :: x in Elements(ids[1..]) ==> Less(ids[0], x)
  {
    LessTotal(ids[0], ids[0]);
    assert forall i :: 1 <= i < |ids| ==> ids[i] == ids[1..][i - 1];
  }

  lemma PushFirst(first: string, rest: seq<string>)
    requires Sorted(rest) && forall x :: x in Elements(rest) ==> Less(first, x)
    ensures Sorted([first] + rest) && Elements([first] + rest) == {first} + Elements(rest)
  {
    var all := [first] + rest;
    forall i, j | 0 <= i < j < |all|
      ensures Less(all[i], all[j])
    {
      assert all[j] == rest[j - 1] && rest[j - 1] in Elements(rest);
    }
    forall x | x in {first} + Elements(rest)
      ensures x in Elements(all)
    {
      if x != first {
        var i :| 0 <= i < |rest| && rest[i] == x;
        assert all[i + 1] == x;
      } else {
        assert all[0] == x;
      }
    }
  }

  lemma {:induction false} InsertSorted(ids: seq<string>, id: string)
    requires Sorted(ids)
    ensures Sorted(Insert(ids, id)) && Elements(Insert(ids, id)) == Elements(ids) + {id}
    ensures |Insert(ids, id)| == |ids| + if id in Elements(ids) then 0 else 1
  {
    if ids != [] { SplitFirst(ids); }
    if ids == [] || Less(id, ids[0]) {
      forall x | x in Elements(ids)
        ensures Less(id, x)
      {
        if x != ids[0] { LessTransitive(id, ids[0], x); }
      }
      PushFirst(id, ids);
      LessTotal(id, id);
    } else if ids[0] != id {
      LessTotal(ids[0], id);
      InsertSorted(ids[1..], id);
      PushFirst(ids[0], Insert(ids[1..], id));
    }
  }

  lemma {:induction false} RemoveSorted(ids: seq<string>, id: string)
    requires Sorted(ids)
    ensures Sorted(Remove(ids, id)) && Elements(Remove(ids, id)) == Elements(ids) - {id}
    ensures |Remove(ids, id)| == |ids| - if id in Elements(ids) then 1 else 0
  {
    if ids != [] {
      SplitFirst(ids);
      if ids[0] != id {
        RemoveSorted(ids[1..], id);
        PushFirst(ids[0], Remove(ids[1..], id));
      }
    }
  }

  /** A sorted duplicate-free list is determined by its elements. */
  lemma {:induction false} SortedUnique(a: seq<string>, b: seq<string>)
    requires Sorted(a) && Sorted(b) && Elements(a) == Elements(b)
    ensures a == b
    decreases |a|
  {
    if a == [] || b == [] {
      NoElements(a);
      NoElements(b);
    } else {
      SplitFirst(a);
      SplitFirst(b);
      LessTotal(a[0], b[0]);
      assert a[0] in Elements(b) && b[0] in Elements(a);
      assert Elements(a[1..]) == Elements(a) - {a[0]} && Elements(b[1..]) == Elements(b) - {b[0]};
      SortedUnique(a[1..], b[1..]);
      assert a == [a[0]] + a[1..] && b == [b[0]] + b[1..];
    }
  }

  /** The elements of a list in ascending order, each once. */
  function SortedList(ids: seq<string>): seq<string> {
    if ids == [] then [] else Insert(SortedList(ids[..|ids| - 1]), ids[|ids| - 1])
  }

  lemma {:induction false} SortedListSorts(ids: seq<string>)
    ensures Sorted(SortedList(ids)) && Elements(SortedList(ids)) == Elements(ids) && |SortedList(ids)| <= |ids|
  {
    if ids != [] {
      var n := |ids| - 1;
      SortedListSorts(ids[..n]);
      InsertSorted(SortedList(ids[..n]), ids[n]);
      assert ids == ids[..n] + [ids[n]];
      assert Elements(ids) == Elements(ids[..n]) + {ids[n]};
    }
  }

  lemma SpliceSorted(ids: seq<string>, id: string, pos: nat)
    requires Sorted(ids) && Position(ids, id, pos) && id !in Elements(ids)
    ensures Sorted(ids[..pos] + [id] + ids[pos..]) && Elements(ids[..pos] + [id] + ids[pos..]) == Elements(ids) + {id}
  {
    var all := ids[..pos] + [id] + ids[pos..];
    forall i | pos <= i < |ids|
      ensures Less(id, ids[i])
    {
      LessTotal(id, ids[i]);
      assert ids[i] in Elements(ids);
    }
    assert forall i :: 0 <= i < |all| ==> all[i] == if i < pos then ids[i] else if i == pos then id else ids[i - 1];
    forall x | x in Elements(ids)
      ensures x in Elements(all)
    {
      var i :| 0 <= i < |ids| && ids[i] == x;
      assert all[if i < pos then i else i + 1] == x;
    }
    assert all[pos] == id;
  }

  lemma CutSorted(ids: seq<string>, pos: nat)
    requires Sorted(ids) && pos < |ids|
    ensures Sorted(ids[..pos] + ids[pos + 1..]) && Elements(ids[..pos] + ids[pos + 1..]) == Elements(ids) - {ids[pos]}
  {
    var all := ids[..pos] + ids[pos + 1..];
    LessTotal(ids[pos], ids[pos]);
    assert forall i :: 0 <= i < |all| ==> all[i] == ids[if i < pos then i else i + 1];
    forall x | x in Elements(ids) - {ids[pos]}
      ensures x in Elements(all)
    {
      var i :| 0 <= i < |ids| && ids[i] == x;
      assert all[if i < pos then i else i - 1] == x;
    }
  }

  method Add(ids: seq<string>, id: string) returns (r: seq<string>)
    requires Sorted(ids)
    ensures r == Insert(ids, id)
  {
    var pos := Search(ids, id);
    InsertSorted(ids, id);
    if pos < |ids| && ids[pos] == id {
      assert Elements(ids) + {id} == Elements(ids);
      r := ids;
    } else {
      SpliceSorted(ids, id, pos);
      r := ids[..pos] + [id] + ids[pos..];
    }
    SortedUnique(r, Insert(ids, id));
  }

  method Drop(ids: seq<string>, id: string) returns (r: seq<string>)
    requires Sorted(ids)
    ensures r == Remove(ids, id)
  {
    var pos := Search(ids, id);
    RemoveSorted(ids, id);
    if pos < |ids| && ids[pos] == id {
      CutSorted(ids, pos);
      r := ids[..pos] + ids[pos + 1..];
    } else {
      assert Elements(ids) - {id} == Elements(ids);
      r := ids;
    }
    SortedUnique(r, Remove(ids, id));
  }

  /** Sorts a set of strings, taken in any order. */
  method Sort(all: set<string>) returns (r: seq<string>)
    ensures Sorted(r) && Elements(r) == all && |r| == |all|
  {
    r := [];
    var rest := all;
    while rest != {}
      invariant rest <= all && Sorted(r) && Elements(r) == all - rest && |r| == |all| - |rest|
      decreases |rest|
    {
      var x :| x in rest;
      rest := rest - {x};
      InsertSorted(r, x);
      r := Add(r, x);
    }
  }

  /** Sorts a list by inserting its elements one by one. */
  method SortList(ids: seq<string>) returns (r: seq<string>)
    ensures r == SortedList(ids)
  {
    r := [];
    for i := 0 to |ids|
      invariant r == SortedList(ids[..i])
    {
      SortedListSorts(ids[..i]);
      assert ids[..i + 1][..i] == ids[..i];
      r := Add(r, ids[i]);
    }
    assert ids[..|ids|] == ids;
  }
}
