/**
 * The list transforms every editable section applies to its records: the
 * id-matched `map` that replaces an edited record, the `filter` that deletes
 * by id, and the position-based `map`/`filter` the certifications use.
 */
module Collection {
  /** A stored record: its `id` (a `Date.now()` string or a default "1", "2", ...)
      and the rest of its fields. */
  datatype Entry<F> = Entry(id: string, fields: F)

  /** The ids of a list, in order. */
  function Ids<F>(s: seq<Entry<F>>): (r: seq<string>)
    ensures |r| == |s|
    ensures forall i :: 0 <= i < |s| ==> r[i] == s[i].id
  {
    if s == [] then [] else [s[0].id] + Ids(s[1..])
  }

  /** How many records carry `id`; `Date.now()` ids are not guaranteed unique. */
  function Count<F>(s: seq<Entry<F>>, id: string): nat {
    if s == [] then 0 else (if s[0].id == id then 1 else 0) + Count(s[1..], id)
  }

  /** `s.map(e => e.id === id ? {...editing, ...form} : e)`: every record with the
      editing id becomes the merged record, which keeps that id. */
  function Updated<F>(s: seq<Entry<F>>, id: string, f: F): (r: seq<Entry<F>>)
    ensures |r| == |s|
    ensures forall i :: 0 <= i < |s| ==> r[i] == (if s[i].id == id then Entry(id, f) else s[i])
  {
    if s == [] then [] else [if s[0].id == id then Entry(id, f) else s[0]] + Updated(s[1..], id, f)
  }

  /** `s.filter(e => e.id !== id)`. */
  function Removed<F>(s: seq<Entry<F>>, id: string): (r: seq<Entry<F>>)
    ensures |r| <= |s|
    ensures forall e :: e in r ==> e in s && e.id != id
    ensures forall e :: e in s && e.id != id ==> e in r
  {
    if s == [] then []
    else
      var rest := Removed(s[1..], id);
      assert forall e :: e in s && e != s[0] ==> e in s[1..];
      if s[0].id == id then rest else [s[0]] + rest
  }

  /** `s.filter((_, i) => i !== k)`. */
  function RemovedAt<T>(s: seq<T>, k: int): (r: seq<T>)
    ensures 0 <= k < |s| ==> r == s[..k] + s[k + 1..]
    ensures !(0 <= k < |s|) ==> r == s
  {
    if s == [] then []
    else
      var rest := RemovedAt(s[1..], k - 1);
      if k == 0 then rest
      else
        assert 0 < k < |s| ==> [s[0]] + (s[1..][..k - 1] + s[1..][k..]) == s[..k] + s[k + 1..];
        assert !(0 <= k < |s|) ==> [s[0]] + s[1..] == s;
        [s[0]] + rest
  }

  /** `s.map((e, i) => i === k ? x : e)`. */
  function ReplacedAt<T>(s: seq<T>, k: int, x: T): (r: seq<T>)
    ensures 0 <= k < |s| ==> r == s[k := x]
    ensures !(0 <= k < |s|) ==> r == s
  {
    if s == [] then []
    else
      var rest := ReplacedAt(s[1..], k - 1, x);
      if k == 0 then
        assert [x] + s[1..] == s[0 := x];
        [x] + rest
      else
        assert 0 < k < |s| ==> [s[0]] + s[1..][k - 1 := x] == s[k := x];
        assert !(0 <= k < |s|) ==> [s[0]] + s[1..] == s;
        [s[0]] + rest
  }

  /** An update never changes the ids, so it never changes their order either. */
  lemma UpdatedKeepsIds<F>(s: seq<Entry<F>>, id: string, f: F)
    ensures Ids(Updated(s, id, f)) == Ids(s)
  {
  }

  /** Saving the same form twice is the same as saving it once. */
  lemma UpdatedIdempotent<F>(s: seq<Entry<F>>, id: string, f: F)
    ensures Updated(Updated(s, id, f), id, f) == Updated(s, id, f)
  {
  }

  /** An update whose id is in no record (the edited record was deleted meanwhile)
      leaves the list as it is. */
  lemma UpdatedAbsent<F>(s: seq<Entry<F>>, id: string, f: F)
    requires Count(s, id) == 0
    ensures Updated(s, id, f) == s
  {
    CountZero(s, id);
  }

  /** No record carries an id that is counted zero times. */
  lemma {:induction false} CountZero<F>(s: seq<Entry<F>>, id: string)
    requires Count(s, id) == 0
    ensures forall i :: 0 <= i < |s| ==> s[i].id != id
  {
    if s != [] {
      CountZero(s[1..], id);
      assert forall i :: 1 <= i < |s| ==> s[i] == s[1..][i - 1];
    }
  }

  /** Deleting splits over concatenation, so the kept records stay in their order. */
  lemma {:induction false} RemovedConcat<F>(a: seq<Entry<F>>, b: seq<Entry<F>>, id: string)
    ensures Removed(a + b, id) == Removed(a, id) + Removed(b, id)
  {
    if a == [] {
      assert a + b == b;
    } else {
      assert (a + b)[0] == a[0];
      assert (a + b)[1..] == a[1..] + b;
      RemovedConcat(a[1..], b, id);
    }
  }

  /** Deleting removes exactly `Count(s, id)` records: one when the id is unique. */
  lemma {:induction false} RemovedLength<F>(s: seq<Entry<F>>, id: string)
    ensures |Removed(s, id)| == |s| - Count(s, id)
  {
    if s != [] {
      RemovedLength(s[1..], id);
    }
  }

  /** Deleting an id that no record carries changes nothing. */
  lemma {:induction false} RemovedAbsent<F>(s: seq<Entry<F>>, id: string)
    requires Count(s, id) == 0
    ensures Removed(s, id) == s
  {
    if s != [] {
      RemovedAbsent(s[1..], id);
      assert [s[0]] + s[1..] == s;
    }
  }

  /** Deleting twice is deleting once. */
  lemma {:induction false} RemovedIdempotent<F>(s: seq<Entry<F>>, id: string)
    ensures Removed(Removed(s, id), id) == Removed(s, id)
  {
    if s != [] {
      RemovedIdempotent(s[1..], id);
      var rest := Removed(s[1..], id);
      if s[0].id != id {
        assert ([s[0]] + rest)[0] == s[0] && ([s[0]] + rest)[1..] == rest;
      }
    }
  }

  /** Deleting the id of a record just added with a fresh id gives back the old list. */
  lemma RemoveUndoesAdd<F>(s: seq<Entry<F>>, newId: string, f: F)
    requires Count(s, newId) == 0
    ensures Removed(s + [Entry(newId, f)], newId) == s
  {
    RemovedConcat(s, [Entry(newId, f)], newId);
    RemovedAbsent(s, newId);
    assert [Entry(newId, f)][1..] == [];
  }

  /** Deleting an id after editing it is the same as deleting it straight away. */
  lemma {:induction false} RemovedAfterUpdated<F>(s: seq<Entry<F>>, id: string, f: F)
    ensures Removed(Updated(s, id, f), id) == Removed(s, id)
  {
    if s != [] {
      var r := Updated(s, id, f);
      assert r[1..] == Updated(s[1..], id, f);
      RemovedAfterUpdated(s[1..], id, f);
    }
  }

  /** Position-based delete shortens a list by exactly one for a valid index. */
  lemma RemovedAtLength<T>(s: seq<T>, k: int)
    requires 0 <= k < |s|
    ensures |RemovedAt(s, k)| == |s| - 1
    ensures forall i :: 0 <= i < k ==> RemovedAt(s, k)[i] == s[i]
    ensures forall i :: k <= i < |s| - 1 ==> RemovedAt(s, k)[i] == s[i + 1]
  {
  }
}
