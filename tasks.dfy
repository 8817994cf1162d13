/**
 * The task record and the pure functions that specify the operations of the
 * in-memory task store: the first-match lookup with its fallback, renaming one
 * slot, and the order-preserving filter used by delete.
 */
module Tasks {

  /** A task: a client-supplied name and a server-generated id (main.go:13-16). */
  datatype Task = Task(name: string, id: string)

  /** Go's zero value `Task{}`: empty name and empty id. */
  const ZeroTask := Task("", "")

  /** Some task in `s` carries the id `id`. */
  predicate HasId(s: seq<Task>, id: string) {
    exists i :: 0 <= i < |s| && s[i].id == id
  }

  /** No two tasks of `s` share an id. */
  predicate DistinctIds(s: seq<Task>) {
    forall i, j :: 0 <= i < j < |s| ==> s[i].id != s[j].id
  }

  /** The store's invariant: every id is non-empty and the ids are pairwise distinct. */
  predicate WellFormed(s: seq<Task>) {
    DistinctIds(s) && forall i :: 0 <= i < |s| ==> s[i].id != ""
  }

  /** The lowest index whose task has id `id`, or `|s|` when there is none. */
  function FirstIndex(s: seq<Task>, id: string): (k: nat)
    ensures k <= |s|
    ensures k < |s| ==> s[k].id == id
    ensures forall j :: 0 <= j < k ==> s[j].id != id
  {
    if s == [] then 0
    else if s[0].id == id then 0
    else 1 + FirstIndex(s[1..], id)
  }

  /**
   * What `getTaskById` returns for `id` over the collection `s`: the first
   * matching task and its index, or the zero task and index 0 on a miss.
   */
  function Lookup(s: seq<Task>, id: string): (r: (Task, nat))
    ensures HasId(s, id) ==>
      r.1 < |s| && r.0 == s[r.1] && r.0.id == id &&
      forall j :: 0 <= j < r.1 ==> s[j].id != id
    ensures !HasId(s, id) ==> r == (ZeroTask, 0)
  {
    var k := FirstIndex(s, id);
    if k < |s| then (s[k], k) else (ZeroTask, 0)
  }

  /** `s` with the name at slot `i` replaced by `name`; that slot keeps its id. */
  function RenameAt(s: seq<Task>, i: nat, name: string): (r: seq<Task>)
    requires i < |s|
    ensures |r| == |s|
    ensures r[i].name == name && r[i].id == s[i].id
    ensures forall j :: 0 <= j < |s| && j != i ==> r[j] == s[j]
  {
    s[i := s[i].(name := name)]
  }

  /** The tasks of `s` whose id is not `id`, in their original order. */
  function Without(s: seq<Task>, id: string): (r: seq<Task>)
    ensures |r| <= |s|
    ensures !HasId(r, id)
  {
    if s == [] then []
    else (if s[0].id == id then [] else [s[0]]) + Without(s[1..], id)
  }

  // ---------------------------------------------------------------------
  // Lookup

  /**
   * The aliasing defect: on a miss in a non-empty collection the index handed
   * to the update is 0, the slot of a task whose id differs from `id`.
   */
  lemma MissAliasesSlotZero(s: seq<Task>, id: string, name: string)
    requires !HasId(s, id) && s != []
    ensures Lookup(s, id).1 == 0
    ensures s[0].id != id
    ensures RenameAt(s, Lookup(s, id).1, name)[0] == Task(name, s[0].id)
  {
  }

  // ---------------------------------------------------------------------
  // Delete

  /** Filtering distributes over concatenation, so relative order is kept. */
  lemma {:induction false} WithoutAppend(a: seq<Task>, b: seq<Task>, id: string)
    ensures Without(a + b, id) == Without(a, id) + Without(b, id)
  {
    if a == [] {
      assert a + b == b;
    } else {
      assert (a + b)[0] == a[0];
      assert (a + b)[1..] == a[1..] + b;
      WithoutAppend(a[1..], b, id);
    }
  }

  /** The tasks kept by the filter are exactly the tasks of `s` whose id differs from `id`. */
  lemma {:induction false} WithoutKeeps(s: seq<Task>, id: string)
    ensures forall t :: t in Without(s, id) <==> t in s && t.id != id
  {
    if s != [] {
      WithoutKeeps(s[1..], id);
      assert s == [s[0]] + s[1..];
    }
  }

  /** Dropping the first task of `s` cannot make an absent id present. */
  lemma TailAbsent(s: seq<Task>, id: string)
    requires s != [] && !HasId(s, id)
    ensures s[0].id != id && !HasId(s[1..], id)
  {
  }

  /** Deleting an id the collection does not hold changes nothing. */
  lemma {:induction false} WithoutAbsent(s: seq<Task>, id: string)
    requires !HasId(s, id)
    ensures Without(s, id) == s
  {
    if s != [] {
      TailAbsent(s, id);
      WithoutAbsent(s[1..], id);
      assert s == [s[0]] + s[1..];
    }
  }

  /** Deleting the same id twice is the same as deleting it once. */
  lemma {:induction false} WithoutIdempotent(s: seq<Task>, id: string)
    ensures Without(Without(s, id), id) == Without(s, id)
  {
    WithoutAbsent(Without(s, id), id);
  }

  /** A slice of `s` holds no id that every task of `s` in that range lacks. */
  lemma SliceAbsent(s: seq<Task>, lo: nat, hi: nat, id: string)
    requires lo <= hi <= |s|
    requires forall j :: lo <= j < hi ==> s[j].id != id
    ensures !HasId(s[lo..hi], id)
  {
  }

  /**
   * With distinct ids, deleting a present id removes exactly the one task that
   * carries it and keeps every other task in place.
   */
  lemma WithoutRemovesOne(s: seq<Task>, id: string)
    requires DistinctIds(s) && HasId(s, id)
    ensures var k := Lookup(s, id).1;
      Without(s, id) == s[..k] + s[k + 1..]
  {
    var k := Lookup(s, id).1;
    var pre, post := s[..k], s[k + 1..];
    assert Without(pre, id) == pre by {
      SliceAbsent(s, 0, k, id);
      assert s[0..k] == pre;
      WithoutAbsent(pre, id);
    }
    assert Without(post, id) == post by {
      SliceAbsent(s, k + 1, |s|, id);
      assert s[k + 1..|s|] == post;
      WithoutAbsent(post, id);
    }
    assert s == pre + [s[k]] + post;
    WithoutRemovesOneAt(pre, s[k], post, id);
  }

  /** Filtering a collection split around the one matching task leaves the two other parts joined. */
  lemma WithoutRemovesOneAt(pre: seq<Task>, t: Task, post: seq<Task>, id: string)
    requires Without(pre, id) == pre && t.id == id && Without(post, id) == post
    ensures Without(pre + [t] + post, id) == pre + post
  {
    assert Without([t], id) == [] by {
      assert [t][1..] == [];
    }
    calc {
      Without(pre + [t] + post, id);
      { WithoutAppend(pre + [t], post, id); }
      Without(pre + [t], id) + Without(post, id);
      { WithoutAppend(pre, [t], id); }
      Without(pre, id) + Without([t], id) + Without(post, id);
      pre + [] + post;
    }
    assert pre + [] + post == pre + post;
  }

  // ---------------------------------------------------------------------
  // The store invariant is preserved by create, update and delete

  /** Appending a task whose id is fresh and non-empty keeps the invariant. */
  lemma AppendWellFormed(s: seq<Task>, t: Task)
    requires WellFormed(s)
    requires t.id != "" && !HasId(s, t.id)
    ensures WellFormed(s + [t])
  {
  }

  /** Renaming one slot keeps every id, so it keeps the invariant. */
  lemma RenameWellFormed(s: seq<Task>, i: nat, name: string)
    requires WellFormed(s) && i < |s|
    ensures WellFormed(RenameAt(s, i, name))
  {
  }

  /** Putting in front a task whose id no later task has keeps the ids distinct. */
  lemma ConsDistinct(t: Task, r: seq<Task>)
    requires DistinctIds(r)
    requires forall u :: u in r ==> u.id != t.id
    ensures DistinctIds([t] + r)
  {
  }

  /** Dropping the first task keeps the invariant. */
  lemma TailWellFormed(s: seq<Task>)
    requires WellFormed(s) && s != []
    ensures WellFormed(s[1..])
    ensures forall u :: u in s[1..] ==> u.id != s[0].id
  {
  }

  /** Filtering keeps the invariant. */
  lemma {:induction false} WithoutWellFormed(s: seq<Task>, id: string)
    requires WellFormed(s)
    ensures WellFormed(Without(s, id))
  {
    if s != [] {
      TailWellFormed(s);
      WithoutWellFormed(s[1..], id);
      var rest := Without(s[1..], id);
      if s[0].id != id {
        WithoutKeeps(s[1..], id);
        ConsDistinct(s[0], rest);
      }
      var r := Without(s, id);
      WithoutKeeps(s, id);
      forall i | 0 <= i < |r| ensures r[i].id != "" {
        assert r[i] in s;
      }
    }
  }
}
