/**
  The three list operations the view applies to its todos: removal by id
  (`filter` on `id !==`), replacement by id (`map` on `id ===`) and the
  completed/incomplete projection (`filter` on `completed ===`).
 */
module TodoList {
  import opened Api
  import opened Seqs

  /** The ids present in a list. */
  function Ids(ts: seq<Todo>): set<Id>
  {
    set t | t in ts :: t.id
  }

  /** Keeps the todos whose id differs from `id`. */
  function OtherId(id: Id): Todo -> bool
  {
    (t: Todo) => t.id != id
  }

  /** Keeps the todos whose completed flag equals `done`. */
  function StatusIs(done: bool): Todo -> bool
  {
    (t: Todo) => t.completed == done
  }

  /** Deletes every todo carrying `id`; the survivors keep their order and
      multiplicity. Deleting an absent id changes nothing. */
  function RemoveById(ts: seq<Todo>, id: Id): (r: seq<Todo>)
    ensures IsSubsequence(r, ts)
    ensures forall t :: t in r <==> t in ts && t.id != id
    ensures forall t :: multiset(r)[t] == if t.id != id then multiset(ts)[t] else 0
    ensures Ids(r) == Ids(ts) - {id}
    ensures |r| <= |ts|
    ensures id in Ids(ts) ==> |r| < |ts|
    ensures id !in Ids(ts) ==> r == ts
  {
    var r := Filter(ts, OtherId(id));
    FilterIsSubsequence(ts, OtherId(id));
    FilterCounts(ts, OtherId(id));
    RemovedIds(ts, id, r);
    if id in Ids(ts) then
      var t :| t in ts && t.id == id;
      RemovalShrinks(ts, t, r);
      r
    else
      FilterKeepsAll(ts, OtherId(id));
      r
  }

  /** A list holding exactly the entries of `ts` without `id` has the ids of
      `ts` except `id`. */
  lemma RemovedIds(ts: seq<Todo>, id: Id, r: seq<Todo>)
    requires forall t :: t in r <==> t in ts && t.id != id
    ensures Ids(r) == Ids(ts) - {id}
  {
  }

  /** Filtering out an id that is present drops at least one entry. */
  lemma RemovalShrinks(ts: seq<Todo>, t: Todo, r: seq<Todo>)
    requires t in ts
    requires forall x :: multiset(r)[x] == if x.id != t.id then multiset(ts)[x] else 0
    ensures |r| < |ts|
  {
    var a, b := multiset(r), multiset(ts);
    assert a <= b;
    assert t in b - a;
    assert b == a + (b - a);
  }

  /** Puts `t'` in place of every todo carrying `id`, leaving the length and
      every other position as they were. */
  function ReplaceById(ts: seq<Todo>, id: Id, t': Todo): (r: seq<Todo>)
    ensures |r| == |ts|
    ensures forall i :: 0 <= i < |ts| ==> r[i] == if ts[i].id == id then t' else ts[i]
  {
    if |ts| == 0 then []
    else [if ts[0].id == id then t' else ts[0]] + ReplaceById(ts[1..], id, t')
  }

  /** Replacing an id nobody carries is the identity. */
  lemma ReplaceAbsent(ts: seq<Todo>, id: Id, t': Todo)
    requires id !in Ids(ts)
    ensures ReplaceById(ts, id, t') == ts
  {
  }

  /** Replacing an id that is present removes `id` from the id set and adds
      the replacement's id, and nothing else. */
  lemma ReplacedIds(ts: seq<Todo>, id: Id, t': Todo)
    requires id in Ids(ts)
    ensures Ids(ReplaceById(ts, id, t')) == Ids(ts) - {id} + {t'.id}
  {
  }

  /** Replacement brings in no id but the replacement's own. */
  lemma ReplaceByIdIdsBound(ts: seq<Todo>, id: Id, t': Todo)
    ensures Ids(ReplaceById(ts, id, t')) <= Ids(ts) + {t'.id}
  {
    if id in Ids(ts) {
      ReplacedIds(ts, id, t');
    } else {
      ReplaceAbsent(ts, id, t');
    }
  }

  /** The todos whose completed flag equals `done`, in list order. */
  function WithStatus(ts: seq<Todo>, done: bool): (r: seq<Todo>)
    ensures IsSubsequence(r, ts)
    ensures forall t :: t in r <==> t in ts && t.completed == done
    ensures forall t :: multiset(r)[t] == if t.completed == done then multiset(ts)[t] else 0
  {
    FilterIsSubsequence(ts, StatusIs(done));
    FilterCounts(ts, StatusIs(done));
    Filter(ts, StatusIs(done))
  }

  /** The completed and the incomplete projections split the list: no todo
      is in both, every todo is in the one its flag selects, and between them
      they hold every entry exactly once. */
  lemma StatusPartition(ts: seq<Todo>)
    ensures multiset(WithStatus(ts, true)) + multiset(WithStatus(ts, false)) == multiset(ts)
    ensures |WithStatus(ts, true)| + |WithStatus(ts, false)| == |ts|
    ensures forall t :: !(t in WithStatus(ts, true) && t in WithStatus(ts, false))
    ensures forall t :: t in ts ==> t in WithStatus(ts, t.completed)
  {
    FilterPartition(ts, StatusIs(true), StatusIs(false));
  }
}
