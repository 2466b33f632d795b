/** Reading all active task ids of a tk2sd node, page by page. */
module ActiveTasks {
  import opened Domain

  datatype Entry = Entry(id: string, running: bool)

  /** An answer to one page request; absent fields are None. */
  datatype Reply = Failure | Reply(total: Option<int>, items: Option<seq<Entry>>)

  const PAGE_SIZE: nat := 100
  const MAX_PAGES: nat := 100

  /** What has been gathered: the announced total and the ids so far. */
  datatype Gathered = Gathered(total: int, ids: seq<string>)

  predicate Distinct(ids: seq<string>) {
    forall i, j | 0 <= i < j < |ids| :: ids[i] != ids[j]
  }

  function Ids(items: seq<Entry>): (ids: seq<string>)
    ensures |ids| == |items| && forall i | 0 <= i < |items| :: ids[i] == items[i].id
  {
    seq(|items|, i requires 0 <= i < |items| => items[i].id)
  }

  /** A page that may be added: the total stands, its length is right, all ids are new, valid and running. */
  predicate Acceptable(g: Option<Gathered>, r: Reply, valid: string -> bool) {
    && r.Reply? && r.total.Some? && r.items.Some? && 0 <= r.total.value <= MAX_PAGES * PAGE_SIZE
    && (g.Some? ==> g.value.total == r.total.value)
    && var ids := if g.Some? then g.value.ids else [];
    && |r.items.value| == Min(PAGE_SIZE, r.total.value - |ids|)
    && (forall i | 0 <= i < |r.items.value| :: valid(r.items.value[i].id) && r.items.value[i].running)
    && Distinct(ids + Ids(r.items.value))
  }

  function Added(g: Option<Gathered>, r: Reply): Gathered
    requires r.Reply? && r.total.Some? && r.items.Some?
  {
    Gathered(r.total.value, (if g.Some? then g.value.ids else []) + Ids(r.items.value))
  }

  /** The state after `n` pages, if all were acceptable. */
  function After(answer: nat -> Reply, valid: string -> bool, n: nat): Option<Option<Gathered>> {
    if n == 0 then Some(None) else
    var g := After(answer, valid, n - 1);
    if g.Some? && Acceptable(g.value, answer(n), valid) then Some(Some(Added(g.value, answer(n)))) else None
  }

  /** How many pages a total takes. */
  function Pages(total: nat): nat {
    if total == 0 then 1 else (total + PAGE_SIZE - 1) / PAGE_SIZE
  }

  /** Goes through the entries of a page one by one with a set of the ids seen. */
  method AddPage(ids: seq<string>, items: seq<Entry>, valid: string -> bool) returns (ok: bool, more: seq<string>)
    requires Distinct(ids)
    ensures ok <==> && (forall i | 0 <= i < |items| :: valid(items[i].id) && items[i].running)
                    && Distinct(ids + Ids(items))
    ensures ok ==> more == ids + Ids(items)
  {
    more := ids;
    var seen := set id | id in ids;
    for i := 0 to |items|
      invariant more == ids + Ids(items[..i]) && Distinct(more)
      invariant forall id :: id in seen <==> id in more
      invariant forall j | 0 <= j < i :: valid(items[j].id) && items[j].running
    {
      assert Ids(items[..i + 1]) == Ids(items[..i]) + [items[i].id];
      if !valid(items[i].id) || items[i].id in seen || !items[i].running {
        if items[i].id in seen {
          var k :| 0 <= k < |more| && more[k] == items[i].id;
          Repeats(ids, items, k, i);
        }
        return false, more;
      }
      seen := seen + {items[i].id};
      more := more + [items[i].id];
    }
    assert items[..|items|] == items;
    return true, more;
  }

  lemma Repeats(ids: seq<string>, items: seq<Entry>, k: nat, i: nat)
    requires i < |items| && k < |ids| + i && (ids + Ids(items[..i]))[k] == items[i].id
    ensures !Distinct(ids + Ids(items))
  {
    var all := ids + Ids(items);
    assert all[k] == items[i].id && all[|ids| + i] == items[i].id;
  }

  /**
   Reads until the announced total is reached.  On success the ids are as many as announced,
   distinct, and no page more than needed was asked for.  Otherwise the last page was refused:
   running out of pages cannot happen.
   */
  method ActiveTaskIds(answer: nat -> Reply, valid: string -> bool) returns (result: Option<seq<string>>, used: nat)
    ensures 1 <= used <= MAX_PAGES
    ensures result.Some? ==>
              var g := After(answer, valid, used);
              && g.Some? && g.value.Some? && result.value == g.value.value.ids && Distinct(result.value)
              && |result.value| == g.value.value.total && used == Pages(|result.value|)
    ensures result.None? ==> && After(answer, valid, used - 1).Some?
                             && !Acceptable(After(answer, valid, used - 1).value, answer(used), valid)
  {
    var ids: seq<string> := [];
    var total := -1;
    used := 0;
    var complete := false;
    while used < MAX_PAGES && !complete
      invariant used <= MAX_PAGES && Distinct(ids)
      invariant complete ==> used >= 1
      invariant After(answer, valid, used) == Some(if used == 0 then None else Some(Gathered(total, ids)))
      invariant used == 0 ==> total == -1 && ids == []
      invariant used > 0 ==> 0 <= total <= MAX_PAGES * PAGE_SIZE && |ids| <= total
      invariant complete ==> |ids| == total && used == Pages(total)
      invariant !complete && used > 0 ==> |ids| == used * PAGE_SIZE < total
      decreases MAX_PAGES - used, !complete
    {
      used := used + 1;
      var r := answer(used);
      if r.Failure? || r.total.None? || r.items.None? || r.total.value < 0 || r.total.value > MAX_PAGES * PAGE_SIZE {
        return None, used;
      }
      if total == -1 { total := r.total.value; }
      if total != r.total.value || |r.items.value| != Min(PAGE_SIZE, total - |ids|) { return None, used; }
      var ok, more := AddPage(ids, r.items.value, valid);
      if !ok { return None, used; }
      ids := more;
      complete := |ids| == total;
    }
    assert complete;
    return Some(ids), used;
  }
}
