/**
 * components/history-modal.tsx: the dialog that lists the signed-in user's
 * saved generations, filters them by content type and deletes them.
 *
 * The two `fetch` calls are outside the model: what each one does is a
 * parameter (`ListReply`, and whether the delete answered ok). The React
 * state (`history`, `isLoading`, `filter`) becomes the fields of a
 * `HistoryModal` object.
 */
module HistoryModal {
  import opened Wrappers

  /** The filter value that shows every content type. */
  const All: string := "all"

  /** A history item as the list route returns it. */
  datatype Item = Item(id: string, videoTitle: string, videoUrl: string, contentType: string, content: string,
                       analysis: Option<string>, createdAt: string)

  /** The items of `s` that satisfy `keep`, in their order: `Array.prototype.filter`. */
  function Keep(s: seq<Item>, keep: Item -> bool): (r: seq<Item>)
    ensures |r| <= |s|
    ensures forall x :: x in r <==> x in s && keep(x)
  {
    if s == [] then []
    else if keep(s[0]) then [s[0]] + Keep(s[1..], keep)
    else Keep(s[1..], keep)
  }

  /** `a` is `b` with some elements left out and the rest in their order. */
  predicate Subsequence(a: seq<Item>, b: seq<Item>)
    decreases |b|
  {
    if a == [] then true
    else if b == [] then false
    else if a[0] == b[0] then Subsequence(a[1..], b[1..])
    else Subsequence(a, b[1..])
  }

  /** The filter keeps the order of what it keeps. */
  lemma {:induction false} KeepInOrder(s: seq<Item>, keep: Item -> bool)
    ensures Subsequence(Keep(s, keep), s)
  {
    if s != [] {
      KeepInOrder(s[1..], keep);
      if !keep(s[0]) {
        SubsequenceOfTail(Keep(s[1..], keep), s);
      }
    }
  }

  /** Leaving out one more element of `b` keeps a subsequence a subsequence. */
  lemma {:induction false} SubsequenceOfTail(a: seq<Item>, b: seq<Item>)
    requires b != [] && Subsequence(a, b[1..])
    ensures Subsequence(a, b)
    decreases |b|, 0
  {
    if a != [] && a[0] == b[0] {
      DropFirst(a, b[1..]);
    }
  }

  lemma {:induction false} DropFirst(a: seq<Item>, c: seq<Item>)
    requires a != [] && Subsequence(a, c)
    ensures Subsequence(a[1..], c)
    decreases |c|, 1
  {
    if a[0] == c[0] {
      if a[1..] != [] {
        SubsequenceOfTail(a[1..], c);
      }
    } else {
      DropFirst(a, c[1..]);
      SubsequenceOfTail(a[1..], c);
    }
  }

  /** Every copy of a kept item is kept, and no copy of another one. */
  lemma {:induction false} KeepCounts(s: seq<Item>, keep: Item -> bool, x: Item)
    ensures multiset(Keep(s, keep))[x] == if keep(x) then multiset(s)[x] else 0
  {
    if s != [] {
      KeepCounts(s[1..], keep, x);
      assert s == [s[0]] + s[1..];
    }
  }

  /** A filter that keeps everything changes nothing. */
  lemma {:induction false} KeepEverything(s: seq<Item>, keep: Item -> bool)
    requires forall x | x in s :: keep(x)
    ensures Keep(s, keep) == s
  {
    if s != [] {
      KeepEverything(s[1..], keep);
    }
  }

  /** Whether an item shows under `filter`. */
  predicate Shown(filter: string, item: Item) {
    filter == All || item.contentType == filter
  }

  /** `filteredHistory`. */
  function Filtered(history: seq<Item>, filter: string): seq<Item> {
    Keep(history, item => Shown(filter, item))
  }

  /**
   * The filtered list is the items of that content type, every copy of each,
   * in the order of the list; under `all` it is the whole list.
   */
  lemma FilteredIsByType(history: seq<Item>, filter: string, x: Item)
    ensures x in Filtered(history, filter) <==> x in history && (filter == All || x.contentType == filter)
    ensures multiset(Filtered(history, filter))[x] == if Shown(filter, x) then multiset(history)[x] else 0
    ensures Subsequence(Filtered(history, filter), history)
    ensures filter == All ==> Filtered(history, filter) == history
  {
    KeepCounts(history, item => Shown(filter, item), x);
    KeepInOrder(history, item => Shown(filter, item));
    if filter == All {
      KeepEverything(history, item => Shown(filter, item));
    }
  }

  /** The list after deleting `id`: `prev.filter(item => item._id !== id)`. */
  function Without(history: seq<Item>, id: string): seq<Item> {
    Keep(history, (item: Item) => item.id != id)
  }

  /** Deleting removes exactly the items with that id and keeps the others, in order. */
  lemma WithoutRemovesId(history: seq<Item>, id: string, x: Item)
    ensures x in Without(history, id) <==> x in history && x.id != id
    ensures multiset(Without(history, id))[x] == if x.id != id then multiset(history)[x] else 0
    ensures Subsequence(Without(history, id), history)
  {
    KeepCounts(history, (item: Item) => item.id != id, x);
    KeepInOrder(history, (item: Item) => item.id != id);
  }

  /** What the list request does: an ok answer with its `data` field, or a failure. */
  datatype ListReply =
    | Listed(data: Option<seq<Item>>)
    | ListFailed  // not ok, or the request threw

  /** The modal's state. */
  class HistoryModal {
    var history: seq<Item>
    var isLoading: bool
    var filter: string

    constructor()
      ensures history == [] && !isLoading && filter == All
    {
      history := [];
      isLoading := false;
      filter := All;
    }

    /** The query parameters of the list request: a `type` only when a type is chosen. */
    function QueryParams(): (params: seq<(string, string)>)
      reads this
      ensures params == [] <==> filter == All
      ensures params != [] ==> params == [("type", filter)]
    {
      if filter != All then [("type", filter)] else []
    }

    /** `filteredHistory`, over the current state. */
    function FilteredHistory(): seq<Item>
      reads this
    {
      Filtered(history, filter)
    }

    /** The filter buttons: a new filter, with the list as it was until it is fetched again. */
    method SetFilter(f: string)
      modifies this
      ensures filter == f && history == old(history) && isLoading == old(isLoading)
    {
      filter := f;
    }

    /**
     * `fetchHistory`: the request carries `QueryParams()`; an ok answer
     * replaces the list with its `data`, or with nothing when `data` is
     * absent; a failure leaves the list as it was. The modal is not loading
     * afterwards.
     */
    method FetchHistory(reply: ListReply) returns (params: seq<(string, string)>)
      modifies this
      ensures params == QueryParams() && filter == old(filter)
      ensures !isLoading
      ensures reply.Listed? ==> history == reply.data.GetOr([])
      ensures reply.ListFailed? ==> history == old(history)
    {
      isLoading := true;
      params := QueryParams();
      match reply {
        case Listed(data) =>
          history := data.GetOr([]);
        case ListFailed =>
      }
      isLoading := false;
    }

    /**
     * `deleteHistoryItem`: when the delete answers ok, every item with that id
     * leaves the list; otherwise the list is as it was.
     */
    method DeleteHistoryItem(id: string, ok: bool)
      modifies this
      ensures ok ==> history == Without(old(history), id)
      ensures !ok ==> history == old(history)
      ensures filter == old(filter) && isLoading == old(isLoading)
    {
      if ok {
        history := Without(history, id);
      }
    }
  }
}
