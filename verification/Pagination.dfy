/** Bounded collection of a cursor catalog (mcp/pagination.py; MCP specification 2025-11-25, Server Utilities / Pagination). */
module Pagination {
  import opened Messages

  datatype Page<T> = Page(items: seq<T>, nextCursor: Option<string>)

  /** An empty cursor counts as no cursor. */
  predicate HasNext<T>(p: Page<T>) { p.nextCursor.Some? && p.nextCursor.value != "" }

  datatype Result<T> = Collected(items: seq<T>, pages: nat, truncated: bool) | RepeatedCursor | BadLimits

  /** The items of the first `n` answers, concatenated. */
  function Items<T>(answers: nat -> Page<T>, n: nat): seq<T> {
    if n == 0 then [] else Items(answers, n - 1) + answers(n - 1).items
  }

  function Take<T>(s: seq<T>, n: nat): seq<T> { if n <= |s| then s[..n] else s }

  /** The requests of a collection: the first without a cursor, each later one with the cursor of the answer before. */
  predicate Follows<T>(answers: nat -> Page<T>, cursors: seq<Option<string>>) {
    && cursors != [] && cursors[0] == None
    && forall k :: 0 < k < |cursors| ==> AsksFor(cursors[k], answers(k - 1))
  }

  /** The request goes on where the answer left off. */
  predicate AsksFor<T>(cursor: Option<string>, answer: Page<T>) { HasNext(answer) && cursor == answer.nextCursor }

  predicate Distinct(cursors: seq<Option<string>>) {
    forall i, j :: 0 <= i < j < |cursors| ==> cursors[i] != cursors[j]
  }

  lemma {:induction false} ItemsGrow<T>(answers: nat -> Page<T>, m: nat, n: nat)
    requires m <= n
    ensures Items(answers, m) <= Items(answers, n)
  {
    if m < n {
      ItemsGrow(answers, m, n - 1);
    }
  }

  lemma FollowsAppend<T>(answers: nat -> Page<T>, cursors: seq<Option<string>>, cursor: Option<string>)
    requires if cursors == [] then cursor == None
             else Follows(answers, cursors) && AsksFor(cursor, answers(|cursors| - 1))
    ensures Follows(answers, cursors + [cursor])
  {
    var all := cursors + [cursor];
    assert forall k :: 0 < k < |cursors| ==> AsksFor(cursors[k], answers(k - 1)) && all[k] == cursors[k];
  }

  /**
   * What a collection must be, whatever the server answers: at most `maxPages` requests with pairwise
   * distinct cursors, each taken from the answer before; the first `maxItems` items of the pages fetched;
   * truncated exactly when an item was dropped or the last page had a next cursor; and an error exactly
   * when a cursor comes back before a limit ends the collection.
   */
  ghost predicate IsCollection<T(!new)>(answers: nat -> Page<T>, maxPages: int, maxItems: int, r: Result<T>, cursors: seq<Option<string>>) {
    if maxPages < 1 || maxItems < 1 then r == BadLimits && cursors == []
    else
      && 0 < |cursors| <= maxPages && Follows(answers, cursors) && Distinct(cursors)
      && |Items(answers, |cursors| - 1)| <= maxItems
      && var n, last, all := |cursors|, answers(|cursors| - 1), Items(answers, |cursors|);
      match r {
        case BadLimits => false
        case RepeatedCursor => HasNext(last) && last.nextCursor in cursors && |all| <= maxItems
        case Collected(items, pages, truncated) =>
          && pages == n && items == Take(all, maxItems)
          && (truncated <==> |all| > maxItems || HasNext(last))
          && (|all| <= maxItems && HasNext(last) ==> n == maxPages && last.nextCursor !in cursors)
      }
  }

  lemma {:induction false} SamePrefix<T>(answers: nat -> Page<T>, a: seq<Option<string>>, b: seq<Option<string>>, k: nat)
    requires Follows(answers, a) && Follows(answers, b) && k < |a| && k < |b|
    ensures a[k] == b[k]
  {
    if k > 0 {
      assert AsksFor(a[k], answers(k - 1)) && AsksFor(b[k], answers(k - 1));
    }
  }

  lemma NotLonger<T(!new)>(answers: nat -> Page<T>, maxPages: int, maxItems: int,
      r: Result<T>, a: seq<Option<string>>, q: Result<T>, b: seq<Option<string>>)
    requires IsCollection(answers, maxPages, maxItems, r, a) && IsCollection(answers, maxPages, maxItems, q, b)
    ensures |b| <= |a|
  {
    if |a| < |b| {
      ItemsGrow(answers, |a|, |b| - 1);
      GoesOn(answers, a, b);
    }
  }

  /** A longer run of requests asks for a cursor that the shorter one has not used. */
  lemma GoesOn<T>(answers: nat -> Page<T>, a: seq<Option<string>>, b: seq<Option<string>>)
    requires Follows(answers, a) && Follows(answers, b) && |a| < |b| && Distinct(b)
    ensures var last := answers(|a| - 1); HasNext(last) && last.nextCursor !in a
  {
    assert AsksFor(b[|a|], answers(|a| - 1));
    forall k | 0 <= k < |a|
      ensures a[k] != b[|a|]
    {
      SamePrefix(answers, a, b, k);
      assert b[k] != b[|a|];
    }
  }

  /** These conditions leave no choice: a server's answers determine the result and the requests. */
  lemma CollectionIsUnique<T(!new)>(answers: nat -> Page<T>, maxPages: int, maxItems: int,
      r: Result<T>, a: seq<Option<string>>, q: Result<T>, b: seq<Option<string>>)
    requires IsCollection(answers, maxPages, maxItems, r, a) && IsCollection(answers, maxPages, maxItems, q, b)
    ensures r == q && a == b
  {
    NotLonger(answers, maxPages, maxItems, r, a, q, b);
    NotLonger(answers, maxPages, maxItems, q, b, r, a);
    forall k | 0 <= k < |a|
      ensures a[k] == b[k]
    {
      SamePrefix(answers, a, b, k);
    }
  }

  /** `answers(k)` is what the server says to the k-th request; `cursors` are the requests made. */
  method CollectPaginated<T(!new)>(answers: nat -> Page<T>, maxPages: int, maxItems: int)
      returns (r: Result<T>, cursors: seq<Option<string>>)
    ensures IsCollection(answers, maxPages, maxItems, r, cursors)
  {
    if maxPages < 1 || maxItems < 1 {
      return BadLimits, [];
    }
    var items: seq<T>, seen: set<string>, cursor: Option<string> := [], {}, None;
    var pageCount := 0;
    cursors := [];
    while true
      invariant 0 <= pageCount == |cursors| < maxPages
      invariant items == Items(answers, pageCount) && |items| <= maxItems
      invariant if pageCount == 0 then cursor == None else AsksFor(cursor, answers(pageCount - 1))
      invariant pageCount > 0 ==> Follows(answers, cursors)
      invariant Distinct(cursors + [cursor])
      invariant forall c :: c in seen <==> Some(c) in cursors + [cursor]
      decreases maxPages - pageCount
    {
      pageCount := pageCount + 1;
      var page := answers(pageCount - 1);
      FollowsAppend(answers, cursors, cursor);
      cursors := cursors + [cursor];
      var remaining := maxItems - |items|;
      items := items + Take(page.items, remaining);
      if |page.items| > remaining {
        return Collected(items, pageCount, true), cursors;
      }
      if !HasNext(page) {
        return Collected(items, pageCount, false), cursors;
      }
      var next := page.nextCursor.value;
      if next in seen || cursor == Some(next) {
        return RepeatedCursor, cursors;
      }
      seen := seen + {next};
      if pageCount >= maxPages {
        return Collected(items, pageCount, true), cursors;
      }
      cursor := Some(next);
    }
  }
}
