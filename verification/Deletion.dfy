/** Paged deletion: collecting every known id and prefix page by page, and emptying a prefix batch by batch. */
module Deletion {
  import opened ControllerTypes
  import opened Sets

  const MAX_DATABASE_PAGES: nat := 1000
  const DATABASE_PAGE_SIZE: nat := 100
  const R2_DELETE_BATCH_SIZE: nat := 1000
  const MAX_R2_DELETE_BATCHES: nat := 10_000

  // ---------------------------------------------------------------- keyset pages

  predicate Ascending(rows: seq<int>) {
    forall i, j :: 0 <= i < j < |rows| ==> rows[i] < rows[j]
  }

  /** WHERE id > cursor, over rows in ascending order. */
  function After(rows: seq<int>, cursor: int): seq<int> {
    if rows == [] then []
    else if rows[0] > cursor then [rows[0]] + After(rows[1..], cursor)
    else After(rows[1..], cursor)
  }

  datatype Page = Page(ids: seq<int>, nextCursor: Option<int>)

  function Limited(rows: seq<int>, limit: nat): seq<int> {
    if |rows| <= limit then rows else rows[..limit]
  }

  /** One page: at most `limit` rows, and a cursor exactly when the page is full. */
  function FindPage(rows: seq<int>, cursor: Option<int>, limit: nat): Page
    requires limit > 0
  {
    var ids := Limited(if cursor.Some? then After(rows, cursor.value) else rows, limit);
    Page(ids, if |ids| == limit then Some(ids[limit - 1]) else None)
  }

  lemma {:induction false} AfterAll(rows: seq<int>, cursor: int)
    requires forall i :: 0 <= i < |rows| ==> rows[i] > cursor
    ensures After(rows, cursor) == rows
  {
    if rows != [] { AfterAll(rows[1..], cursor); }
  }

  /** Resuming after the k-th row yields exactly the rows not yet seen. */
  lemma {:induction false} AfterRow(rows: seq<int>, k: nat)
    requires Ascending(rows) && 0 < k <= |rows|
    ensures After(rows, rows[k - 1]) == rows[k..]
    decreases k
  {
    if k == 1 {
      AfterAll(rows[1..], rows[0]);
    } else {
      AfterRow(rows[1..], k - 1);
      assert rows[1..][k - 2] == rows[k - 1] && rows[1..][k - 1..] == rows[k..];
    }
  }

  lemma {:induction false} AfterIsAfter(rows: seq<int>, cursor: int, i: nat)
    requires i < |After(rows, cursor)|
    ensures After(rows, cursor)[i] > cursor
  {
    if rows[0] > cursor {
      if i > 0 { AfterIsAfter(rows[1..], cursor, i - 1); }
    } else {
      AfterIsAfter(rows[1..], cursor, i);
    }
  }

  lemma PageAt(rows: seq<int>, k: nat, cursor: Option<int>, limit: nat)
    requires Ascending(rows) && k <= |rows| && limit > 0
    requires cursor == if k == 0 then None else Some(rows[k - 1])
    ensures FindPage(rows, cursor, limit).ids == Limited(rows[k..], limit)
  {
    if k > 0 { AfterRow(rows, k); } else { assert rows[0..] == rows; }
  }

  /** On a database that does not change, the loop returns exactly the ids in order when there are fewer than
      100 000 of them, and otherwise ends in its safety error. */
  method FindAllRunpodJobIds(rows: seq<int>) returns (all: Option<seq<int>>)
    requires Ascending(rows)
    ensures all.Some? <==> |rows| < 100_000
    ensures all.Some? ==> all.value == rows
  {
    var jobIds: seq<int> := [];
    var cursor: Option<int> := None;
    var pageIndex: nat := 0;
    while pageIndex < MAX_DATABASE_PAGES
      invariant pageIndex <= MAX_DATABASE_PAGES
      invariant |jobIds| == pageIndex * DATABASE_PAGE_SIZE <= |rows| && jobIds == rows[..|jobIds|]
      invariant cursor == if pageIndex == 0 then None else Some(rows[|jobIds| - 1])
    {
      PageAt(rows, |jobIds|, cursor, DATABASE_PAGE_SIZE);
      var page := FindPage(rows, cursor, DATABASE_PAGE_SIZE);
      jobIds := jobIds + page.ids;
      if page.nextCursor == None { return Some(jobIds); }
      if page.nextCursor == cursor { return None; }
      cursor := page.nextCursor;
      pageIndex := pageIndex + 1;
    }
    return None;
  }

  function Prefixes(generations: seq<int>, prefixOf: int -> string): set<string> {
    set g | g in generations :: prefixOf(g)
  }

  lemma PrefixesAppend(a: seq<int>, b: seq<int>, prefixOf: int -> string)
    ensures Prefixes(a + b, prefixOf) == Prefixes(a, prefixOf) + Prefixes(b, prefixOf)
  {
  }

  lemma PrefixesOne(g: int, prefixOf: int -> string)
    ensures Prefixes([g], prefixOf) == {prefixOf(g)}
  {
    assert g in [g];
  }

  method AddPrefixes(known: set<string>, generations: seq<int>, prefixOf: int -> string) returns (prefixes: set<string>)
    ensures prefixes == known + Prefixes(generations, prefixOf)
  {
    prefixes := known;
    for i := 0 to |generations|
      invariant prefixes == known + Prefixes(generations[..i], prefixOf)
    {
      PrefixesAppend(generations[..i], [generations[i]], prefixOf);
      assert generations[..i + 1] == generations[..i] + [generations[i]];
      PrefixesOne(generations[i], prefixOf);
      prefixes := prefixes + {prefixOf(generations[i])};
    }
    assert generations[..|generations|] == generations;
  }

  lemma NextPage(rows: seq<int>, seen: nat, cursor: int, limit: nat)
    requires Ascending(rows) && seen <= |rows| && limit > 0 && After(rows, cursor) == rows[seen..]
    ensures
      var page := FindPage(rows, Some(cursor), limit);
      && page.ids == Limited(rows[seen..], limit)
      && seen + |page.ids| <= |rows| && rows[..seen + |page.ids|] == rows[..seen] + page.ids
      && (page.nextCursor == None ==> seen + |page.ids| == |rows| < seen + limit)
      && (page.nextCursor.Some? ==>
            && |page.ids| == limit && page.nextCursor.value == rows[seen + limit - 1]
            && After(rows, page.nextCursor.value) == rows[seen + limit..])
  {
    if seen + limit <= |rows| { AfterRow(rows, seen + limit); }
  }

  /** One turn of the prefix loop: the prefixes seen so far grow by those of the page, and the cursor moves on. */
  lemma PrefixTurn(rows: seq<int>, seen: nat, cursor: int, limit: nat, prefixOf: int -> string)
    requires Ascending(rows) && seen <= |rows| && limit > 0 && After(rows, cursor) == rows[seen..]
    ensures
      var page := FindPage(rows, Some(cursor), limit);
      && (page.nextCursor == None ==>
            |rows| < seen + limit && Prefixes(rows[..seen], prefixOf) + Prefixes(page.ids, prefixOf) == Prefixes(rows, prefixOf))
      && (page.nextCursor.Some? ==>
            && seen + limit <= |rows| && cursor < page.nextCursor.value
            && After(rows, page.nextCursor.value) == rows[seen + limit..]
            && Prefixes(rows[..seen], prefixOf) + Prefixes(page.ids, prefixOf) == Prefixes(rows[..seen + limit], prefixOf))
  {
    NextPage(rows, seen, cursor, limit);
    var page := FindPage(rows, Some(cursor), limit);
    PrefixesAppend(rows[..seen], page.ids, prefixOf);
    if page.nextCursor == None {
      assert rows[..|rows|] == rows;
    } else {
      assert rows[seen + limit - 1] == rows[seen..][limit - 1];
      AfterIsAfter(rows, cursor, limit - 1);
    }
  }

  /** `prefixOf` gives the result prefix of each generation; generations start at 1. */
  method FindAllResultPrefixes(generations: seq<int>, prefixOf: int -> string) returns (all: Option<set<string>>)
    requires Ascending(generations) && (forall i :: 0 <= i < |generations| ==> 1 <= generations[i])
    ensures all.Some? <==> |generations| < 100_000
    ensures all.Some? ==> all.value == Prefixes(generations, prefixOf)
  {
    var prefixes: set<string> := {};
    var afterGeneration := 0;
    ghost var seen: nat := 0;
    AfterAll(generations, 0);
    var pageIndex: nat := 0;
    while pageIndex < MAX_DATABASE_PAGES
      invariant pageIndex <= MAX_DATABASE_PAGES
      invariant seen == pageIndex * DATABASE_PAGE_SIZE <= |generations|
      invariant After(generations, afterGeneration) == generations[seen..]
      invariant prefixes == Prefixes(generations[..seen], prefixOf)
    {
      PrefixTurn(generations, seen, afterGeneration, DATABASE_PAGE_SIZE, prefixOf);
      var page := FindPage(generations, Some(afterGeneration), DATABASE_PAGE_SIZE);
      prefixes := AddPrefixes(prefixes, page.ids, prefixOf);
      if page.nextCursor == None { return Some(prefixes); }
      if page.nextCursor.value <= afterGeneration { return None; }
      afterGeneration := page.nextCursor.value;
      seen := seen + DATABASE_PAGE_SIZE;
      pageIndex := pageIndex + 1;
    }
    return None;
  }

  // ---------------------------------------------------------------- emptying a prefix

  predicate StartsWith(key: string, prefix: string) {
    |prefix| <= |key| && key[..|prefix|] == prefix
  }

  function Under(keys: set<string>, prefix: string): set<string> {
    set key | key in keys && StartsWith(key, prefix)
  }

  /** The keys under a prefix are those that continue it. */
  lemma UnderContinues(keys: set<string>, prefix: string, key: string)
    ensures key in Under(keys, prefix) <==> key in keys && exists rest :: key == prefix + rest
  {
    if StartsWith(key, prefix) { assert key == prefix + key[|prefix|..]; }
    if rest :| key == prefix + rest { assert (prefix + rest)[..|prefix|] == prefix; }
  }

  datatype Listing = Listing(keys: set<string>, truncated: bool)

  class Bucket {
    /** When set, no call fails and every listing is as full as its limit allows. */
    const reliable: bool
    var keys: set<string>

    constructor (reliable: bool, keys: set<string>)
      ensures this.reliable == reliable && this.keys == keys
    {
      this.reliable := reliable;
      this.keys := keys;
    }

    /** Some of the keys under the prefix, at most `limit` of them; None on failure. */
    method List(prefix: string, limit: nat) returns (listing: Option<Listing>)
      requires limit > 0
      ensures listing.Some? ==>
        && listing.value.keys <= Under(keys, prefix) && |listing.value.keys| <= limit
        && (listing.value.keys == {} && !listing.value.truncated ==> Under(keys, prefix) == {})
      ensures reliable ==>
        && listing.Some? && (|listing.value.keys| < limit ==> listing.value.keys == Under(keys, prefix))
        && (listing.value.truncated <==> listing.value.keys != Under(keys, prefix))
    {
      var fails: bool, stopEarly: bool := *, *;
      if fails && !reliable { return None; }
      var page: set<string> := {};
      var left := Under(keys, prefix);
      while left != {} && |page| < limit && !(stopEarly && !reliable)
        invariant page + left == Under(keys, prefix) && page !! left && |page| <= limit
        decreases left
      {
        var key := Choose(left);
        left := left - {key};
        page := page + {key};
        stopEarly := *;
      }
      return Some(Listing(page, left != {}));
    }

    method Delete(doomed: set<string>) returns (done: bool)
      modifies this
      ensures done ==> keys == old(keys) - doomed
      ensures !done ==> old(keys) - doomed <= keys <= old(keys)
      ensures reliable ==> done
    {
      var fails: bool := *;
      if fails && !reliable { return false; }
      keys := keys - doomed;
      return true;
    }

    method Head(key: string) returns (present: Option<bool>)
      ensures present.Some? ==> present.value == (key in keys)
      ensures reliable ==> present.Some?
    {
      var fails: bool := *;
      if fails && !reliable { return None; }
      return Some(key in keys);
    }
  }

  lemma UnderWithout(keys: set<string>, page: set<string>, prefix: string)
    requires page <= Under(keys, prefix)
    ensures Under(keys - page, prefix) == Under(keys, prefix) - page
    ensures |Under(keys - page, prefix)| == |Under(keys, prefix)| - |page|
    ensures keys - page - Under(keys - page, prefix) == keys - Under(keys, prefix)
  {
    assert Under(keys - page, prefix) == Under(keys, prefix) - page;
    assert Under(keys, prefix) == (Under(keys, prefix) - page) + page;
  }

  /** On normal return no key is left under the prefix; whatever happens no other key is removed.  With a reliable
      bucket it returns normally exactly when at most 9999 full batches are needed. */
  method DeleteR2Prefix(bucket: Bucket, prefix: string) returns (done: bool)
    modifies bucket
    ensures bucket.keys <= old(bucket.keys)
    ensures old(bucket.keys) - Under(old(bucket.keys), prefix) <= bucket.keys
    ensures done ==> Under(bucket.keys, prefix) == {}
    ensures bucket.reliable ==> (done <==> |Under(old(bucket.keys), prefix)| <= 9_999_000)
  {
    ghost var all := Under(bucket.keys, prefix);
    var batchIndex: nat := 0;
    while batchIndex < MAX_R2_DELETE_BATCHES
      invariant batchIndex <= MAX_R2_DELETE_BATCHES
      invariant bucket.keys <= old(bucket.keys)
      invariant bucket.keys - Under(bucket.keys, prefix) == old(bucket.keys) - all
      invariant bucket.reliable ==>
        |Under(bucket.keys, prefix)| == Remaining(|all|, batchIndex)
      invariant bucket.reliable && batchIndex > 0 ==> |all| > (batchIndex - 1) * R2_DELETE_BATCH_SIZE
    {
      var page := bucket.List(prefix, R2_DELETE_BATCH_SIZE);
      if page == None { return false; }
      var keys := page.value.keys;
      if keys == {} {
        if page.value.truncated { return false; }
        return true;
      }
      ghost var before := bucket.keys;
      UnderWithout(before, keys, prefix);
      var deleted := bucket.Delete(keys);
      if !deleted { return false; }
      batchIndex := batchIndex + 1;
    }
    return false;
  }

  /** How many of `n` keys are left after some full batches. */
  function Remaining(n: nat, batches: nat): nat {
    if n <= batches * R2_DELETE_BATCH_SIZE then 0 else n - batches * R2_DELETE_BATCH_SIZE
  }

  predicate Doomed(key: string, sourceKey: string, prefixes: seq<string>) {
    key == sourceKey || exists i :: 0 <= i < |prefixes| && StartsWith(key, prefixes[i])
  }

  lemma FewerUnder(keys: set<string>, more: set<string>, prefix: string)
    requires keys <= more
    ensures Under(keys, prefix) <= Under(more, prefix) && |Under(keys, prefix)| <= |Under(more, prefix)|
  {
    assert Under(more, prefix) == Under(keys, prefix) + (Under(more, prefix) - Under(keys, prefix));
  }

  /** The source object and everything under the result prefixes are gone on normal return, and nothing else is; with a reliable
      bucket and no prefix too full it returns normally. */
  method DeleteCandidateObjects(bucket: Bucket, sourceKey: string, prefixes: seq<string>) returns (done: bool)
    modifies bucket
    ensures bucket.keys <= old(bucket.keys)
    ensures forall key :: key in old(bucket.keys) && !Doomed(key, sourceKey, prefixes) ==> key in bucket.keys
    ensures done ==> sourceKey !in bucket.keys && forall i :: 0 <= i < |prefixes| ==> Under(bucket.keys, prefixes[i]) == {}
    ensures bucket.reliable && (forall i :: 0 <= i < |prefixes| ==> |Under(old(bucket.keys), prefixes[i])| <= 9_999_000) ==> done
  {
    var deleted := bucket.Delete({sourceKey});
    if !deleted { return false; }
    var present := bucket.Head(sourceKey);
    if present != Some(false) { return false; }
    for i := 0 to |prefixes|
      invariant bucket.keys <= old(bucket.keys) && sourceKey !in bucket.keys
      invariant forall key :: key in old(bucket.keys) && !Doomed(key, sourceKey, prefixes) ==> key in bucket.keys
      invariant forall j :: 0 <= j < i ==> Under(bucket.keys, prefixes[j]) == {}
    {
      ghost var before := bucket.keys;
      FewerUnder(before, old(bucket.keys), prefixes[i]);
      var emptied := DeleteR2Prefix(bucket, prefixes[i]);
      if !emptied { return false; }
      assert forall j :: 0 <= j < i ==> Under(bucket.keys, prefixes[j]) <= Under(before, prefixes[j]);
    }
    return true;
  }
}
