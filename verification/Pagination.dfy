module Pagination {
  // Authorized cursor pages. Candidates come from Asset Core in (timestamp DESC,
  // id ASC) order by keyset; Access Core scans them in bounded batches, drops what
  // the user may not see, and cuts pages. Following the cursors yields exactly the
  // permitted candidates.

  import opened Wrappers

  datatype Kind = FolderEntry | MetadataEntry

  /** A metadata item, or a recycle-bin entry and the resource it stands for. */
  datatype Candidate = Candidate(at: int, id: nat, kind: Kind, resource: nat)

  type Position = (int, nat)

  const LOOKAHEAD: nat := 1
  const MAX_BATCHES: nat := 10

  function PositionOf(c: Candidate): Position { (c.at, c.id) }

  // ---- the order ----

  /** Later timestamps first, then smaller ids. */
  predicate Precedes(p: Position, q: Position) {
    p.0 > q.0 || (p.0 == q.0 && p.1 < q.1)
  }

  predicate InOrder(s: seq<Candidate>, i: nat, j: nat) {
    i < j < |s| ==> Precedes(PositionOf(s[i]), PositionOf(s[j]))
  }

  ghost predicate Sorted(s: seq<Candidate>) {
    forall i: nat, j: nat {:trigger InOrder(s, i, j)} :: InOrder(s, i, j)
  }

  lemma SortedTail(s: seq<Candidate>)
    requires Sorted(s) && s != []
    ensures Sorted(s[1..])
  {
    forall i: nat, j: nat ensures InOrder(s[1..], i, j) { assert InOrder(s, i + 1, j + 1); }
  }

  // ---- filtering ----

  function Filter(s: seq<Candidate>, keep: set<Candidate>): (r: seq<Candidate>)
    ensures |r| <= |s|
  {
    if s == [] then [] else if s[0] in keep then [s[0]] + Filter(s[1..], keep) else Filter(s[1..], keep)
  }

  lemma {:induction false} FilterMembers(s: seq<Candidate>, keep: set<Candidate>, c: Candidate)
    ensures c in Filter(s, keep) <==> c in s && c in keep
  {
    if s != [] {
      FilterMembers(s[1..], keep, c);
      assert s == [s[0]] + s[1..];
    }
  }

  /** A filtered list keeps the order: a walk's answer repeats nothing. */
  lemma {:induction false} FilterSorted(s: seq<Candidate>, keep: set<Candidate>)
    requires Sorted(s)
    ensures Sorted(Filter(s, keep))
    ensures Filter(s, keep) != [] ==> Filter(s, keep)[0] in s
  {
    if s != [] {
      SortedTail(s);
      FilterSorted(s[1..], keep);
      if s[0] in keep {
        var r, tail := Filter(s, keep), Filter(s[1..], keep);
        forall i: nat, j: nat ensures InOrder(r, i, j) {
          if i < j < |r| {
            if i > 0 { assert InOrder(tail, i - 1, j - 1); } else { HeadFirst(s, keep, j - 1); }
          }
        }
      }
    }
  }

  lemma HeadFirst(s: seq<Candidate>, keep: set<Candidate>, j: nat)
    requires Sorted(s) && s != [] && j < |Filter(s[1..], keep)|
    ensures Precedes(PositionOf(s[0]), PositionOf(Filter(s[1..], keep)[j]))
  {
    var c := Filter(s[1..], keep)[j];
    FilterMembers(s[1..], keep, c);
    var k :| 0 <= k < |s[1..]| && s[1..][k] == c;
    assert InOrder(s, 0, k + 1);
  }

  lemma FilterCons(head: Candidate, tail: seq<Candidate>, keep: set<Candidate>)
    ensures Filter([head] + tail, keep) == if head in keep then [head] + Filter(tail, keep) else Filter(tail, keep)
  {
    assert ([head] + tail)[1..] == tail;
  }

  lemma ConcatAssociates(a: seq<Candidate>, b: seq<Candidate>, c: seq<Candidate>)
    ensures a + (b + c) == (a + b) + c
  {
  }

  lemma {:induction false} FilterAppend(a: seq<Candidate>, b: seq<Candidate>, keep: set<Candidate>)
    ensures Filter(a + b, keep) == Filter(a, keep) + Filter(b, keep)
  {
    if a == [] {
      assert a + b == b;
    } else {
      var head, tail := a[0], a[1..];
      FilterAppend(tail, b, keep);
      assert a == [head] + tail;
      ConcatAssociates([head], tail, b);
      FilterCons(head, tail, keep);
      FilterCons(head, tail + b, keep);
      ConcatAssociates([head], Filter(tail, keep), Filter(b, keep));
    }
  }

  // ---- the keyset continuation ----

  /** The candidates strictly after a position, as the order defines them. */
  function Successors(all: seq<Candidate>, after: Position): seq<Candidate> {
    if all == [] then []
    else if Precedes(after, PositionOf(all[0])) then [all[0]] + Successors(all[1..], after)
    else Successors(all[1..], after)
  }

  /** `updated_at = ? AND id > ?`, in order. */
  function SameTimestamp(all: seq<Candidate>, after: Position): seq<Candidate> {
    if all == [] then []
    else if all[0].at == after.0 && all[0].id > after.1 then [all[0]] + SameTimestamp(all[1..], after)
    else SameTimestamp(all[1..], after)
  }

  /** `updated_at < ?`, in order. */
  function EarlierTimestamp(all: seq<Candidate>, after: Position): seq<Candidate> {
    if all == [] then []
    else if all[0].at < after.0 then [all[0]] + EarlierTimestamp(all[1..], after)
    else EarlierTimestamp(all[1..], after)
  }

  /** The `UNION ALL` of the two ordered ranges. */
  function TwoRanges(all: seq<Candidate>, after: Position): seq<Candidate> {
    SameTimestamp(all, after) + EarlierTimestamp(all, after)
  }

  predicate Holds(all: seq<Candidate>, p: Position) {
    exists i :: 0 <= i < |all| && PositionOf(all[i]) == p
  }

  /** Once one candidate follows a position, all later ones do. */
  lemma {:induction false} AllFollow(all: seq<Candidate>, after: Position)
    requires Sorted(all) && (all != [] ==> Precedes(after, PositionOf(all[0])))
    ensures Successors(all, after) == all
  {
    if all != [] {
      SortedTail(all);
      if |all| > 1 { assert InOrder(all, 0, 1); }
      AllFollow(all[1..], after);
      assert all == [all[0]] + all[1..];
    }
  }

  /** What follows a position is a suffix of the sorted list. */
  lemma {:induction false} SuccessorsAreSuffix(all: seq<Candidate>, after: Position) returns (i: nat)
    requires Sorted(all)
    ensures i <= |all| && Successors(all, after) == all[i..]
    ensures i > 0 ==> !Precedes(after, PositionOf(all[i - 1]))
    ensures i < |all| ==> Precedes(after, PositionOf(all[i]))
  {
    if all == [] {
      i := 0;
    } else if Precedes(after, PositionOf(all[0])) {
      i := 0;
      AllFollow(all, after);
    } else {
      SortedTail(all);
      i := SuccessorsAreSuffix(all[1..], after);
      i := i + 1;
      assert all[1..][i - 1..] == all[i..];
    }
  }

  lemma {:induction false} NoneAtTimestamp(all: seq<Candidate>, after: Position)
    requires Sorted(all) && (all != [] ==> all[0].at < after.0)
    ensures SameTimestamp(all, after) == []
  {
    if all != [] {
      SortedTail(all);
      if |all| > 1 { assert InOrder(all, 0, 1); }
      NoneAtTimestamp(all[1..], after);
    }
  }

  /**
   The two ranges are the strict successors in their order, for every position,
   so the outer ORDER BY has nothing left to do.
   */
  lemma {:induction false} TwoRangesAreSuccessors(all: seq<Candidate>, after: Position)
    requires Sorted(all)
    ensures TwoRanges(all, after) == Successors(all, after)
  {
    if all != [] {
      SortedTail(all);
      TwoRangesAreSuccessors(all[1..], after);
      if all[0].at < after.0 { NoneAtTimestamp(all, after); }
    }
  }

  /** The suffix after the item at index `i` is what its own cursor continues with. */
  lemma SuccessorsOfItem(all: seq<Candidate>, i: nat)
    requires Sorted(all) && i < |all|
    ensures Successors(all, PositionOf(all[i])) == all[i + 1..]
  {
    var n := SuccessorsAreSuffix(all, PositionOf(all[i]));
    assert InOrder(all, n, i) && InOrder(all, i, i + 1) && (n > 0 ==> InOrder(all, i, n - 1));
  }

  // ---- Asset Core: one candidate page ----

  datatype Fetched = Fetched(items: seq<Candidate>, hasMore: bool) | CursorInvalid

  function Rest(all: seq<Candidate>, after: Option<Position>): seq<Candidate> {
    if after.None? then all else Successors(all, after.value)
  }

  /** A batch and whether more follow it. */
  function Batch(rest: seq<Candidate>, size: nat): Fetched {
    Fetched(if |rest| > size then rest[..size] else rest, |rest| > size)
  }

  /**
   The query with one row beyond the batch, and the handler that trims it. The cursor's row is
   looked up among all rows of the list, the page is read from those that match the search.
   */
  method FetchCandidatePage(rows: seq<Candidate>, matching: set<Candidate>, batchSize: nat, after: Option<Position>) returns (r: Fetched)
    requires Sorted(rows)
    ensures r == CursorInvalid <==> after.Some? && !Holds(rows, after.value)
    ensures r != CursorInvalid ==> r == Batch(Rest(Filter(rows, matching), after), batchSize)
  {
    var all := Filter(rows, matching);
    FilterSorted(rows, matching);
    if after.Some? {
      if !exists i :: 0 <= i < |rows| && PositionOf(rows[i]) == after.value { return CursorInvalid; }
      TwoRangesAreSuccessors(all, after.value);
    }
    var limit := batchSize + LOOKAHEAD;
    var following := if after.Some? then TwoRanges(all, after.value) else all;
    var items := if |following| > limit then following[..limit] else following;
    var hasMore := false;
    if |items| > limit - LOOKAHEAD {
      hasMore := true;
      items := items[..limit - LOOKAHEAD];
      assert items == following[..batchSize];
    }
    r := Fetched(items, hasMore);
  }

  // ---- Access Core: one visible page ----

  datatype Page = Page(nodes: seq<Candidate>, endCursor: Option<Position>, hasNextPage: bool) | CursorRefused | InternalError

  /** `toMetadataConnection`, `toRecycleBinConnection` */
  function Connection(visible: seq<Candidate>, first: nat, hasNextPage: bool): Page {
    var nodes := if |visible| > first then visible[..first] else visible;
    Page(nodes, if nodes == [] then None else Some(PositionOf(nodes[|nodes| - 1])), hasNextPage)
  }

  /** The page a reader wants: the first permitted candidates, and whether there are more. */
  function WantedPage(rest: seq<Candidate>, first: nat, allowed: set<Candidate>): Page {
    Connection(Filter(rest, allowed), first, |Filter(rest, allowed)| > first)
  }

  /** Ten full batches hold too few permitted candidates, and there are still more. */
  predicate LimitHit(rest: seq<Candidate>, first: nat, allowed: set<Candidate>) {
    var scanned := MAX_BATCHES * (first + LOOKAHEAD);
    |rest| > scanned && |Filter(rest[..scanned], allowed)| < first + LOOKAHEAD
  }

  lemma FilterPrefix(rest: seq<Candidate>, n: nat, allowed: set<Candidate>)
    requires n <= |rest|
    ensures Filter(rest, allowed) == Filter(rest[..n], allowed) + Filter(rest[n..], allowed)
  {
    assert rest == rest[..n] + rest[n..];
    FilterAppend(rest[..n], rest[n..], allowed);
  }

  /** Enough permitted candidates in a prefix decide the page. */
  lemma PrefixDecides(rest: seq<Candidate>, n: nat, first: nat, allowed: set<Candidate>)
    requires n <= |rest| && |Filter(rest[..n], allowed)| >= first + LOOKAHEAD
    ensures Connection(Filter(rest[..n], allowed), first, true) == WantedPage(rest, first, allowed)
  {
    FilterPrefix(rest, n, allowed);
    assert Filter(rest, allowed)[..first] == Filter(rest[..n], allowed)[..first];
  }

  /** What a page read answers: the wanted page, unless the batch limit was hit. */
  function PageOf(rest: seq<Candidate>, first: nat, allowed: set<Candidate>): Page {
    if LimitHit(rest, first, allowed) then InternalError else WantedPage(rest, first, allowed)
  }

  // ---- the scan, by place in the list ----

  /** `pos` is a cursor of the list, and behind it come the candidates from `at` on. */
  ghost predicate At(rows: seq<Candidate>, all: seq<Candidate>, at: nat, pos: Option<Position>) {
    at <= |all| && Rest(all, pos) == all[at..] && (pos.None? || Holds(rows, pos.value))
  }

  lemma PlaceOf(rows: seq<Candidate>, all: seq<Candidate>, pos: Option<Position>) returns (at: nat)
    requires Sorted(all)
    ensures pos.None? || Holds(rows, pos.value) ==> At(rows, all, at, pos)
  {
    at := 0;
    if pos.Some? { at := SuccessorsAreSuffix(all, pos.value); }
  }

  /** The cursor of a candidate continues behind it, and is a cursor of the list. */
  lemma PlaceBehind(rows: seq<Candidate>, matching: set<Candidate>, i: nat)
    requires Sorted(rows) && i < |Filter(rows, matching)|
    ensures At(rows, Filter(rows, matching), i + 1, Some(PositionOf(Filter(rows, matching)[i])))
  {
    var all := Filter(rows, matching);
    FilterSorted(rows, matching);
    SuccessorsOfItem(all, i);
    FilterMembers(rows, matching, all[i]);
    assert all[i] in rows;
  }

  /** One more batch: the permitted candidates up to its end. */
  lemma BatchSeen(all: seq<Candidate>, start: nat, at: nat, size: nat, allowed: set<Candidate>)
    requires start <= at <= |all|
    ensures
      var fetched := Batch(all[at..], size);
      var next := at + |fetched.items|;
      && fetched.hasMore == (at + size < |all|) && next == (if fetched.hasMore then at + size else |all|)
      && (forall i :: 0 <= i < |fetched.items| ==> fetched.items[i] == all[at + i])
      && Filter(all[start..at], allowed) + Filter(fetched.items, allowed) == Filter(all[start..next], allowed)
      && (!fetched.hasMore ==> Filter(all[start..next], allowed) == Filter(all[start..], allowed))
  {
    var items := Batch(all[at..], size).items;
    assert all[start..|all|] == all[start..];
    assert all[start..at + |items|] == all[start..at] + items;
    FilterAppend(all[start..at], items, allowed);
  }

  lemma FullPage(all: seq<Candidate>, start: nat, next: nat, first: nat, allowed: set<Candidate>, visible: seq<Candidate>)
    requires start <= next <= |all| && next - start <= MAX_BATCHES * (first + LOOKAHEAD)
    requires visible == Filter(all[start..next], allowed) || (next == |all| && visible == Filter(all[start..], allowed))
    requires |visible| >= first + LOOKAHEAD
    ensures Connection(visible, first, true) == PageOf(all[start..], first, allowed)
  {
    var rest, n := all[start..], next - start;
    assert rest[..n] == all[start..next];
    if next == |all| { assert rest[..n] == rest; }
    PrefixDecides(rest, n, first, allowed);
    EarlyEnough(rest, n, first, allowed);
  }

  /** With everything read, too few permitted candidates make the last page. */
  lemma LastPage(all: seq<Candidate>, start: nat, first: nat, allowed: set<Candidate>, visible: seq<Candidate>)
    requires start <= |all| <= start + MAX_BATCHES * (first + LOOKAHEAD)
    requires visible == Filter(all[start..], allowed) && |visible| <= first
    ensures Connection(visible, first, false) == PageOf(all[start..], first, allowed)
  {
  }

  lemma GiveUp(all: seq<Candidate>, start: nat, at: nat, first: nat, allowed: set<Candidate>)
    requires start <= at < |all| && at == start + MAX_BATCHES * (first + LOOKAHEAD)
    requires |Filter(all[start..at], allowed)| < first + LOOKAHEAD
    ensures PageOf(all[start..], first, allowed) == InternalError
  {
    assert all[start..][..at - start] == all[start..at];
  }

  lemma Multiples(batch: nat, size: nat)
    requires batch < MAX_BATCHES
    ensures (batch + 1) * size == batch * size + size && (batch + 1) * size <= MAX_BATCHES * size
  {
  }

  /** A page found within the scanned prefix means the limit was not hit. */
  lemma EarlyEnough(rest: seq<Candidate>, n: nat, first: nat, allowed: set<Candidate>)
    requires n <= |rest| && n <= MAX_BATCHES * (first + LOOKAHEAD)
    requires |Filter(rest[..n], allowed)| >= first + LOOKAHEAD
    ensures !LimitHit(rest, first, allowed)
  {
    var scanned := MAX_BATCHES * (first + LOOKAHEAD);
    if |rest| > scanned {
      assert rest[..scanned][..n] == rest[..n];
      FilterPrefix(rest[..scanned], n, allowed);
    }
  }

  // ---- the recycle bin's mixed batches ----

  type ResourceKey = (Kind, nat)

  function KeyOf(c: Candidate): ResourceKey { (c.kind, c.resource) }

  function OfKind(entries: seq<Candidate>, kind: Kind): seq<Candidate> {
    if entries == [] then [] else if entries[0].kind == kind then [entries[0]] + OfKind(entries[1..], kind) else OfKind(entries[1..], kind)
  }

  function KeysOf(entries: seq<Candidate>): set<ResourceKey> {
    set i | 0 <= i < |entries| :: KeyOf(entries[i])
  }

  function ByKey(entries: seq<Candidate>, keys: set<ResourceKey>): seq<Candidate> {
    if entries == [] then []
    else if KeyOf(entries[0]) in keys then [entries[0]] + ByKey(entries[1..], keys) else ByKey(entries[1..], keys)
  }

  /** Folders and items are authorized apart, then put back in the entries' own order by key. */
  function FilterMixed(entries: seq<Candidate>, permitted: set<Candidate>): seq<Candidate> {
    var visibleFolders := Filter(OfKind(entries, FolderEntry), permitted);
    var visibleMetadata := Filter(OfKind(entries, MetadataEntry), permitted);
    ByKey(entries, KeysOf(visibleFolders + visibleMetadata))
  }

  predicate SameAnswer(entries: seq<Candidate>, permitted: set<Candidate>, i: nat, j: nat) {
    i < |entries| && j < |entries| && KeyOf(entries[i]) == KeyOf(entries[j]) ==>
      (entries[i] in permitted <==> entries[j] in permitted)
  }

  /** Entries of one resource are permitted together; the live-root index allows only one of them. */
  ghost predicate KeyDecides(entries: seq<Candidate>, permitted: set<Candidate>) {
    forall i: nat, j: nat {:trigger SameAnswer(entries, permitted, i, j)} :: SameAnswer(entries, permitted, i, j)
  }

  lemma {:induction false} OfKindMembers(entries: seq<Candidate>, kind: Kind, c: Candidate)
    ensures c in OfKind(entries, kind) <==> c in entries && c.kind == kind
  {
    if entries != [] {
      OfKindMembers(entries[1..], kind, c);
      assert entries == [entries[0]] + entries[1..];
    }
  }

  /** The collected keys are the keys of the permitted entries. */
  lemma MixedKeys(entries: seq<Candidate>, permitted: set<Candidate>, key: ResourceKey)
    ensures
      var visible := Filter(OfKind(entries, FolderEntry), permitted) + Filter(OfKind(entries, MetadataEntry), permitted);
      key in KeysOf(visible) <==> exists i :: 0 <= i < |entries| && entries[i] in permitted && KeyOf(entries[i]) == key
  {
    var folders, items := Filter(OfKind(entries, FolderEntry), permitted), Filter(OfKind(entries, MetadataEntry), permitted);
    var visible := folders + items;
    if key in KeysOf(visible) {
      var n :| 0 <= n < |visible| && KeyOf(visible[n]) == key;
      var c := visible[n];
      assert c in folders || c in items;
      FilterMembers(OfKind(entries, FolderEntry), permitted, c);
      FilterMembers(OfKind(entries, MetadataEntry), permitted, c);
      OfKindMembers(entries, FolderEntry, c);
      OfKindMembers(entries, MetadataEntry, c);
    }
    if i :| 0 <= i < |entries| && entries[i] in permitted && KeyOf(entries[i]) == key {
      var c := entries[i];
      OfKindMembers(entries, c.kind, c);
      FilterMembers(OfKind(entries, c.kind), permitted, c);
      assert c in visible;
      var n :| 0 <= n < |visible| && visible[n] == c;
      assert KeyOf(visible[n]) == key;
    }
  }

  lemma {:induction false} ByKeyIsFilter(entries: seq<Candidate>, keys: set<ResourceKey>, permitted: set<Candidate>)
    requires forall c :: c in entries ==> (KeyOf(c) in keys <==> c in permitted)
    ensures ByKey(entries, keys) == Filter(entries, permitted)
  {
    if entries != [] { ByKeyIsFilter(entries[1..], keys, permitted); }
  }

  lemma {:induction false} ByKeyMembers(entries: seq<Candidate>, keys: set<ResourceKey>, c: Candidate)
    ensures c in ByKey(entries, keys) <==> c in entries && KeyOf(c) in keys
  {
    if entries != [] {
      ByKeyMembers(entries[1..], keys, c);
      assert entries == [entries[0]] + entries[1..];
    }
  }

  lemma MixedKeepsPermitted(entries: seq<Candidate>, permitted: set<Candidate>)
    requires KeyDecides(entries, permitted)
    ensures FilterMixed(entries, permitted) == Filter(entries, permitted)
  {
    var visible := Filter(OfKind(entries, FolderEntry), permitted) + Filter(OfKind(entries, MetadataEntry), permitted);
    forall c | c in entries ensures KeyOf(c) in KeysOf(visible) <==> c in permitted {
      MixedKeys(entries, permitted, KeyOf(c));
      var j :| 0 <= j < |entries| && entries[j] == c;
      if i :| 0 <= i < |entries| && entries[i] in permitted && KeyOf(entries[i]) == KeyOf(c) {
        assert SameAnswer(entries, permitted, i, j);
      }
    }
    ByKeyIsFilter(entries, KeysOf(visible), permitted);
  }

  /** Splitting by kind and rejoining by key is the plain filter, iff each key decides its entries. */
  lemma MixedIsPlainFilter(entries: seq<Candidate>, permitted: set<Candidate>)
    ensures FilterMixed(entries, permitted) == Filter(entries, permitted) <==> KeyDecides(entries, permitted)
  {
    if KeyDecides(entries, permitted) { MixedKeepsPermitted(entries, permitted); }
    if FilterMixed(entries, permitted) == Filter(entries, permitted) {
      var visible := Filter(OfKind(entries, FolderEntry), permitted) + Filter(OfKind(entries, MetadataEntry), permitted);
      forall i: nat, j: nat ensures SameAnswer(entries, permitted, i, j) {
        if i < |entries| && j < |entries| && KeyOf(entries[i]) == KeyOf(entries[j]) {
          MixedKeys(entries, permitted, KeyOf(entries[i]));
          ByKeyMembers(entries, KeysOf(visible), entries[i]);
          ByKeyMembers(entries, KeysOf(visible), entries[j]);
          FilterMembers(entries, permitted, entries[i]);
          FilterMembers(entries, permitted, entries[j]);
        }
      }
    }
  }

  // ---- the scan loop ----

  lemma BatchDecides(all: seq<Candidate>, at: nat, size: nat, permitted: set<Candidate>)
    requires at <= |all| && KeyDecides(all, permitted)
    ensures KeyDecides(Batch(all[at..], size).items, permitted)
  {
    var items := Batch(all[at..], size).items;
    forall i: nat, j: nat ensures SameAnswer(items, permitted, i, j) { assert SameAnswer(all, permitted, at + i, at + j); }
  }

  /** Recycle-bin entries are filtered by kind and rejoined; other candidates are filtered at once. */
  method FilterBatch(items: seq<Candidate>, allowed: set<Candidate>, mixed: bool) returns (seen: seq<Candidate>)
    requires mixed ==> KeyDecides(items, allowed)
    ensures seen == Filter(items, allowed)
  {
    if mixed {
      MixedIsPlainFilter(items, allowed);
      seen := FilterMixed(items, allowed);
    } else {
      seen := Filter(items, allowed);
    }
  }

  /** A cursor the list does not know is refused by the first fetch. */
  predicate Stale(rows: seq<Candidate>, pos: Option<Position>) {
    pos.Some? && !Holds(rows, pos.value)
  }

  /** The last item of a full batch is the cursor behind which the scan continues. */
  lemma BatchCursor(rows: seq<Candidate>, matching: set<Candidate>, all: seq<Candidate>, at: nat, size: nat)
    requires Sorted(rows) && all == Filter(rows, matching) && at + size < |all| && size > 0
    ensures
      var items := Batch(all[at..], size).items;
      |items| == size && At(rows, all, at + size, Some(PositionOf(items[size - 1])))
  {
    PlaceBehind(rows, matching, at + size - 1);
    assert Batch(all[at..], size).items[size - 1] == all[at + size - 1];
  }

  /** Of a fetched batch, keep what the user may see, and note where to continue. */
  method KeepVisible(rows: seq<Candidate>, matching: set<Candidate>, size: nat, fetched: Fetched, visible: seq<Candidate>,
                     allowed: set<Candidate>, mixed: bool, ghost all: seq<Candidate>, ghost start: nat, ghost at: nat)
    returns (seen: seq<Candidate>, last: Option<Position>)
    requires Sorted(rows) && all == Filter(rows, matching) && (mixed ==> KeyDecides(all, allowed))
    requires start <= at <= |all| && size > 0 && fetched == Batch(all[at..], size) && visible == Filter(all[start..at], allowed)
    ensures fetched.hasMore == (at + size < |all|)
    ensures fetched.hasMore ==> seen == Filter(all[start..at + size], allowed) && At(rows, all, at + size, last)
    ensures !fetched.hasMore ==> seen == Filter(all[start..], allowed)
  {
    BatchSeen(all, start, at, size, allowed);
    if mixed { BatchDecides(all, at, size, allowed); }
    var authorized := FilterBatch(fetched.items, allowed, mixed);
    seen, last := visible + authorized, None;
    if fetched.hasMore {
      last := Some(PositionOf(fetched.items[|fetched.items| - 1]));
      BatchCursor(rows, matching, all, at, size);
    }
  }

  /** `toConnection` once enough was seen, or everything was read. */
  method CutPage(visible: seq<Candidate>, hasMore: bool, first: nat, ghost all: seq<Candidate>, ghost start: nat, ghost next: nat,
                 ghost allowed: set<Candidate>)
    returns (page: Option<Page>)
    requires start <= next <= |all| && next - start <= MAX_BATCHES * (first + LOOKAHEAD)
    requires visible == Filter(all[start..next], allowed) || (next == |all| && visible == Filter(all[start..], allowed))
    requires !hasMore ==> next == |all| && visible == Filter(all[start..], allowed)
    ensures page.Some? ==> page.value == PageOf(all[start..], first, allowed)
    ensures page.None? <==> hasMore && |visible| < first + LOOKAHEAD
  {
    if |visible| >= first + LOOKAHEAD {
      FullPage(all, start, next, first, allowed, visible);
      return Some(Connection(visible, first, true));
    }
    if hasMore { return None; }
    LastPage(all, start, first, allowed, visible);
    return Some(Connection(visible, first, false));
  }

  /** What a reader of the list is answered. */
  function ReadOf(rows: seq<Candidate>, matching: set<Candidate>, first: nat, after: Option<Position>, allowed: set<Candidate>): Page {
    if Stale(rows, after) then CursorRefused else PageOf(Rest(Filter(rows, matching), after), first, allowed)
  }

  /** Where the loop stands: behind `batches` full batches, with too few permitted candidates so far. */
  ghost predicate Scanning(rows: seq<Candidate>, all: seq<Candidate>, start: nat, at: nat, batches: nat, size: nat,
                           pos: Option<Position>, visible: seq<Candidate>, allowed: set<Candidate>)
  {
    && start <= at && at == start + batches * size && (batches > 0 ==> at < |all|)
    && At(rows, all, at, pos) && visible == Filter(all[start..at], allowed) && |visible| < size
  }

  datatype Turn = Cut(page: Page) | Continue(visible: seq<Candidate>, after: Option<Position>)

  /** One turn of the loop, after the fetch. */
  method NextTurn(rows: seq<Candidate>, matching: set<Candidate>, first: nat, fetched: Fetched, visible: seq<Candidate>,
                  allowed: set<Candidate>, mixed: bool, ghost all: seq<Candidate>, ghost start: nat, ghost at: nat, ghost batch: nat,
                  ghost pos: Option<Position>)
    returns (turn: Turn)
    requires Sorted(rows) && all == Filter(rows, matching) && (mixed ==> KeyDecides(all, allowed)) && batch < MAX_BATCHES
    requires Scanning(rows, all, start, at, batch, first + LOOKAHEAD, pos, visible, allowed)
    requires fetched == Batch(all[at..], first + LOOKAHEAD)
    ensures turn.Cut? ==> turn.page == PageOf(all[start..], first, allowed)
    ensures turn.Continue? ==>
      Scanning(rows, all, start, at + first + LOOKAHEAD, batch + 1, first + LOOKAHEAD, turn.after, turn.visible, allowed)
  {
    var size := first + LOOKAHEAD;
    Multiples(batch, size);
    var seen, last := KeepVisible(rows, matching, size, fetched, visible, allowed, mixed, all, start, at);
    var cut := CutPage(seen, fetched.hasMore, first, all, start, if fetched.hasMore then at + size else |all|, allowed);
    turn := if cut.Some? then Cut(cut.value) else Continue(seen, last);
  }

  /**
   The scan loop. It refuses a cursor the list does not know, and otherwise returns exactly the
   wanted page, unless ten batches did not hold enough permitted candidates; then, and only
   then, it gives up.
   */
  method ReadVisiblePage(
    rows: seq<Candidate>, matching: set<Candidate>, first: nat, after: Option<Position>, allowed: set<Candidate>, mixed: bool)
    returns (page: Page)
    requires Sorted(rows) && first >= 1 && (mixed ==> KeyDecides(Filter(rows, matching), allowed))
    ensures page == ReadOf(rows, matching, first, after, allowed)
  {
    var visible: seq<Candidate> := [];
    var scanAfter := after;
    ghost var all := Filter(rows, matching);
    FilterSorted(rows, matching);
    ghost var start: nat := PlaceOf(rows, all, after);
    ghost var at: nat := start;
    for batch := 0 to MAX_BATCHES
      invariant Stale(rows, after) ==> scanAfter == after && batch == 0
      invariant !Stale(rows, after) ==> Scanning(rows, all, start, at, batch, first + LOOKAHEAD, scanAfter, visible, allowed)
    {
      var fetched := FetchCandidatePage(rows, matching, first + LOOKAHEAD, scanAfter);
      if fetched.CursorInvalid? { return CursorRefused; }
      var turn := NextTurn(rows, matching, first, fetched, visible, allowed, mixed, all, start, at, batch, scanAfter);
      if turn.Cut? { return turn.page; }
      visible, scanAfter, at := turn.visible, turn.after, at + first + LOOKAHEAD;
    }
    GiveUp(all, start, at, first, allowed);
    return InternalError;
  }

  // ---- the recycle bin ----

  /** The entries whose resource the user may see. */
  function EntriesOf(rows: seq<Candidate>, keys: set<ResourceKey>): set<Candidate> {
    set i | 0 <= i < |rows| && KeyOf(rows[i]) in keys :: rows[i]
  }

  lemma ResourcesDecide(rows: seq<Candidate>, matching: set<Candidate>, keys: set<ResourceKey>)
    ensures KeyDecides(Filter(rows, matching), EntriesOf(rows, keys))
  {
    var all := Filter(rows, matching);
    forall i: nat, j: nat ensures SameAnswer(all, EntriesOf(rows, keys), i, j) {
      if i < |all| && j < |all| {
        FilterMembers(rows, matching, all[i]);
        FilterMembers(rows, matching, all[j]);
      }
    }
  }

  /** Access is decided per resource, so the recycle bin's pages are those of the plain filter. */
  method ReadVisibleRecycleBinPage(
    rows: seq<Candidate>, listed: set<Candidate>, first: nat, after: Option<Position>, keys: set<ResourceKey>)
    returns (page: Page)
    requires Sorted(rows) && first >= 1
    ensures page == ReadOf(rows, listed, first, after, EntriesOf(rows, keys))
  {
    ResourcesDecide(rows, listed, keys);
    page := ReadVisiblePage(rows, listed, first, after, EntriesOf(rows, keys), true);
  }

  // ---- following the cursors ----

  /** What is left of the list behind its `n`-th permitted candidate. */
  function Behind(rest: seq<Candidate>, n: nat, allowed: set<Candidate>): (r: seq<Candidate>)
    ensures |r| <= |rest| && (n > 0 && rest != [] ==> |r| < |rest|)
  {
    if n == 0 || rest == [] then rest
    else if rest[0] in allowed then Behind(rest[1..], n - 1, allowed) else Behind(rest[1..], n, allowed)
  }

  /** No page of the walk over `rest` hits the batch limit. */
  predicate Walkable(rest: seq<Candidate>, first: nat, allowed: set<Candidate>)
    requires first >= 1
    decreases |rest|
  {
    && !LimitHit(rest, first, allowed)
    && (|Filter(rest, allowed)| > first ==> Walkable(Behind(rest, first, allowed), first, allowed))
  }

  /** The end cursor of a full page leaves exactly the candidates behind its last node. */
  lemma {:induction false} BehindCursor(rest: seq<Candidate>, n: nat, allowed: set<Candidate>) returns (i: nat)
    requires 1 <= n <= |Filter(rest, allowed)|
    ensures 1 <= i <= |rest| && Behind(rest, n, allowed) == rest[i..] && rest[i - 1] == Filter(rest, allowed)[n - 1]
    ensures Filter(rest[i..], allowed) == Filter(rest, allowed)[n..]
  {
    var tail := rest[1..];
    if rest[0] !in allowed {
      i := BehindCursor(tail, n, allowed);
      assert tail[i..] == rest[i + 1..];
      i := i + 1;
    } else if n == 1 {
      i := 1;
    } else {
      i := BehindCursor(tail, n - 1, allowed);
      assert tail[i..] == rest[i + 1..];
      assert Filter(rest, allowed) == [rest[0]] + Filter(tail, allowed);
      i := i + 1;
    }
  }

  /**
   A client that follows `endCursor` until `hasNextPage` is false sees exactly the
   permitted candidates, in order, without a skip or a repeat; it is stopped iff
   some page on its way hits the batch limit.
   */
  method FollowCursors(rows: seq<Candidate>, matching: set<Candidate>, first: nat, allowed: set<Candidate>, mixed: bool)
    returns (r: Option<seq<Candidate>>)
    requires Sorted(rows) && first >= 1 && (mixed ==> KeyDecides(Filter(rows, matching), allowed))
    ensures r.Some? <==> Walkable(Filter(rows, matching), first, allowed)
    ensures r.Some? ==> r.value == Filter(Filter(rows, matching), allowed)
  {
    var nodes: seq<Candidate> := [];
    var after: Option<Position> := None;
    ghost var all := Filter(rows, matching);
    ghost var at: nat := 0;
    assert all[0..] == all;
    while true
      invariant At(rows, all, at, after)
      invariant nodes + Filter(all[at..], allowed) == Filter(all, allowed)
      invariant Walkable(all[at..], first, allowed) == Walkable(all, first, allowed)
      decreases |all| - at
    {
      var page := ReadVisiblePage(rows, matching, first, after, allowed, mixed);
      if page.InternalError? { return None; }
      ghost var before := nodes;
      nodes := nodes + page.nodes;
      if !page.hasNextPage {
        LastPageNodes(all[at..], first, allowed);
        return Some(nodes);
      }
      ghost var i := NextPageNodes(all, at, first, allowed);
      ConcatAssociates(before, page.nodes, Filter(all[at + i..], allowed));
      PlaceBehind(rows, matching, at + i - 1);
      after := page.endCursor;
      at := at + i;
    }
  }

  lemma LastPageNodes(rest: seq<Candidate>, first: nat, allowed: set<Candidate>)
    requires first >= 1 && PageOf(rest, first, allowed).Page? && !PageOf(rest, first, allowed).hasNextPage
    ensures PageOf(rest, first, allowed).nodes == Filter(rest, allowed) && Walkable(rest, first, allowed)
  {
  }

  /** A page with a successor: its nodes, and where its cursor continues. */
  lemma NextPageNodes(all: seq<Candidate>, at: nat, first: nat, allowed: set<Candidate>) returns (i: nat)
    requires first >= 1 && at <= |all|
    requires PageOf(all[at..], first, allowed).Page? && PageOf(all[at..], first, allowed).hasNextPage
    ensures 1 <= i && at + i <= |all|
    ensures
      var page := PageOf(all[at..], first, allowed);
      && page.endCursor == Some(PositionOf(all[at + i - 1]))
      && page.nodes + Filter(all[at + i..], allowed) == Filter(all[at..], allowed)
    ensures Walkable(all[at..], first, allowed) == Walkable(all[at + i..], first, allowed)
  {
    var rest := all[at..];
    var visible := Filter(rest, allowed);
    i := BehindCursor(rest, first, allowed);
    assert visible == visible[..first] + visible[first..];
    assert rest[i..] == all[at + i..] && rest[i - 1] == all[at + i - 1];
  }
}
