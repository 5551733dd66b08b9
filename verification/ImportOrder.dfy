module ImportOrder {
  // The import file's folders, ordered so that each parent comes before its children,
  // and refused when the parent relation has a cycle.

  import opened Wrappers

  type Key = string
  type Path = seq<nat>

  datatype Folder = Folder(key: Key, name: string, parent: Option<Key>)

  datatype Sorted = Sorted(folders: seq<Folder>) | UnknownParent(key: Key) | CyclicGraph

  predicate KeysDistinct(folders: seq<Folder>) {
    forall i, j :: 0 <= i < j < |folders| ==> folders[i].key != folders[j].key
  }

  function Keys(folders: seq<Folder>): seq<Key> {
    seq(|folders|, i requires 0 <= i < |folders| => folders[i].key)
  }

  function KeySet(folders: seq<Folder>): set<Key> { set i | 0 <= i < |folders| :: folders[i].key }

  predicate Has(folders: seq<Folder>, k: Key) { exists i :: 0 <= i < |folders| && folders[i].key == k }

  /** The parent named by the entry with this key. */
  function ParentOf(folders: seq<Folder>, k: Key): Option<Key> {
    if folders == [] then None else if folders[0].key == k then folders[0].parent else ParentOf(folders[1..], k)
  }

  // ---- cycles ----

  /** The ancestor `n` steps up, if there is one. */
  function Up(folders: seq<Folder>, k: Key, n: nat): Option<Key> {
    if n == 0 then Some(k)
    else match Up(folders, k, n - 1)
      case None => None
      case Some(a) => ParentOf(folders, a)
  }

  /** No folder is its own ancestor. */
  ghost predicate Acyclic(folders: seq<Folder>) {
    forall k, n: nat {:trigger Up(folders, k, n)} :: Has(folders, k) && n > 0 ==> Up(folders, k, n) != Some(k)
  }

  lemma {:induction false} UpAdds(folders: seq<Folder>, k: Key, m: nat, n: nat)
    requires Up(folders, k, m).Some?
    ensures Up(folders, k, m + n) == Up(folders, Up(folders, k, m).value, n)
  {
    if n > 0 { UpAdds(folders, k, m, n - 1); }
  }

  /** Among more values than a finite set has, two are equal. */
  lemma {:induction false} Pigeonhole(values: seq<Key>, from: set<Key>) returns (i: nat, j: nat)
    requires |values| > |from| && forall n :: 0 <= n < |values| ==> values[n] in from
    ensures i < j < |values| && values[i] == values[j]
    decreases |from|
  {
    var last := |values| - 1;
    if n :| 0 <= n < last && values[n] == values[last] {
      i, j := n, last;
    } else {
      var rest, fewer := values[..last], from - {values[last]};
      assert |fewer| == |from| - 1;
      i, j := Pigeonhole(rest, fewer);
    }
  }

  function Walk(folders: seq<Folder>, k: Key, n: nat): (w: seq<Key>)
    requires forall i: nat {:trigger Up(folders, k, i)} :: i < n ==> Up(folders, k, i).Some?
    ensures |w| == n && forall i :: 0 <= i < n ==> w[i] == Up(folders, k, i).value
  {
    seq(n, i requires 0 <= i < n => Up(folders, k, i).value)
  }

  predicate HangsIn(folders: seq<Folder>, closed: set<Key>, x: Key) {
    x in closed ==> Has(folders, x) && ParentOf(folders, x).Some? && ParentOf(folders, x).value in closed
  }

  /** Keys each of which has its parent among them contain a cycle. */
  lemma ClosedSetHasCycle(folders: seq<Folder>, closed: set<Key>, k: Key)
    requires k in closed && forall x {:trigger HangsIn(folders, closed, x)} :: HangsIn(folders, closed, x)
    ensures !Acyclic(folders)
  {
    var i, j := RepeatedAncestor(folders, closed, k);
    StaysInside(folders, closed, k, i);
    UpAdds(folders, k, i, j - i);
    var a := Up(folders, k, i).value;
    assert HangsIn(folders, closed, a);
    assert Up(folders, a, j - i) == Some(a);
  }

  lemma RepeatedAncestor(folders: seq<Folder>, closed: set<Key>, k: Key) returns (i: nat, j: nat)
    requires k in closed && forall x {:trigger HangsIn(folders, closed, x)} :: HangsIn(folders, closed, x)
    ensures i < j && Up(folders, k, i) == Up(folders, k, j)
  {
    var n := |closed| + 1;
    forall m: nat | m < n ensures Up(folders, k, m).Some? && Up(folders, k, m).value in closed { StaysInside(folders, closed, k, m); }
    i, j := Pigeonhole(Walk(folders, k, n), closed);
  }

  lemma {:induction false} StaysInside(folders: seq<Folder>, closed: set<Key>, k: Key, n: nat)
    requires k in closed && forall x {:trigger HangsIn(folders, closed, x)} :: HangsIn(folders, closed, x)
    ensures Up(folders, k, n).Some? && Up(folders, k, n).value in closed
  {
    if n > 0 {
      StaysInside(folders, closed, k, n - 1);
      assert HangsIn(folders, closed, Up(folders, k, n - 1).value);
    }
  }

  // ---- the order ----

  /** Keys of the folders without a parent, or with this one, in input order. */
  function ChildrenOf(folders: seq<Folder>, parent: Option<Key>): seq<Key> {
    if folders == [] then []
    else if folders[|folders| - 1].parent == parent then ChildrenOf(folders[..|folders| - 1], parent) + [folders[|folders| - 1].key]
    else ChildrenOf(folders[..|folders| - 1], parent)
  }

  function ChildrenOfAll(folders: seq<Folder>, parents: seq<Key>): seq<Key> {
    if parents == [] then []
    else ChildrenOfAll(folders, parents[..|parents| - 1]) + ChildrenOf(folders, Some(parents[|parents| - 1]))
  }

  predicate NoRepeats(s: seq<Key>) { forall i, j :: 0 <= i < j < |s| ==> s[i] != s[j] }

  predicate ParentBefore(sorted: seq<Folder>, i: nat) {
    i < |sorted| && sorted[i].parent.Some? ==> exists j :: 0 <= j < i && sorted[j].key == sorted[i].parent.value
  }

  /** Each folder's parent stands before it. */
  ghost predicate ParentsFirst(sorted: seq<Folder>) {
    forall i: nat {:trigger ParentBefore(sorted, i)} :: ParentBefore(sorted, i)
  }

  lemma {:induction false} ParentOfEntry(folders: seq<Folder>, f: Folder)
    requires KeysDistinct(folders) && f in folders
    ensures ParentOf(folders, f.key) == f.parent
  {
    if folders[0] != f {
      var i :| 0 <= i < |folders| && folders[i] == f;
      assert folders[1..][i - 1] == f;
      ParentOfEntry(folders[1..], f);
    }
  }

  lemma {:induction false} ChildMember(folders: seq<Folder>, parent: Option<Key>, k: Key)
    ensures k in ChildrenOf(folders, parent) <==> exists i :: 0 <= i < |folders| && folders[i].key == k && folders[i].parent == parent
  {
    if folders != [] {
      var init, last := folders[..|folders| - 1], folders[|folders| - 1];
      ChildMember(init, parent, k);
      assert folders == init + [last];
    }
  }

  lemma {:induction false} ChildrenDistinct(folders: seq<Folder>, parent: Option<Key>)
    requires KeysDistinct(folders)
    ensures NoRepeats(ChildrenOf(folders, parent))
  {
    if folders != [] {
      ChildrenDistinct(folders[..|folders| - 1], parent);
      ChildMember(folders[..|folders| - 1], parent, folders[|folders| - 1].key);
    }
  }

  lemma ChildrenMembers(folders: seq<Folder>, parent: Option<Key>, k: Key)
    requires KeysDistinct(folders)
    ensures k in ChildrenOf(folders, parent) <==> exists i :: 0 <= i < |folders| && folders[i].key == k && folders[i].parent == parent
    ensures NoRepeats(ChildrenOf(folders, parent))
  {
    ChildMember(folders, parent, k);
    ChildrenDistinct(folders, parent);
  }

  lemma {:induction false} ChildrenOfAllMembers(folders: seq<Folder>, parents: seq<Key>, k: Key)
    requires KeysDistinct(folders)
    ensures k in ChildrenOfAll(folders, parents) <==> exists n :: 0 <= n < |parents| && k in ChildrenOf(folders, Some(parents[n]))
  {
    if parents != [] {
      var init, last := parents[..|parents| - 1], parents[|parents| - 1];
      ChildrenOfAllMembers(folders, init, k);
      assert parents == init + [last];
    }
  }

  /** A list without repeats, drawn from a set, is no longer than the set; if as long, it covers it. */
  lemma {:induction false} NoRepeatsFits(s: seq<Key>, from: set<Key>)
    requires NoRepeats(s) && forall i :: 0 <= i < |s| ==> s[i] in from
    ensures |s| <= |from| && (|s| == |from| ==> forall k :: k in from ==> k in s)
  {
    if s != [] {
      var init, last := s[..|s| - 1], s[|s| - 1];
      NoRepeatsFits(init, from - {last});
      assert s == init + [last];
    }
  }

  lemma {:induction false} KeySetSize(folders: seq<Folder>)
    requires KeysDistinct(folders)
    ensures |KeySet(folders)| == |folders|
  {
    if folders != [] {
      var init, last := folders[..|folders| - 1], folders[|folders| - 1];
      KeySetSize(init);
      assert KeySet(folders) == KeySet(init) + {last.key};
      assert last.key !in KeySet(init);
    }
  }

  // ---- where Kahn's algorithm stands ----

  /** Processed and queued keys are the roots and the processed ones' children, each once. */
  ghost predicate Frontier(folders: seq<Folder>, done: seq<Key>, queue: seq<Key>) {
    && NoRepeats(done + queue)
    && done + queue == ChildrenOf(folders, None) + ChildrenOfAll(folders, done)
  }

  /** The entry at `i` is waiting for its parent. */
  predicate Blocked(folders: seq<Folder>, done: seq<Key>, i: nat) {
    i < |folders| && folders[i].parent.Some? && folders[i].parent.value !in done
  }

  lemma FrontierMember(folders: seq<Folder>, done: seq<Key>, queue: seq<Key>, i: nat)
    requires KeysDistinct(folders) && Frontier(folders, done, queue) && i < |folders|
    ensures folders[i].key in done + queue <==> !Blocked(folders, done, i)
  {
    var f := folders[i];
    ChildrenMembers(folders, None, f.key);
    ChildrenOfAllMembers(folders, done, f.key);
    if f.parent.Some? { ChildrenMembers(folders, f.parent, f.key); }
    if n :| 0 <= n < |done| && f.key in ChildrenOf(folders, Some(done[n])) { ChildrenMembers(folders, Some(done[n]), f.key); }
    assert (done + queue) == ChildrenOf(folders, None) + ChildrenOfAll(folders, done);
  }

  lemma FrontierKeys(folders: seq<Folder>, done: seq<Key>, queue: seq<Key>, k: Key)
    requires KeysDistinct(folders) && Frontier(folders, done, queue) && k in done + queue
    ensures k in KeySet(folders)
  {
    ChildrenMembers(folders, None, k);
    ChildrenOfAllMembers(folders, done, k);
    if n :| 0 <= n < |done| && k in ChildrenOf(folders, Some(done[n])) { ChildrenMembers(folders, Some(done[n]), k); }
  }

  lemma NoRepeatsConcat(a: seq<Key>, b: seq<Key>)
    requires NoRepeats(a) && NoRepeats(b) && forall k :: k in b ==> k !in a
    ensures NoRepeats(a + b)
  {
    forall i, j | 0 <= i < j < |a + b| ensures (a + b)[i] != (a + b)[j] {
      if j >= |a| { assert b[j - |a|] in b; }
    }
  }

  lemma FrontIsNew(done: seq<Key>, queue: seq<Key>)
    requires NoRepeats(done + queue) && queue != []
    ensures queue[0] !in done
  {
    var all := done + queue;
    forall i | 0 <= i < |done| ensures done[i] != queue[0] { assert all[i] == done[i] && all[|done|] == queue[0]; }
  }

  /** A child of a key not yet processed is not reached yet. */
  lemma ChildIsNew(folders: seq<Folder>, done: seq<Key>, queue: seq<Key>, k: Key)
    requires KeysDistinct(folders) && Frontier(folders, done, queue) && queue != [] && k in ChildrenOf(folders, Some(queue[0]))
    ensures k !in done + queue
  {
    ChildrenMembers(folders, Some(queue[0]), k);
    var i :| 0 <= i < |folders| && folders[i].key == k && folders[i].parent == Some(queue[0]);
    FrontIsNew(done, queue);
    FrontierMember(folders, done, queue, i);
  }

  /** Taking the front of the queue moves it to the processed keys and queues its children. */
  lemma FrontierMoves(folders: seq<Folder>, done: seq<Key>, queue: seq<Key>)
    requires KeysDistinct(folders) && Frontier(folders, done, queue) && queue != []
    ensures Frontier(folders, done + [queue[0]], queue[1..] + ChildrenOf(folders, Some(queue[0])))
  {
    var curr := queue[0];
    var children := ChildrenOf(folders, Some(curr));
    var all, grown := done + queue, done + [curr];
    forall k | k in children ensures k !in all { ChildIsNew(folders, done, queue, k); }
    ChildrenMembers(folders, Some(curr), curr);
    NoRepeatsConcat(all, children);
    assert grown + (queue[1..] + children) == all + children;
    assert grown[..|grown| - 1] == done;
    assert ChildrenOfAll(folders, grown) == ChildrenOfAll(folders, done) + children;
    var roots, below := ChildrenOf(folders, None), ChildrenOfAll(folders, done);
    assert (roots + below) + children == roots + (below + children);
  }

  lemma FrontierStarts(folders: seq<Folder>)
    requires KeysDistinct(folders)
    ensures Frontier(folders, [], ChildrenOf(folders, None))
  {
    ChildrenMembers(folders, None, "");
    assert [] + ChildrenOf(folders, None) == ChildrenOf(folders, None) + [];
  }

  function Unreached(folders: seq<Folder>, done: seq<Key>): set<Key> {
    set k | k in KeySet(folders) && k !in done
  }

  lemma SomethingUnreached(folders: seq<Folder>, done: seq<Key>)
    requires KeysDistinct(folders) && Frontier(folders, done, []) && |done| != |folders|
    ensures Unreached(folders, done) != {}
  {
    assert done + [] == done;
    forall n | 0 <= n < |done| ensures done[n] in KeySet(folders) { FrontierKeys(folders, done, [], done[n]); }
    KeySetSize(folders);
    if Unreached(folders, done) == {} {
      forall k | k in KeySet(folders) ensures k in done { assert k !in Unreached(folders, done); }
      DistinctCovers(done, KeySet(folders));
    }
  }

  lemma UnreachedHang(folders: seq<Folder>, done: seq<Key>, x: Key)
    requires KeysDistinct(folders) && Frontier(folders, done, [])
    requires forall i :: 0 <= i < |folders| && folders[i].parent.Some? ==> folders[i].parent.value in KeySet(folders)
    ensures HangsIn(folders, Unreached(folders, done), x)
  {
    if x in Unreached(folders, done) {
      var i :| 0 <= i < |folders| && folders[i].key == x;
      assert done + [] == done;
      FrontierMember(folders, done, [], i);
      ParentOfEntry(folders, folders[i]);
    }
  }

  /** If some folder is never reached, the unreached ones contain a cycle. */
  lemma UnreachedMeansCycle(folders: seq<Folder>, done: seq<Key>)
    requires KeysDistinct(folders) && Frontier(folders, done, []) && |done| != |folders|
    requires forall i :: 0 <= i < |folders| && folders[i].parent.Some? ==> folders[i].parent.value in KeySet(folders)
    ensures !Acyclic(folders)
  {
    SomethingUnreached(folders, done);
    var left := Unreached(folders, done);
    var k :| k in left;
    forall x ensures HangsIn(folders, left, x) { UnreachedHang(folders, done, x); }
    ClosedSetHasCycle(folders, left, k);
  }

  lemma {:induction false} DistinctCovers(s: seq<Key>, from: set<Key>)
    requires NoRepeats(s) && (forall i :: 0 <= i < |s| ==> s[i] in from) && (forall k :: k in from ==> k in s)
    ensures |s| == |from|
  {
    if s == [] {
      assert from == {};
    } else {
      var init, last := s[..|s| - 1], s[|s| - 1];
      assert s == init + [last];
      DistinctCovers(init, from - {last});
    }
  }

  // ---- a sorted result proves there is no cycle ----

  lemma {:induction false} AncestorsStandBefore(folders: seq<Folder>, sorted: seq<Folder>, i: nat, n: nat)
    requires KeysDistinct(folders) && ParentsFirst(sorted) && i < |sorted| && n > 0
    requires forall m :: 0 <= m < |sorted| ==> sorted[m] in folders
    requires Up(folders, sorted[i].key, n).Some?
    ensures exists j :: 0 <= j < i && sorted[j].key == Up(folders, sorted[i].key, n).value
  {
    var at := i;
    if n > 1 {
      AncestorsStandBefore(folders, sorted, i, n - 1);
      at :| 0 <= at < i && sorted[at].key == Up(folders, sorted[i].key, n - 1).value;
    }
    assert ParentBefore(sorted, at);
    ParentOfEntry(folders, sorted[at]);
  }

  lemma SortedIsAcyclic(folders: seq<Folder>, sorted: seq<Folder>)
    requires KeysDistinct(folders) && KeysDistinct(sorted) && ParentsFirst(sorted)
    requires forall m :: 0 <= m < |sorted| ==> sorted[m] in folders
    requires forall f :: f in folders ==> f in sorted
    ensures Acyclic(folders)
  {
    forall k, n: nat | Has(folders, k) && n > 0 ensures Up(folders, k, n) != Some(k) {
      var m :| 0 <= m < |folders| && folders[m].key == k;
      assert folders[m] in sorted;
      var i :| 0 <= i < |sorted| && sorted[i] == folders[m];
      if Up(folders, k, n) == Some(k) { AncestorsStandBefore(folders, sorted, i, n); }
    }
  }

  // ---- the algorithm ----

  /** Every named parent is a key of the file. */
  predicate ParentsKnown(folders: seq<Folder>) {
    forall i :: 0 <= i < |folders| && folders[i].parent.Some? ==> folders[i].parent.value in KeySet(folders)
  }

  function Children(childrenMap: map<Key, seq<Key>>, k: Key): seq<Key> {
    if k in childrenMap then childrenMap[k] else []
  }

  /** The graph of a file: children by parent, and each key's number of pending parents. */
  ghost predicate GraphOf(folders: seq<Folder>, childrenMap: map<Key, seq<Key>>, inDegree: map<Key, nat>) {
    && (forall k {:trigger Children(childrenMap, k)} :: Children(childrenMap, k) == ChildrenOf(folders, Some(k)))
    && (forall i :: 0 <= i < |folders| ==> folders[i].key in inDegree && inDegree[folders[i].key] == if folders[i].parent.Some? then 1 else 0)
  }

  /** The first pass: every key with its entry and a count of zero. */
  method IndexFolders(folders: seq<Folder>) returns (inDegree: map<Key, nat>, folderMap: map<Key, Folder>)
    requires KeysDistinct(folders)
    ensures forall i :: 0 <= i < |folders| ==> folders[i].key in folderMap && folderMap[folders[i].key] == folders[i]
    ensures forall i :: 0 <= i < |folders| ==> folders[i].key in inDegree && inDegree[folders[i].key] == 0
  {
    inDegree, folderMap := map[], map[];
    for i := 0 to |folders|
      invariant forall j :: 0 <= j < i ==> folders[j].key in folderMap && folderMap[folders[j].key] == folders[j]
      invariant forall j :: 0 <= j < i ==> folders[j].key in inDegree && inDegree[folders[j].key] == 0
    {
      folderMap := folderMap[folders[i].key := folders[i]];
      inDegree := inDegree[folders[i].key := 0];
    }
  }

  /** The map lists the children found among the first `i` folders. */
  ghost predicate ListsChildren(folders: seq<Folder>, i: nat, childrenMap: map<Key, seq<Key>>) {
    i <= |folders| && forall k {:trigger Children(childrenMap, k)} :: Children(childrenMap, k) == ChildrenOf(folders[..i], Some(k))
  }

  lemma ListsOneMore(folders: seq<Folder>, i: nat, childrenMap: map<Key, seq<Key>>)
    requires i < |folders| && ListsChildren(folders, i, childrenMap)
    ensures
      var f := folders[i];
      ListsChildren(folders, i + 1,
        if f.parent.Some? then childrenMap[f.parent.value := Children(childrenMap, f.parent.value) + [f.key]] else childrenMap)
  {
    var f := folders[i];
    var grown := if f.parent.Some? then childrenMap[f.parent.value := Children(childrenMap, f.parent.value) + [f.key]] else childrenMap;
    assert folders[..i + 1][..i] == folders[..i];
    forall k ensures Children(grown, k) == ChildrenOf(folders[..i + 1], Some(k)) {
      assert Children(childrenMap, k) == ChildrenOf(folders[..i], Some(k));
    }
  }

  method BuildGraph(folders: seq<Folder>)
    returns (unknown: Option<Key>, childrenMap: map<Key, seq<Key>>, inDegree: map<Key, nat>, folderMap: map<Key, Folder>)
    requires KeysDistinct(folders)
    ensures unknown.None? <==> ParentsKnown(folders)
    ensures unknown.Some? ==>
      exists i :: 0 <= i < |folders| && folders[i].key == unknown.value && folders[i].parent.Some? && folders[i].parent.value !in KeySet(folders)
    ensures unknown.None? ==> GraphOf(folders, childrenMap, inDegree)
    ensures forall i :: 0 <= i < |folders| ==> folders[i].key in folderMap && folderMap[folders[i].key] == folders[i]
  {
    inDegree, folderMap := IndexFolders(folders);
    unknown, childrenMap := None, map[];
    for i := 0 to |folders|
      invariant ListsChildren(folders, i, childrenMap)
      invariant forall j :: 0 <= j < |folders| ==>
        folders[j].key in inDegree && inDegree[folders[j].key] == if j < i && folders[j].parent.Some? then 1 else 0
      invariant forall j :: 0 <= j < i && folders[j].parent.Some? ==> folders[j].parent.value in KeySet(folders)
    {
      var f := folders[i];
      ListsOneMore(folders, i, childrenMap);
      if f.parent.Some? {
        var parent := f.parent.value;
        if parent !in KeySet(folders) { return Some(f.key), childrenMap, inDegree, folderMap; }
        childrenMap := childrenMap[parent := Children(childrenMap, parent) + [f.key]];
        inDegree := inDegree[f.key := inDegree[f.key] + 1];
      }
    }
    assert folders[..|folders|] == folders;
  }

  method Roots(folders: seq<Folder>, inDegree: map<Key, nat>) returns (queue: seq<Key>)
    requires forall i :: 0 <= i < |folders| ==> folders[i].key in inDegree && inDegree[folders[i].key] == if folders[i].parent.Some? then 1 else 0
    ensures queue == ChildrenOf(folders, None)
  {
    queue := [];
    for i := 0 to |folders|
      invariant queue == ChildrenOf(folders[..i], None)
    {
      assert folders[..i + 1][..i] == folders[..i];
      if inDegree[folders[i].key] == 0 { queue := queue + [folders[i].key]; }
    }
    assert folders[..|folders|] == folders;
  }

  /** The pending counts agree with the processed keys. */
  predicate Counts(folders: seq<Folder>, done: seq<Key>, inDegree: map<Key, nat>) {
    forall i {:trigger Blocked(folders, done, i)} :: 0 <= i < |folders| ==>
      folders[i].key in inDegree && inDegree[folders[i].key] == if Blocked(folders, done, i) then 1 else 0
  }

  /** Releases the children of a key that has just been processed. */
  method Release(folders: seq<Folder>, ghost done: seq<Key>, children: seq<Key>, inDegree: map<Key, nat>, queue: seq<Key>)
    returns (counts: map<Key, nat>, longer: seq<Key>)
    requires KeysDistinct(folders) && done != [] && NoRepeats(children)
    requires Counts(folders, done[..|done| - 1], inDegree) && done[|done| - 1] !in done[..|done| - 1]
    requires children == ChildrenOf(folders, Some(done[|done| - 1]))
    ensures Counts(folders, done, counts) && longer == queue + children
  {
    counts, longer := inDegree, queue;
    ghost var curr, before := done[|done| - 1], done[..|done| - 1];
    forall k | k in children ensures k in counts && counts[k] == 1 { ChildCounts(folders, before, curr, counts, k); }
    for i := 0 to |children|
      invariant longer == queue + children[..i]
      invariant counts.Keys == inDegree.Keys
      invariant forall k :: k in counts ==> counts[k] == if k in children[..i] then 0 else inDegree[k]
    {
      var child := children[i];
      assert child !in children[..i] && child in counts;
      counts := counts[child := counts[child] - 1];
      if counts[child] == 0 { longer := longer + [child]; }
      assert children[..i + 1] == children[..i] + [child];
    }
    assert children[..|children|] == children;
    forall i: nat | i < |folders| ensures folders[i].key in counts && counts[folders[i].key] == if Blocked(folders, done, i) then 1 else 0 {
      ChildrenMembers(folders, Some(curr), folders[i].key);
      assert done == before + [curr];
      assert Blocked(folders, before, i) || !Blocked(folders, before, i);
    }
  }

  lemma ChildCounts(folders: seq<Folder>, before: seq<Key>, curr: Key, inDegree: map<Key, nat>, k: Key)
    requires KeysDistinct(folders) && Counts(folders, before, inDegree) && curr !in before && k in ChildrenOf(folders, Some(curr))
    ensures k in inDegree && inDegree[k] == 1
  {
    ChildrenMembers(folders, Some(curr), k);
    var i :| 0 <= i < |folders| && folders[i].key == k && folders[i].parent == Some(curr);
    assert Blocked(folders, before, i);
  }

  /**
   `topologicalSortFolders`: succeeds exactly when every parent is known and there
   is no cycle. The result is a rearrangement of the input with parents first, and
   roots and siblings keep their input order.
   */
  method TopologicalSort(folders: seq<Folder>) returns (r: Sorted)
    requires KeysDistinct(folders)
    ensures r.UnknownParent? <==> !ParentsKnown(folders)
    ensures r.CyclicGraph? <==> ParentsKnown(folders) && !Acyclic(folders)
    ensures r.Sorted? ==>
      && multiset(r.folders) == multiset(folders) && ParentsFirst(r.folders)
      && Keys(r.folders) == ChildrenOf(folders, None) + ChildrenOfAll(folders, Keys(r.folders))
  {
    var unknown, childrenMap, inDegree, folderMap := BuildGraph(folders);
    if unknown.Some? { return UnknownParent(unknown.value); }
    var queue := Roots(folders, inDegree);
    var sorted: seq<Folder> := [];
    ghost var done: seq<Key> := [];
    FrontierStarts(folders);
    forall i: nat | i < |folders| ensures folders[i].key in inDegree && inDegree[folders[i].key] == if Blocked(folders, [], i) then 1 else 0 {}
    while queue != []
      invariant Frontier(folders, done, queue) && Counts(folders, done, inDegree) && |done| <= |folders|
      invariant Emitted(folders, done, sorted)
      decreases |folders| - |done|
    {
      var curr := queue[0];
      FrontierKeys(folders, done, queue, curr);
      FrontIsNew(done, queue);
      Emit(folders, done, queue, sorted, folderMap[curr]);
      FrontierMoves(folders, done, queue);
      ChildrenMembers(folders, Some(curr), curr);
      sorted := sorted + [folderMap[curr]];
      assert Children(childrenMap, curr) == ChildrenOf(folders, Some(curr));
      assert (done + [curr])[..|done|] == done;
      inDegree, queue := Release(folders, done + [curr], Children(childrenMap, curr), inDegree, queue[1..]);
      done := done + [curr];
      FrontierFits(folders, done, queue);
    }
    if |sorted| != |folders| {
      UnreachedMeansCycle(folders, done);
      return CyclicGraph;
    }
    Finished(folders, done, sorted);
    return Sorted(sorted);
  }

  /** What stands at the front of the queue has its parent processed. */
  lemma ParentIsDone(folders: seq<Folder>, done: seq<Key>, queue: seq<Key>, f: Folder)
    requires KeysDistinct(folders) && Frontier(folders, done, queue) && queue != [] && f in folders && f.key == queue[0]
    ensures f.parent.Some? ==> f.parent.value in done
  {
    var i :| 0 <= i < |folders| && folders[i] == f;
    assert (done + queue)[|done|] == f.key;
    FrontierMember(folders, done, queue, i);
  }

  /** The output so far lists the processed keys' entries, parents first. */
  ghost predicate Emitted(folders: seq<Folder>, done: seq<Key>, sorted: seq<Folder>) {
    && |sorted| == |done| && ParentsFirst(sorted)
    && (forall i :: 0 <= i < |done| ==> sorted[i] in folders && sorted[i].key == done[i])
  }

  lemma Emit(folders: seq<Folder>, done: seq<Key>, queue: seq<Key>, sorted: seq<Folder>, f: Folder)
    requires KeysDistinct(folders) && Frontier(folders, done, queue) && queue != [] && f in folders && f.key == queue[0]
    requires Emitted(folders, done, sorted)
    ensures Emitted(folders, done + [f.key], sorted + [f])
  {
    ParentIsDone(folders, done, queue, f);
    var longer := sorted + [f];
    forall i: nat ensures ParentBefore(longer, i) {
      assert ParentBefore(sorted, i);
      if i >= |longer| || longer[i].parent.None? {
      } else if i < |sorted| {
        var j :| 0 <= j < i && sorted[j].key == sorted[i].parent.value;
        assert longer[j].key == longer[i].parent.value;
      } else {
        var j :| 0 <= j < |done| && done[j] == f.parent.value;
        assert longer[j].key == longer[i].parent.value;
      }
    }
  }

  lemma FrontierFits(folders: seq<Folder>, done: seq<Key>, queue: seq<Key>)
    requires KeysDistinct(folders) && Frontier(folders, done, queue)
    ensures |done| <= |folders|
  {
    var all := done + queue;
    forall n | 0 <= n < |all| ensures all[n] in KeySet(folders) { FrontierKeys(folders, done, queue, all[n]); }
    NoRepeatsFits(all, KeySet(folders));
    KeySetSize(folders);
  }

  /** With everything reached, the processed folders are the whole input, parents first. */
  lemma Finished(folders: seq<Folder>, done: seq<Key>, sorted: seq<Folder>)
    requires KeysDistinct(folders) && Frontier(folders, done, []) && |done| == |folders| == |sorted|
    requires Emitted(folders, done, sorted)
    ensures multiset(sorted) == multiset(folders) && Acyclic(folders)
    ensures Keys(sorted) == ChildrenOf(folders, None) + ChildrenOfAll(folders, Keys(sorted))
  {
    assert done + [] == done && Keys(sorted) == done;
    AllReached(folders, done);
    EntriesSorted(folders, done, sorted);
    SameEntries(sorted, folders);
    SortedIsAcyclic(folders, sorted);
  }

  lemma AllReached(folders: seq<Folder>, done: seq<Key>)
    requires KeysDistinct(folders) && Frontier(folders, done, []) && |done| == |folders|
    ensures forall k :: k in KeySet(folders) ==> k in done
  {
    assert done + [] == done;
    forall n | 0 <= n < |done| ensures done[n] in KeySet(folders) { FrontierKeys(folders, done, [], done[n]); }
    NoRepeatsFits(done, KeySet(folders));
    KeySetSize(folders);
  }

  lemma EntriesSorted(folders: seq<Folder>, done: seq<Key>, sorted: seq<Folder>)
    requires KeysDistinct(folders) && |done| == |sorted| && NoRepeats(done) && forall k :: k in KeySet(folders) ==> k in done
    requires Emitted(folders, done, sorted)
    ensures KeysDistinct(sorted) && forall f :: f in sorted <==> f in folders
  {
    forall f | f in folders ensures f in sorted { EntrySorted(folders, done, sorted, f); }
  }

  lemma EntrySorted(folders: seq<Folder>, done: seq<Key>, sorted: seq<Folder>, f: Folder)
    requires KeysDistinct(folders) && |done| == |sorted| && f in folders && forall k :: k in KeySet(folders) ==> k in done
    requires forall i :: 0 <= i < |done| ==> sorted[i] in folders && sorted[i].key == done[i]
    ensures f in sorted
  {
    assert f.key in KeySet(folders);
    var i :| 0 <= i < |done| && done[i] == f.key;
    assert sorted[i] == f;
  }

  /** Lists of distinct keys with the same elements are rearrangements of each other. */
  lemma SameEntries(a: seq<Folder>, b: seq<Folder>)
    requires KeysDistinct(a) && KeysDistinct(b) && (forall f :: f in a <==> f in b)
    ensures multiset(a) == multiset(b)
  {
    forall f ensures multiset(a)[f] == multiset(b)[f] {
      OnceOnly(a, f);
      OnceOnly(b, f);
    }
  }

  lemma {:induction false} OnceOnly(a: seq<Folder>, f: Folder)
    requires KeysDistinct(a)
    ensures multiset(a)[f] == if f in a then 1 else 0
  {
    if a != [] {
      var init, last := a[..|a| - 1], a[|a| - 1];
      assert a == init + [last];
      OnceOnly(init, f);
    }
  }

  // ---- the import transaction's use of the order ----

  /** The folder's path is its parent's with one id more; only parentless folders are at the top. */
  predicate PlacedBelowParent(paths: map<Key, Path>, f: Folder) {
    && f.key in paths && paths[f.key] != []
    && match f.parent
       case None => |paths[f.key]| == 1
       case Some(p) => p in paths && paths[f.key][..|paths[f.key]| - 1] == paths[p] && paths[p] != []
  }

  lemma PlacementKept(paths: map<Key, Path>, key: Key, path: Path, g: Folder)
    requires key !in paths && PlacedBelowParent(paths, g)
    ensures PlacedBelowParent(paths[key := path], g)
  {
  }

  /** The first `i` folders have their paths, and no later one has. */
  ghost predicate PlacedUpTo(sorted: seq<Folder>, paths: map<Key, Path>, i: nat) {
    && i <= |sorted|
    && (forall j: nat {:trigger PlacedBelowParent(paths, sorted[j])} :: j < i ==> PlacedBelowParent(paths, sorted[j]))
    && (forall j: nat {:trigger Unplaced(sorted, paths, j)} :: i <= j ==> Unplaced(sorted, paths, j))
  }

  predicate Unplaced(sorted: seq<Folder>, paths: map<Key, Path>, j: nat) { j < |sorted| ==> sorted[j].key !in paths }

  /** Among folders already placed, the parent's path is there to be read. */
  lemma ParentIsPlaced(sorted: seq<Folder>, paths: map<Key, Path>, i: nat)
    requires ParentsFirst(sorted) && i < |sorted| && sorted[i].parent.Some?
    requires PlacedUpTo(sorted, paths, i)
    ensures sorted[i].parent.value in paths && paths[sorted[i].parent.value] != []
  {
    assert ParentBefore(sorted, i);
    var j :| 0 <= j < i && sorted[j].key == sorted[i].parent.value;
    assert PlacedBelowParent(paths, sorted[j]);
  }

  /** The transaction's view: the active folders by parent path and name, and what it placed and created so far. */
  datatype Upsert = Upsert(rows: map<(Path, string), nat>, paths: map<Key, Path>, created: nat)

  function ParentPath(s: Upsert, f: Folder): Path {
    if f.parent.Some? && f.parent.value in s.paths then s.paths[f.parent.value] else []
  }

  function Place(s: Upsert, f: Folder): (Path, string) { (ParentPath(s, f), f.name) }

  /** One folder: reuse the active folder of that name below that parent, wherever it came from, or create it. */
  function UpsertFolder(s: Upsert, f: Folder, newId: nat): Upsert {
    var place := Place(s, f);
    if place in s.rows then s.(paths := s.paths[f.key := place.0 + [s.rows[place]]])
    else Upsert(s.rows[place := newId], s.paths[f.key := place.0 + [newId]], s.created + 1)
  }

  function UpsertAll(existing: map<(Path, string), nat>, folders: seq<Folder>, newIds: seq<nat>): Upsert
    requires |folders| <= |newIds|
  {
    if folders == [] then Upsert(existing, map[], 0)
    else
      var last := |folders| - 1;
      UpsertFolder(UpsertAll(existing, folders[..last], newIds), folders[last], newIds[last])
  }

  lemma UpsertOneMore(existing: map<(Path, string), nat>, folders: seq<Folder>, newIds: seq<nat>, i: nat)
    requires i < |folders| <= |newIds|
    ensures UpsertAll(existing, folders[..i + 1], newIds) == UpsertFolder(UpsertAll(existing, folders[..i], newIds), folders[i], newIds[i])
  {
    assert folders[..i + 1][..i] == folders[..i];
  }

  lemma PlaceNext(sorted: seq<Folder>, paths: map<Key, Path>, i: nat, parentPath: Path, id: nat)
    requires KeysDistinct(sorted) && i < |sorted| && PlacedUpTo(sorted, paths, i)
    requires match sorted[i].parent case None => parentPath == [] case Some(p) => p in paths && parentPath == paths[p] && parentPath != []
    ensures PlacedUpTo(sorted, paths[sorted[i].key := parentPath + [id]], i + 1)
  {
    var path := parentPath + [id];
    assert path[..|path| - 1] == parentPath;
    var placed := paths[sorted[i].key := path];
    assert Unplaced(sorted, paths, i);
    forall j: nat | j < i ensures PlacedBelowParent(placed, sorted[j]) { PlacementKept(paths, sorted[i].key, path, sorted[j]); }
    forall j: nat ensures i < j ==> Unplaced(sorted, placed, j) { assert i < j ==> Unplaced(sorted, paths, j); }
  }

  lemma PlaceStep(s: Upsert, sorted: seq<Folder>, i: nat, newId: nat)
    requires KeysDistinct(sorted) && ParentsFirst(sorted) && i < |sorted| && PlacedUpTo(sorted, s.paths, i)
    ensures PlacedUpTo(sorted, UpsertFolder(s, sorted[i], newId).paths, i + 1)
  {
    var f := sorted[i];
    if f.parent.Some? { ParentIsPlaced(sorted, s.paths, i); }
    PlaceNext(sorted, s.paths, i, ParentPath(s, f), if Place(s, f) in s.rows then s.rows[Place(s, f)] else newId);
  }

  lemma {:induction false} PrefixPlaced(existing: map<(Path, string), nat>, sorted: seq<Folder>, newIds: seq<nat>, i: nat)
    requires KeysDistinct(sorted) && ParentsFirst(sorted) && |sorted| <= |newIds| && i <= |sorted|
    ensures PlacedUpTo(sorted, UpsertAll(existing, sorted[..i], newIds).paths, i)
  {
    if i > 0 {
      PrefixPlaced(existing, sorted, newIds, i - 1);
      UpsertOneMore(existing, sorted, newIds, i - 1);
      PlaceStep(UpsertAll(existing, sorted[..i - 1], newIds), sorted, i - 1, newIds[i - 1]);
    }
  }

  /**
   The upsert loop. A missing parent would be read as the empty path and put the
   folder at the top; with parents first the lookup never misses.
   */
  method AssignPaths(sorted: seq<Folder>, existing: map<(Path, string), nat>, newIds: seq<nat>) returns (r: Upsert)
    requires KeysDistinct(sorted) && ParentsFirst(sorted) && |newIds| == |sorted|
    ensures r == UpsertAll(existing, sorted, newIds)
    ensures forall i :: 0 <= i < |sorted| ==> PlacedBelowParent(r.paths, sorted[i])
  {
    var rows, paths, created: nat := existing, map[], 0;
    for i := 0 to |sorted|
      invariant Upsert(rows, paths, created) == UpsertAll(existing, sorted[..i], newIds)
    {
      var f := sorted[i];
      assert sorted[..i + 1][..i] == sorted[..i];
      var parentPath := if f.parent.Some? && f.parent.value in paths then paths[f.parent.value] else [];
      if (parentPath, f.name) in rows {
        paths := paths[f.key := parentPath + [rows[(parentPath, f.name)]]];
      } else {
        rows := rows[(parentPath, f.name) := newIds[i]];
        paths := paths[f.key := parentPath + [newIds[i]]];
        created := created + 1;
      }
    }
    assert sorted[..|sorted|] == sorted;
    PrefixPlaced(existing, sorted, newIds, |sorted|);
    r := Upsert(rows, paths, created);
  }

  // ---- importing twice ----

  /** The active folders only gain rows. */
  lemma {:induction false} RowsOnlyGrow(existing: map<(Path, string), nat>, folders: seq<Folder>, newIds: seq<nat>, i: nat)
    requires |folders| <= |newIds| && i <= |folders|
    ensures var part, all := UpsertAll(existing, folders[..i], newIds).rows, UpsertAll(existing, folders, newIds).rows;
            forall place :: place in part ==> place in all && all[place] == part[place]
    decreases |folders| - i
  {
    if i < |folders| {
      UpsertOneMore(existing, folders, newIds, i);
      RowsOnlyGrow(existing, folders, newIds, i + 1);
    } else {
      assert folders[..i] == folders;
    }
  }

  lemma {:induction false} PrefixAgain(
    existing: map<(Path, string), nat>, folders: seq<Folder>, newIds: seq<nat>, moreIds: seq<nat>, i: nat)
    requires |folders| <= |newIds| && |folders| <= |moreIds| && i <= |folders|
    ensures
      var first := UpsertAll(existing, folders, newIds);
      UpsertAll(first.rows, folders[..i], moreIds) == Upsert(first.rows, UpsertAll(existing, folders[..i], newIds).paths, 0)
  {
    if i > 0 {
      PrefixAgain(existing, folders, newIds, moreIds, i - 1);
      RowsOnlyGrow(existing, folders, newIds, i);
      assert folders[..i][..i - 1] == folders[..i - 1];
      var once, f := UpsertAll(existing, folders[..i - 1], newIds), folders[i - 1];
      assert Place(once, f) in UpsertFolder(once, f, newIds[i - 1]).rows;
    }
  }

  /** Importing the same file again creates nothing, and finds every folder where the first import left it. */
  lemma ImportIsIdempotent(existing: map<(Path, string), nat>, folders: seq<Folder>, newIds: seq<nat>, moreIds: seq<nat>)
    requires |folders| <= |newIds| && |folders| <= |moreIds|
    ensures
      var first := UpsertAll(existing, folders, newIds);
      UpsertAll(first.rows, folders, moreIds) == Upsert(first.rows, first.paths, 0)
  {
    PrefixAgain(existing, folders, newIds, moreIds, |folders|);
    assert folders[..|folders|] == folders;
  }

  // ---- folders that share a place ----

  /** No two rows have one id, and the ids still to be given are on none. */
  ghost predicate IdsUnique(rows: map<(Path, string), nat>, unused: seq<nat>) {
    && (forall p, q :: p in rows && q in rows && rows[p] == rows[q] ==> p == q)
    && (forall p, i :: p in rows && 0 <= i < |unused| ==> rows[p] != unused[i])
    && (forall i, j :: 0 <= i < j < |unused| ==> unused[i] != unused[j])
  }

  /** The folder's path is its place's, and its place's row carries the last id. */
  ghost predicate Rowed(s: Upsert, f: Folder) {
    && f.key in s.paths && Place(s, f) in s.rows && s.paths[f.key] == ParentPath(s, f) + [s.rows[Place(s, f)]]
  }

  lemma IdsStep(s: Upsert, f: Folder, unused: seq<nat>)
    requires IdsUnique(s.rows, unused) && unused != []
    ensures IdsUnique(UpsertFolder(s, f, unused[0]).rows, unused[1..])
  {
  }

  /** A folder placed later keeps what was placed before: its own key is new, and so is no parent read before. */
  lemma RowedKept(s: Upsert, f: Folder, newId: nat, g: Folder)
    requires f.key !in s.paths && Rowed(s, g) && PlacedBelowParent(s.paths, g)
    ensures Rowed(UpsertFolder(s, f, newId), g)
  {
    var t := UpsertFolder(s, f, newId);
    assert ParentPath(t, g) == ParentPath(s, g);
  }

  lemma RowedStep(s: Upsert, f: Folder, newId: nat)
    requires f.key !in s.paths && (f.parent.Some? ==> f.parent.value in s.paths)
    ensures Rowed(UpsertFolder(s, f, newId), f)
  {
    assert ParentPath(UpsertFolder(s, f, newId), f) == ParentPath(s, f);
  }

  ghost predicate RowedUpTo(s: Upsert, sorted: seq<Folder>, i: nat) {
    i <= |sorted| && forall j: nat {:trigger Rowed(s, sorted[j])} :: j < i ==> Rowed(s, sorted[j])
  }

  lemma RowedNext(s: Upsert, sorted: seq<Folder>, i: nat, newId: nat)
    requires i < |sorted| && ParentsFirst(sorted) && PlacedUpTo(sorted, s.paths, i) && RowedUpTo(s, sorted, i)
    ensures RowedUpTo(UpsertFolder(s, sorted[i], newId), sorted, i + 1)
  {
    var f := sorted[i];
    assert Unplaced(sorted, s.paths, i);
    if f.parent.Some? { ParentIsPlaced(sorted, s.paths, i); }
    forall j: nat | j < i + 1 ensures Rowed(UpsertFolder(s, f, newId), sorted[j]) {
      if j < i { RowedKept(s, f, newId, sorted[j]); } else { RowedStep(s, f, newId); }
    }
  }

  lemma {:induction false} PrefixIds(existing: map<(Path, string), nat>, sorted: seq<Folder>, newIds: seq<nat>, i: nat)
    requires |sorted| == |newIds| && i <= |sorted| && IdsUnique(existing, newIds)
    ensures IdsUnique(UpsertAll(existing, sorted[..i], newIds).rows, newIds[i..])
  {
    if i > 0 {
      PrefixIds(existing, sorted, newIds, i - 1);
      UpsertOneMore(existing, sorted, newIds, i - 1);
      IdsStep(UpsertAll(existing, sorted[..i - 1], newIds), sorted[i - 1], newIds[i - 1..]);
      assert newIds[i - 1..][1..] == newIds[i..];
    } else {
      assert newIds[i..] == newIds;
    }
  }

  lemma {:induction false} PrefixRowed(existing: map<(Path, string), nat>, sorted: seq<Folder>, newIds: seq<nat>, i: nat)
    requires KeysDistinct(sorted) && ParentsFirst(sorted) && |sorted| <= |newIds| && i <= |sorted|
    ensures RowedUpTo(UpsertAll(existing, sorted[..i], newIds), sorted, i)
  {
    if i > 0 {
      PrefixRowed(existing, sorted, newIds, i - 1);
      PrefixPlaced(existing, sorted, newIds, i - 1);
      UpsertOneMore(existing, sorted, newIds, i - 1);
      RowedNext(UpsertAll(existing, sorted[..i - 1], newIds), sorted, i - 1, newIds[i - 1]);
    }
  }

  /** Two folders of the file are one folder afterwards exactly if they have one parent path and one name. */
  lemma SharedExactly(existing: map<(Path, string), nat>, sorted: seq<Folder>, newIds: seq<nat>, f: Folder, g: Folder)
    requires KeysDistinct(sorted) && ParentsFirst(sorted) && |sorted| == |newIds| && IdsUnique(existing, newIds)
    requires f in sorted && g in sorted
    ensures
      var r := UpsertAll(existing, sorted, newIds);
      && f.key in r.paths && g.key in r.paths
      && (r.paths[f.key] == r.paths[g.key] <==> Place(r, f) == Place(r, g))
  {
    PrefixRowed(existing, sorted, newIds, |sorted|);
    PrefixIds(existing, sorted, newIds, |sorted|);
    assert sorted[..|sorted|] == sorted;
    var r := UpsertAll(existing, sorted, newIds);
    assert Rowed(r, f) && Rowed(r, g);
    var p, q := r.paths[f.key], r.paths[g.key];
    assert p[..|p| - 1] == ParentPath(r, f) && q[..|q| - 1] == ParentPath(r, g);
  }
}
