module Paths {
  // The text of a path: each folder id contributes its hexadecimal digits as one
  // ltree text, labels are joined by dots. Asset Core writes these paths, Access
  // Core reads folder ids back out of them to inherit permissions.

  import opened Wrappers

  // ---- ids and labels ----

  const DASHES: seq<nat> := [8, 13, 18, 23]
  const ID_LENGTH: nat := 36
  const LABEL_LENGTH: nat := 32

  /** A hexadecimal digit, or any other character with no meaning in ids and paths. */
  predicate Plain(c: char) { c != '-' && c != '.' }

  /** The canonical text of a uuid. */
  predicate IsUuid(id: string) {
    |id| == ID_LENGTH && forall i :: 0 <= i < ID_LENGTH ==> if i in DASHES then id[i] == '-' else Plain(id[i])
  }

  predicate IsLabel(text: string) {
    |text| == LABEL_LENGTH && forall i :: 0 <= i < LABEL_LENGTH ==> Plain(text[i])
  }

  /** `strings.ReplaceAll(id, "-", "")` */
  function Segment(id: string): string {
    if id == "" then "" else (if id[0] == '-' then "" else [id[0]]) + Segment(id[1..])
  }

  function InsertDashes(segment: string): string
    requires |segment| == LABEL_LENGTH
  {
    segment[..8] + "-" + segment[8..12] + "-" + segment[12..16] + "-" + segment[16..20] + "-" + segment[20..32]
  }

  lemma {:induction false} SegmentOfPlain(s: string)
    requires forall i :: 0 <= i < |s| ==> Plain(s[i])
    ensures Segment(s) == s
  {
    if s != "" { SegmentOfPlain(s[1..]); }
  }

  lemma {:induction false} SegmentSplits(a: string, b: string)
    ensures Segment(a + b) == Segment(a) + Segment(b)
  {
    if a == "" {
      assert a + b == b;
    } else {
      assert (a + b)[1..] == a[1..] + b;
      SegmentSplits(a[1..], b);
    }
  }

  lemma SegmentOfDash(b: string)
    ensures Segment("-" + b) == Segment(b)
  {
    assert ("-" + b)[1..] == b;
  }

  lemma SegmentDrops(a: string, b: string)
    requires forall i :: 0 <= i < |a| ==> Plain(a[i])
    ensures Segment(a + "-" + b) == a + Segment(b)
  {
    assert a + "-" + b == a + ("-" + b);
    SegmentSplits(a, "-" + b);
    SegmentOfPlain(a);
    SegmentOfDash(b);
  }

  predicate PlainText(s: string) { forall i :: 0 <= i < |s| ==> Plain(s[i]) }

  lemma SegmentOfFive(a: string, b: string, c: string, d: string, e: string)
    requires PlainText(a) && PlainText(b) && PlainText(c) && PlainText(d) && PlainText(e)
    ensures Segment(a + "-" + (b + "-" + (c + "-" + (d + "-" + e)))) == a + (b + (c + (d + e)))
  {
    SegmentDrops(d, e);
    SegmentDrops(c, d + "-" + e);
    SegmentDrops(b, c + "-" + (d + "-" + e));
    SegmentDrops(a, b + "-" + (c + "-" + (d + "-" + e)));
    SegmentOfPlain(e);
  }

  /** Taking the dashes out of a dashed label gives the label back. */
  lemma SegmentOfDashed(text: string)
    requires IsLabel(text)
    ensures Segment(InsertDashes(text)) == text
  {
    var a, b, c, d, e := text[..8], text[8..12], text[12..16], text[16..20], text[20..32];
    SegmentOfFive(a, b, c, d, e);
    assert InsertDashes(text) == a + "-" + (b + "-" + (c + "-" + (d + "-" + e)));
    assert text == a + (b + (c + (d + e)));
  }

  /** A uuid is its own label with the dashes put back. */
  lemma UuidRoundTrip(id: string)
    requires IsUuid(id)
    ensures IsLabel(Segment(id)) && InsertDashes(Segment(id)) == id
  {
    var a, b, c, d, e := id[..8], id[9..13], id[14..18], id[19..23], id[24..36];
    var text := a + b + c + d + e;
    assert id[8] == '-' && id[13] == '-' && id[18] == '-' && id[23] == '-' by {
      assert 8 == DASHES[0] && 13 == DASHES[1] && 18 == DASHES[2] && 23 == DASHES[3];
    }
    assert id == a + "-" + b + "-" + c + "-" + d + "-" + e;
    assert text[..8] == a && text[8..12] == b && text[12..16] == c && text[16..20] == d && text[20..32] == e;
    assert InsertDashes(text) == id;
    SegmentOfDashed(text);
  }

  // ---- joining and splitting ----

  function Join(labels: seq<string>): string {
    if labels == [] then "" else if |labels| == 1 then labels[0] else labels[0] + "." + Join(labels[1..])
  }

  predicate NoDot(s: string) { forall i :: 0 <= i < |s| ==> s[i] != '.' }

  /** The position of the first dot, or the length when there is none. */
  function FirstDot(s: string): (i: nat)
    ensures i <= |s| && NoDot(s[..i]) && (i < |s| ==> s[i] == '.')
  {
    if s == "" || s[0] == '.' then 0
    else
      var i := FirstDot(s[1..]) + 1;
      assert s[..i] == [s[0]] + s[1..][..i - 1];
      i
  }

  /** `path.split(".")` */
  function Split(s: string): seq<string>
    decreases |s|
  {
    var i := FirstDot(s);
    if i == |s| then [s] else [s[..i]] + Split(s[i + 1..])
  }

  lemma FirstDotAt(head: string, tail: string)
    requires NoDot(head)
    ensures FirstDot(head + "." + tail) == |head|
  {
    var s, i := head + "." + tail, FirstDot(head + "." + tail);
    assert s[|head|] == '.';
    assert forall k :: 0 <= k < |head| ==> s[k] == head[k];
    assert forall k :: 0 <= k < i ==> s[..i][k] == s[k];
  }

  lemma {:induction false} SplitOfJoin(labels: seq<string>)
    requires labels != [] && forall i :: 0 <= i < |labels| ==> NoDot(labels[i])
    ensures Split(Join(labels)) == labels
  {
    if |labels| == 1 {
      var i := FirstDot(labels[0]);
      assert labels == [labels[0]];
    } else {
      var head, tail := labels[0], Join(labels[1..]);
      FirstDotAt(head, tail);
      SplitOfJoin(labels[1..]);
      assert (head + "." + tail)[|head| + 1..] == tail && (head + "." + tail)[..|head|] == head;
      assert labels == [labels[0]] + labels[1..];
    }
  }

  // ---- folder paths ----

  predicate AreUuids(ids: seq<string>) {
    forall i :: 0 <= i < |ids| ==> IsUuid(ids[i])
  }

  function Labels(ids: seq<string>): (labels: seq<string>)
    ensures |labels| == |ids| && forall i :: 0 <= i < |ids| ==> labels[i] == Segment(ids[i])
  {
    seq(|ids|, i requires 0 <= i < |ids| => Segment(ids[i]))
  }

  /** The text of the path that goes through these folders. */
  function Encode(ids: seq<string>): string {
    Join(Labels(ids))
  }

  /** What folder creation and moving write: the parent's text, a dot, the own label. */
  function ChildPath(parentPath: string, id: string): string {
    if parentPath != "" then parentPath + "." + Segment(id) else Segment(id)
  }

  lemma {:induction false} JoinAppend(labels: seq<string>, text: string)
    requires labels != []
    ensures Join(labels + [text]) == Join(labels) + "." + text
  {
    if |labels| == 1 {
      assert (labels + [text])[1..] == [text];
    } else {
      assert (labels + [text])[1..] == labels[1..] + [text];
      JoinAppend(labels[1..], text);
      assert labels[0] + "." + (Join(labels[1..]) + "." + text) == (labels[0] + "." + Join(labels[1..])) + "." + text;
    }
  }

  lemma {:induction false} JoinNonEmpty(labels: seq<string>)
    requires labels != [] && labels[0] != ""
    ensures Join(labels) != ""
  {
    if |labels| > 1 { assert |Join(labels)| >= |labels[0]|; }
  }

  /** Extending the text extends the sequence of ids it stands for. */
  lemma ChildEncodes(ids: seq<string>, id: string)
    requires AreUuids(ids) && IsUuid(id)
    ensures ChildPath(Encode(ids), id) == Encode(ids + [id])
  {
    assert Labels(ids + [id]) == Labels(ids) + [Segment(id)];
    if ids != [] {
      UuidRoundTrip(ids[0]);
      JoinNonEmpty(Labels(ids));
      JoinAppend(Labels(ids), Segment(id));
    }
  }

  lemma LabelsAreLabels(ids: seq<string>)
    requires AreUuids(ids)
    ensures forall i :: 0 <= i < |ids| ==> IsLabel(Labels(ids)[i]) && NoDot(Labels(ids)[i]) && InsertDashes(Labels(ids)[i]) == ids[i]
  {
    forall i | 0 <= i < |ids| ensures IsLabel(Labels(ids)[i]) && NoDot(Labels(ids)[i]) && InsertDashes(Labels(ids)[i]) == ids[i] {
      UuidRoundTrip(ids[i]);
    }
  }

  /** Different folders have different texts, and so have different paths. */
  lemma EncodeInjective(a: seq<string>, b: seq<string>)
    requires AreUuids(a) && AreUuids(b) && a != [] && b != [] && Encode(a) == Encode(b)
    ensures a == b
  {
    LabelsAreLabels(a);
    LabelsAreLabels(b);
    SplitOfJoin(Labels(a));
    SplitOfJoin(Labels(b));
    assert forall i :: 0 <= i < |a| ==> a[i] == InsertDashes(Labels(a)[i]) == InsertDashes(Labels(b)[i]) == b[i];
  }

  // ---- reading ids back ----

  function Dashed(segments: seq<string>): (ids: seq<string>) {
    if segments == [] then []
    else (if |segments[0]| == LABEL_LENGTH then [InsertDashes(segments[0])] else []) + Dashed(segments[1..])
  }

  function FolderIdsFromPath(path: string): seq<string> {
    Dashed(Split(path))
  }

  function AncestorIdsFromPath(path: string): seq<string> {
    var segments := Split(path);
    Dashed(if segments == [] then [] else segments[..|segments| - 1])
  }

  lemma {:induction false} DashedLabels(ids: seq<string>)
    requires AreUuids(ids)
    ensures Dashed(Labels(ids)) == ids
  {
    if ids != [] {
      UuidRoundTrip(ids[0]);
      assert Labels(ids)[1..] == Labels(ids[1..]);
      DashedLabels(ids[1..]);
      assert ids == [ids[0]] + ids[1..];
    }
  }

  /** An item's path gives back exactly the folders it lies in, outermost first. */
  lemma FolderIdsRoundTrip(ids: seq<string>)
    requires AreUuids(ids)
    ensures FolderIdsFromPath(Encode(ids)) == ids
  {
    if ids == [] {
      assert Split("") == [""];
      assert Dashed([""]) == Dashed([""][1..]);
    } else {
      LabelsAreLabels(ids);
      SplitOfJoin(Labels(ids));
      DashedLabels(ids);
    }
  }

  /** A folder's path gives back exactly its proper ancestors. */
  lemma AncestorIdsRoundTrip(ids: seq<string>, id: string)
    requires AreUuids(ids) && IsUuid(id)
    ensures AncestorIdsFromPath(ChildPath(Encode(ids), id)) == ids
  {
    ChildEncodes(ids, id);
    var all := ids + [id];
    LabelsAreLabels(all);
    SplitOfJoin(Labels(all));
    assert Labels(all)[..|ids|] == Labels(ids);
    DashedLabels(ids);
  }

  // ---- prefix tests on text ----

  /** `strings.HasPrefix` */
  predicate HasPrefix(s: string, prefix: string) { prefix <= s }

  /** The move's cycle test: the destination is the source or lies below it. */
  predicate BelowText(dest: string, source: string) {
    HasPrefix(dest, source + ".") || dest == source
  }

  lemma {:induction false} JoinPrefix(a: seq<string>, b: seq<string>)
    requires a != [] && a <= b
    ensures BelowText(Join(b), Join(a))
  {
    if a == b {
    } else {
      var init := b[..|b| - 1];
      JoinPrefix(a, init);
      assert b == init + [b[|b| - 1]];
      JoinAppend(init, b[|b| - 1]);
      if Join(init) == Join(a) { assert Join(a) + "." <= Join(b); } else { assert Join(a) + "." <= Join(init) <= Join(b); }
    }
  }

  lemma DotInside(s: string, t: string)
    requires t + "." <= s
    ensures !NoDot(s)
  {
    assert s[|t|] == (t + ".")[|t|];
  }

  lemma {:induction false} TextPrefix(a: seq<string>, b: seq<string>)
    requires a != [] && b != [] && BelowText(Join(b), Join(a))
    requires forall i :: 0 <= i < |a| ==> NoDot(a[i])
    requires forall i :: 0 <= i < |b| ==> NoDot(b[i])
    ensures a <= b
  {
    var s, t := Join(b), Join(a);
    if s == t {
      SplitOfJoin(a);
      SplitOfJoin(b);
    } else {
      DotInside(s, t);
      assert |b| > 1;
      assert s == b[0] + "." + Join(b[1..]);
      FirstDotAt(b[0], Join(b[1..]));
      if |a| == 1 {
        assert s == a[0] + "." + s[|t| + 1..];
        FirstDotAt(a[0], s[|t| + 1..]);
        assert s[..|a[0]|] == a[0] && s[..|b[0]|] == b[0];
      } else {
        var rest := Join(a[1..]) + "." + s[|t| + 1..];
        assert s == t + "." + s[|t| + 1..];
        assert s == a[0] + "." + rest;
        FirstDotAt(a[0], rest);
        assert s[..|a[0]|] == a[0] && s[..|b[0]|] == b[0];
        assert Join(b[1..]) == s[|a[0]| + 1..] == rest;
        assert Join(a[1..]) + "." <= Join(b[1..]);
        TextPrefix(a[1..], b[1..]);
        assert a == [a[0]] + a[1..] && b == [b[0]] + b[1..];
      }
    }
  }

  /** The string test is ancestry of the id sequences: no label is mistaken for part of another. */
  lemma CycleTestIsAncestry(source: seq<string>, dest: seq<string>)
    requires AreUuids(source) && AreUuids(dest) && source != [] && dest != []
    ensures BelowText(Encode(dest), Encode(source)) <==> source <= dest
  {
    LabelsAreLabels(source);
    LabelsAreLabels(dest);
    if source <= dest {
      assert Labels(source) <= Labels(dest);
      JoinPrefix(Labels(source), Labels(dest));
    }
    if BelowText(Encode(dest), Encode(source)) {
      TextPrefix(Labels(source), Labels(dest));
      forall i | 0 <= i < |source| ensures source[i] == dest[i] {
        assert Labels(source)[i] == Labels(dest)[i];
        assert source[i] == InsertDashes(Labels(source)[i]) && dest[i] == InsertDashes(Labels(dest)[i]);
      }
    }
  }

  // ---- the parent's path ----

  /** `strings.LastIndex(path, ".")`, or `None` when there is no dot. */
  function LastDot(s: string): (i: Option<nat>)
    ensures i.Some? ==> i.value < |s| && s[i.value] == '.' && NoDot(s[i.value + 1..])
    ensures i.None? ==> NoDot(s)
  {
    if s == "" then None
    else if s[|s| - 1] == '.' then Some(|s| - 1)
    else
      assert s == s[..|s| - 1] + [s[|s| - 1]];
      LastDot(s[..|s| - 1])
  }

  lemma {:induction false} LastDotAt(head: string, tail: string)
    requires NoDot(tail)
    ensures LastDot(head + "." + tail) == Some(|head|)
  {
    var s := head + "." + tail;
    if tail == "" {
      assert s == head + ".";
    } else {
      var init := tail[..|tail| - 1];
      assert s[|s| - 1] == tail[|tail| - 1];
      assert s[..|s| - 1] == head + "." + init;
      LastDotAt(head, init);
    }
  }

  function LifecycleParentPath(path: string): Option<string> {
    match LastDot(path)
    case None => None
    case Some(i) => Some(path[..i])
  }

  /** Cutting at the last dot is dropping the last id. */
  lemma ParentPathIsParent(ids: seq<string>, id: string)
    requires AreUuids(ids) && IsUuid(id)
    ensures LifecycleParentPath(Encode(ids + [id])) == if ids == [] then None else Some(Encode(ids))
  {
    ChildEncodes(ids, id);
    UuidRoundTrip(id);
    var path, text := Encode(ids + [id]), Segment(id);
    assert NoDot(text);
    if ids != [] {
      UuidRoundTrip(ids[0]);
      JoinNonEmpty(Labels(ids));
      var parent := Encode(ids);
      assert path == parent + "." + text;
      LastDotAt(parent, text);
      assert path[..|parent|] == parent;
    } else {
      assert path == text;
    }
  }
}
