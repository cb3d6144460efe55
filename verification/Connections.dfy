/** Cursor pagination of an array (connections.ts). The reference is the pagination
    algorithm in section 4.4 of the GraphQL Cursor Connections Specification. */
module Connections {
  import opened Common

  datatype Node = Node(id: string, value: int)

  /** Absent and null arguments are None. */
  datatype Args = Args(after: Option<string>, before: Option<string>, first: Option<int>, last: Option<int>)

  /** Edges carry the node's id as cursor. */
  datatype Connection = Connection(
    nodes: seq<Node>,
    startCursor: Option<string>,
    endCursor: Option<string>,
    hasPreviousPage: bool,
    hasNextPage: bool)

  function Min(a: int, b: int): int { if a < b then a else b }

  function Max(a: int, b: int): int { if a > b then a else b }

  /** findIndex on ids: the first match, or -1. */
  function IndexOf(a: seq<Node>, id: string): (k: int)
    ensures -1 <= k < |a|
    ensures k >= 0 ==> a[k].id == id && forall j :: 0 <= j < k ==> a[j].id != id
    ensures k == -1 ==> forall j :: 0 <= j < |a| ==> a[j].id != id
  {
    IndexFrom(a, id, 0)
  }

  function IndexFrom(a: seq<Node>, id: string, start: nat): (k: int)
    requires start <= |a|
    ensures k == -1 || start <= k < |a|
    ensures k >= 0 ==> a[k].id == id && forall j :: start <= j < k ==> a[j].id != id
    ensures k == -1 ==> forall j :: start <= j < |a| ==> a[j].id != id
    decreases |a| - start
  {
    if start == |a| then -1 else if a[start].id == id then start else IndexFrom(a, id, start + 1)
  }

  /** Array.prototype.slice: negative bounds count from the end. */
  function Slice<T>(a: seq<T>, start: int, end: int): seq<T> {
    var s := if start < 0 then Max(|a| + start, 0) else Min(start, |a|);
    var e := if end < 0 then Max(|a| + end, 0) else Min(end, |a|);
    if s < e then a[s..e] else []
  }

  predicate Truthy(s: Option<string>) { s.Some? && s.value != "" }

  predicate Counts(n: Option<int>) { n.Some? && n.value != 0 }

  // ---------------------------------------------------------------------------
  // The reference

  /** ApplyCursorsToEdges: cut behind `after`, then before `before` in what is left. */
  function ApplyCursors(a: seq<Node>, after: Option<string>, before: Option<string>): seq<Node> {
    var k := if after.Some? then IndexOf(a, after.value) else -1;
    var rest := a[k + 1..];
    var b := if before.Some? then IndexOf(rest, before.value) else -1;
    if b >= 0 then rest[..b] else rest
  }

  function Truncate(a: seq<Node>, first: Option<int>, last: Option<int>): seq<Node> {
    var head := if first.Some? && 0 <= first.value < |a| then a[..first.value] else a;
    if last.Some? && 0 <= last.value < |head| then head[|head| - last.value..] else head
  }

  /** EdgesToReturn */
  function EdgesToReturn(a: seq<Node>, args: Args): seq<Node> {
    Truncate(ApplyCursors(a, args.after, args.before), args.first, args.last)
  }

  // ---------------------------------------------------------------------------
  // The code

  /** Page sizes as checkedConnectionArgs lets them through. */
  predicate Sized(args: Args) {
    (args.first.Some? ==> args.first.value > 0) && (args.last.Some? ==> args.last.value > 0)
  }

  /** The code ignores an empty cursor; no id is one. */
  predicate ValidArgs(args: Args) { Sized(args) && args.after != Some("") && args.before != Some("") }

  function AfterOffset(a: seq<Node>, args: Args): int {
    if Truthy(args.after) then IndexOf(a, args.after.value) else -1
  }

  function BeforeOffset(a: seq<Node>, args: Args): int {
    if Truthy(args.before) then IndexOf(a, args.before.value) else |a|
  }

  /** Both cursors name nodes, and `before` does not come after `after`. */
  predicate Crossed(a: seq<Node>, args: Args) {
    args.before.Some? && 0 <= BeforeOffset(a, args) <= AfterOffset(a, args)
  }

  /** The interval both cursors leave. */
  function Start(a: seq<Node>, args: Args): nat { AfterOffset(a, args) + 1 }

  function End(a: seq<Node>, args: Args): nat {
    if BeforeOffset(a, args) >= 0 then BeforeOffset(a, args) else |a|
  }

  /** An interval cut to its first nodes, and to its last. */
  function FirstCut(start: int, end: int, first: Option<int>): int {
    if first.Some? then Min(end, start + first.value) else end
  }

  function LastCut(start: int, end: int, last: Option<int>): int {
    if last.Some? then Max(start, end - last.value) else start
  }

  function CutEnd(a: seq<Node>, args: Args): int { FirstCut(Start(a, args), End(a, args), args.first) }

  function CutStart(a: seq<Node>, args: Args): int { LastCut(Start(a, args), CutEnd(a, args), args.last) }

  /** The page of a whole array, as one interval of it. */
  function Page(a: seq<Node>, args: Args): Connection {
    var start, end := CutStart(a, args), CutEnd(a, args);
    var nodes := Slice(a, start, end);
    Connection(
      nodes,
      if nodes == [] then None else Some(nodes[0].id),
      if nodes == [] then None else Some(nodes[|nodes| - 1].id),
      args.last.Some? && start > Start(a, args),
      args.first.Some? && end < if args.before.Some? then BeforeOffset(a, args) else |a|)
  }

  /** The part of the array the total lets through. */
  function Visible(a: seq<Node>, total: nat): seq<Node> { a[..Min(|a|, total)] }

  lemma {:induction false} IndexInPrefix(a: seq<Node>, n: nat, id: string)
    requires n <= |a|
    ensures IndexOf(a[..n], id) == if IndexOf(a, id) < n then IndexOf(a, id) else -1
  {
    var k, j := IndexOf(a, id), IndexOf(a[..n], id);
    if 0 <= k < n { assert a[..n][k] == a[k]; }
  }

  /** The offsets of the slice, and those of the cursors. A total below the length cuts
      the array, cursors behind it included. */
  method Offsets(a: seq<Node>, total: nat, args: Args)
    returns (startOffset: int, endOffset: int, afterOffset: int, beforeOffset: int)
    ensures afterOffset == AfterOffset(a, args)
    ensures beforeOffset == if Truthy(args.before) then IndexOf(a, args.before.value) else |Visible(a, total)|
    ensures Sized(args) ==>
              startOffset == CutStart(Visible(a, total), args) && endOffset == CutEnd(Visible(a, total), args)
  {
    startOffset, endOffset := 0, Min(|a|, total);
    afterOffset := if Truthy(args.after) then IndexOf(a, args.after.value) else -1;
    if 0 <= afterOffset < total { startOffset := Max(startOffset, afterOffset + 1); }
    beforeOffset := if Truthy(args.before) then IndexOf(a, args.before.value) else endOffset;
    if 0 <= beforeOffset < total { endOffset := Min(endOffset, beforeOffset); }
    if args.after.Some? { IndexInPrefix(a, Min(|a|, total), args.after.value); }
    if args.before.Some? { IndexInPrefix(a, Min(|a|, total), args.before.value); }
    assert startOffset == Start(Visible(a, total), args) && endOffset == End(Visible(a, total), args);
    if Counts(args.first) { endOffset := Min(endOffset, startOffset + args.first.value); }
    if Counts(args.last) { startOffset := Max(startOffset, endOffset - args.last.value); }
  }

  lemma {:induction false} SliceOfPrefix(a: seq<Node>, n: nat, start: int, end: int)
    requires n <= |a| && 0 <= start && 0 <= end <= n
    ensures Slice(a, start, end) == Slice(a[..n], start, end)
  {}

  /** Where a next page ends being promised: at the `before` cursor wherever it stands in
      the uncut array, and otherwise at the total, beyond the array if need be. */
  function UpperBound(a: seq<Node>, total: nat, args: Args): int {
    if args.before == None then total
    else if Truthy(args.before) then IndexOf(a, args.before.value) else |Visible(a, total)|
  }

  /** connectionFromPaginatedArray. The nodes are those of the array cut to the total; the
      flags compare them with cursors looked up in the uncut one. */
  method Paginate(a: seq<Node>, total: nat, args: Args) returns (c: Connection)
    ensures Sized(args) ==>
              && c.nodes == Page(Visible(a, total), args).nodes
              && c.startCursor == Page(Visible(a, total), args).startCursor
              && c.endCursor == Page(Visible(a, total), args).endCursor
              && c.hasNextPage == (args.first.Some? && CutEnd(Visible(a, total), args) < UpperBound(a, total, args))
              && c.hasPreviousPage == (args.last.Some? && CutStart(Visible(a, total), args) > Start(a, args))
    ensures Sized(args) && total == |a| ==> c == Page(a, args)
    ensures args.first == None ==> !c.hasNextPage
    ensures args.last == None ==> !c.hasPreviousPage
  {
    var startOffset, endOffset, afterOffset, beforeOffset := Offsets(a, total, args);
    var nodes := Slice(a, startOffset, endOffset);
    if Sized(args) {
      SliceOfPrefix(a, Min(|a|, total), startOffset, endOffset);
      assert nodes == Page(Visible(a, total), args).nodes;
    }
    assert total == |a| ==> Visible(a, total) == a;
    var lowerBound := if args.after.Some? then afterOffset + 1 else 0;
    var upperBound := if args.before.Some? then beforeOffset else total;
    c := Connection(
      nodes,
      if nodes == [] then None else Some(nodes[0].id),
      if nodes == [] then None else Some(nodes[|nodes| - 1].id),
      args.last.Some? && startOffset > lowerBound,
      args.first.Some? && endOffset < upperBound);
  }

  // ---------------------------------------------------------------------------
  // Against the reference

  /** Crossed cursors give an empty page. */
  lemma {:induction false} CrossedIsEmpty(a: seq<Node>, args: Args)
    requires ValidArgs(args) && Crossed(a, args)
    ensures Page(a, args).nodes == []
  {}

  lemma {:induction false} ApplyCursorsIsInterval(a: seq<Node>, args: Args)
    requires ValidArgs(args) && !Crossed(a, args)
    ensures Start(a, args) <= End(a, args)
    ensures ApplyCursors(a, args.after, args.before) == a[Start(a, args)..End(a, args)]
  {}

  /** Truncating an interval from both ends. */
  lemma {:induction false} TruncateInterval(a: seq<Node>, start: nat, end: nat, first: Option<int>, last: Option<int>)
    requires start <= end <= |a| && (first.Some? ==> first.value > 0) && (last.Some? ==> last.value > 0)
    ensures var e := FirstCut(start, end, first);
            var s := LastCut(start, e, last);
            s <= e && Truncate(a[start..end], first, last) == a[s..e] == Slice(a, s, e)
  {
    var e := FirstCut(start, end, first);
    assert a[start..end][..e - start] == a[start..e];
    var s := LastCut(start, e, last);
    assert a[start..e][s - start..] == a[s..e];
    SliceInterval(a, s, e);
  }

  lemma {:induction false} TruncateIsCut(a: seq<Node>, args: Args)
    requires ValidArgs(args) && !Crossed(a, args)
    ensures Page(a, args).nodes == EdgesToReturn(a, args)
  {
    var start, end := Start(a, args), End(a, args);
    ApplyCursorsIsInterval(a, args);
    TruncateInterval(a, start, end, args.first, args.last);
  }

  lemma {:induction false} SliceInterval(a: seq<Node>, start: int, end: int)
    requires 0 <= start <= end <= |a|
    ensures Slice(a, start, end) == a[start..end]
  {}

  predicate Distinct(a: seq<Node>) { forall i, j :: 0 <= i < j < |a| ==> a[i].id != a[j].id }

  /** The page is what the specification's algorithm returns, except for cursors that
      cross: there the specification ignores `before`, and the code returns nothing. The
      two then agree only if nothing follows `after` anyway. */
  lemma {:induction false} MatchesReferenceIff(a: seq<Node>, args: Args)
    requires ValidArgs(args) && Distinct(a)
    ensures Page(a, args).nodes == EdgesToReturn(a, args)
            <==> (Crossed(a, args) ==> AfterOffset(a, args) == |a| - 1)
  {
    if Crossed(a, args) {
      CrossedIsEmpty(a, args);
      var rest := a[AfterOffset(a, args) + 1..];
      var b := BeforeOffset(a, args);
      assert a[b].id == args.before.value;
      assert IndexOf(rest, args.before.value) == -1;
      assert EdgesToReturn(a, args) == [] <==> rest == [];
    } else {
      TruncateIsCut(a, args);
    }
  }

  // ---------------------------------------------------------------------------
  // Following the cursors

  function ForwardArgs(size: nat, cursor: Option<string>): Args { Args(cursor, None, Some(size), None) }

  function BackwardArgs(size: nat, cursor: Option<string>): Args { Args(None, cursor, None, Some(size)) }

  function Last(pages: seq<Connection>): Connection
    requires pages != []
  {
    pages[|pages| - 1]
  }

  function Init(pages: seq<Connection>): seq<Connection>
    requires pages != []
  {
    pages[..|pages| - 1]
  }

  /** Pages obtained by following endCursor while hasNextPage holds, from any source of
      pages. */
  predicate Walk(next: Option<string> -> Connection, pages: seq<Connection>)
    decreases |pages|
  {
    && pages != []
    && if |pages| == 1 then Last(pages) == next(None)
       else Walk(next, Init(pages)) && Last(Init(pages)).hasNextPage && Last(pages) == next(Last(Init(pages)).endCursor)
  }

  /** The code as a source of pages. */
  function Forwards(a: seq<Node>, size: nat): Option<string> -> Connection {
    cursor => Page(a, ForwardArgs(size, cursor))
  }

  predicate ForwardWalk(a: seq<Node>, size: nat, pages: seq<Connection>) {
    Walk(Forwards(a, size), pages)
  }

  /** Likewise by startCursor and hasPreviousPage. */
  predicate WalkBack(next: Option<string> -> Connection, pages: seq<Connection>)
    decreases |pages|
  {
    && pages != []
    && if |pages| == 1 then Last(pages) == next(None)
       else
         && WalkBack(next, Init(pages)) && Last(Init(pages)).hasPreviousPage
         && Last(pages) == next(Last(Init(pages)).startCursor)
  }

  function Backwards(a: seq<Node>, size: nat): Option<string> -> Connection {
    cursor => Page(a, BackwardArgs(size, cursor))
  }

  predicate BackwardWalk(a: seq<Node>, size: nat, pages: seq<Connection>) { WalkBack(Backwards(a, size), pages) }

  function Joined(pages: seq<Connection>): seq<Node> {
    if pages == [] then [] else Joined(Init(pages)) + Last(pages).nodes
  }

  function JoinedBack(pages: seq<Connection>): seq<Node> {
    if pages == [] then [] else Last(pages).nodes + JoinedBack(Init(pages))
  }

  function Stretch(a: seq<Node>, start: int, end: int): seq<Node>
    requires 0 <= start && end <= |a|
  {
    if start < end then a[start..end] else []
  }

  /** The cursor of the node before position k, and of the node at it. */
  function CursorBefore(a: seq<Node>, k: nat): Option<string>
    requires k <= |a|
  {
    if k == 0 then None else Some(a[k - 1].id)
  }

  function CursorAt(a: seq<Node>, k: nat): Option<string>
    requires k <= |a|
  {
    if k == |a| then None else Some(a[k].id)
  }

  // ---------------------------------------------------------------------------
  // Exactly when the forward walk returns the array

  /** Where the n-th page ends if every page starts where the one before ended. */
  function Offset(size: nat, n: nat): nat { if n == 0 then 0 else Offset(size, n - 1) + size }

  lemma {:induction false} OffsetGrows(size: nat, n: nat)
    requires size > 0
    ensures Offset(size, n) >= n
  {
    if n > 0 { OffsetGrows(size, n - 1); }
  }

  lemma {:induction false} OffsetMonotone(size: nat, m: nat, n: nat)
    requires m <= n
    ensures Offset(size, m) <= Offset(size, n)
  {
    if m < n { OffsetMonotone(size, m, n - 1); }
  }

  /** The cursor of the node before k names it: it is the first with its id, and the id
      is not empty. */
  predicate Found(a: seq<Node>, k: nat)
    requires 0 < k <= |a|
  {
    a[k - 1].id != "" && IndexOf(a, a[k - 1].id) == k - 1
  }

  /** The last node of every page but the last can be found again. */
  ghost predicate EndsFound(a: seq<Node>, size: nat) {
    forall n :: 0 < Offset(size, n) < |a| ==> Found(a, Offset(size, n))
  }

  /** Where the page behind the cursor of the node before k starts. */
  function StartBehind(a: seq<Node>, k: nat): nat
    requires k <= |a|
  {
    if k == 0 || a[k - 1].id == "" then 0 else IndexOf(a, a[k - 1].id) + 1
  }

  lemma {:induction false} BehindOffset(a: seq<Node>, size: nat, k: nat)
    requires k <= |a|
    ensures StartBehind(a, k) <= k && (0 < k ==> (StartBehind(a, k) == k <==> Found(a, k)))
    ensures AfterOffset(a, ForwardArgs(size, CursorBefore(a, k))) + 1 == StartBehind(a, k)
  {}

  /** What a page forwards returns, by where it starts. */
  predicate PageAt(a: seq<Node>, size: nat, page: Connection, start: nat) {
    && start <= |a|
    && page.nodes == Stretch(a, start, Min(start + size, |a|))
    && (page.hasNextPage <==> start + size < |a|)
    && (page.hasNextPage ==> page.endCursor == CursorBefore(a, start + size))
  }

  lemma {:induction false} PageStarts(a: seq<Node>, size: nat, cursor: Option<string>, start: nat)
    requires size > 0 && start == AfterOffset(a, ForwardArgs(size, cursor)) + 1
    ensures PageAt(a, size, Page(a, ForwardArgs(size, cursor)), start)
  {
    SliceInterval(a, start, Max(start, Min(start + size, |a|)));
  }

  lemma {:induction false} PageBehind(a: seq<Node>, size: nat, k: nat)
    requires size > 0 && k <= |a|
    ensures PageAt(a, size, Page(a, ForwardArgs(size, CursorBefore(a, k))), StartBehind(a, k))
  {
    BehindOffset(a, size, k);
    PageStarts(a, size, CursorBefore(a, k), StartBehind(a, k));
  }

  /** Behind the node before k the next page starts at f[k], never after k. */
  predicate GuidesAt(f: seq<nat>, a: seq<Node>, size: nat, next: Option<string> -> Connection, k: nat)
    requires |f| == |a| + 1 && k < |f|
  {
    f[k] <= k && PageAt(a, size, next(CursorBefore(a, k)), f[k])
  }

  ghost predicate Guides(f: seq<nat>, a: seq<Node>, size: nat, next: Option<string> -> Connection) {
    |f| == |a| + 1 && forall k :: 0 <= k < |f| ==> GuidesAt(f, a, size, next, k)
  }

  /** No page is guided beyond its place. */
  predicate NeverAhead(f: seq<nat>) { forall k :: 0 <= k < |f| ==> f[k] <= k }

  lemma {:induction false} GuidesNeverAhead(f: seq<nat>, a: seq<Node>, size: nat, next: Option<string> -> Connection)
    requires Guides(f, a, size, next)
    ensures NeverAhead(f)
  {
    forall k | 0 <= k < |f| ensures f[k] <= k { assert GuidesAt(f, a, size, next, k); }
  }

  /** Where the i-th page of a walk starts, if there is one. */
  function StartOf(f: seq<nat>, size: nat, i: nat): nat {
    if i == 0 then 0
    else
      var k := StartOf(f, size, i - 1) + size;
      if k < |f| then f[k] else 0
  }

  predicate HasPage(f: seq<nat>, size: nat, i: nat) {
    i == 0 || (HasPage(f, size, i - 1) && StartOf(f, size, i - 1) + size < |f| - 1)
  }

  /** Behind every page but the last the next one starts where it ended. */
  ghost predicate AllKept(f: seq<nat>, size: nat) {
    forall n :: 0 < Offset(size, n) < |f| - 1 ==> f[Offset(size, n)] == Offset(size, n)
  }

  lemma {:induction false} FirstPageAt(f: seq<nat>, a: seq<Node>, size: nat, next: Option<string> -> Connection)
    requires Guides(f, a, size, next)
    ensures HasPage(f, size, 0) && PageAt(a, size, next(None), StartOf(f, size, 0))
  {
    assert GuidesAt(f, a, size, next, 0);
  }

  lemma {:induction false} NextPageAt(f: seq<nat>, a: seq<Node>, size: nat, next: Option<string> -> Connection, page: Connection, i: nat)
    requires Guides(f, a, size, next) && HasPage(f, size, i)
    requires PageAt(a, size, page, StartOf(f, size, i)) && page.hasNextPage
    ensures HasPage(f, size, i + 1) && PageAt(a, size, next(page.endCursor), StartOf(f, size, i + 1))
  {
    var k := StartOf(f, size, i) + size;
    assert GuidesAt(f, a, size, next, k);
  }

  lemma {:induction false} WalkPage(f: seq<nat>, a: seq<Node>, size: nat, next: Option<string> -> Connection, pages: seq<Connection>)
    requires Guides(f, a, size, next) && Walk(next, pages)
    ensures HasPage(f, size, |pages| - 1) && PageAt(a, size, Last(pages), StartOf(f, size, |pages| - 1))
    decreases |pages|
  {
    if |pages| == 1 {
      FirstPageAt(f, a, size, next);
    } else {
      var before := Init(pages);
      WalkPage(f, a, size, next, before);
      NextPageAt(f, a, size, next, Last(before), |before| - 1);
    }
  }

  /** A start is never beyond its place, and in it if every page is kept. */
  lemma {:induction false} StartInPlace(f: seq<nat>, size: nat, i: nat)
    requires NeverAhead(f) && size > 0 && HasPage(f, size, i)
    ensures StartOf(f, size, i) <= Offset(size, i)
    ensures AllKept(f, size) ==> StartOf(f, size, i) == Offset(size, i)
  {
    if i > 0 {
      StartInPlace(f, size, i - 1);
      if AllKept(f, size) { assert f[Offset(size, i)] == Offset(size, i); }
    }
  }

  /** A start in its place was kept there by every page before. */
  lemma {:induction false} PlaceIsKept(f: seq<nat>, size: nat, i: nat, n: nat)
    requires NeverAhead(f) && size > 0 && HasPage(f, size, i) && 0 < n <= i
    requires StartOf(f, size, i) == Offset(size, i)
    ensures 0 < Offset(size, n) < |f| - 1 && f[Offset(size, n)] == Offset(size, n)
  {
    StartInPlace(f, size, i - 1);
    if n < i { PlaceIsKept(f, size, i - 1, n); }
  }

  /** If some page is not kept, the last page starts short of its place. */
  lemma {:induction false} ShortOfPlace(f: seq<nat>, size: nat, last: nat)
    requires NeverAhead(f) && size > 0 && HasPage(f, size, last) && !AllKept(f, size)
    requires StartOf(f, size, last) + size >= |f| - 1
    ensures StartOf(f, size, last) < Offset(size, last)
  {
    StartInPlace(f, size, last);
    if StartOf(f, size, last) == Offset(size, last) {
      var n: nat :| 0 < Offset(size, n) < |f| - 1 && f[Offset(size, n)] != Offset(size, n);
      if n <= last { PlaceIsKept(f, size, last, n); } else { OffsetMonotone(size, last + 1, n); }
    }
  }

  /** How much a walk has returned: every page but the last is full. */
  lemma {:induction false} WalkLength(f: seq<nat>, a: seq<Node>, size: nat, next: Option<string> -> Connection, pages: seq<Connection>)
    requires Guides(f, a, size, next) && Walk(next, pages)
    ensures |Joined(Init(pages))| == Offset(size, |pages| - 1)
    decreases |pages|
  {
    if |pages| > 1 {
      WalkLength(f, a, size, next, Init(pages));
      WalkPage(f, a, size, next, Init(pages));
    }
  }

  predicate Placed(a: seq<Node>, size: nat, page: Connection, i: nat) {
    Offset(size, i) <= |a| && page.nodes == Stretch(a, Offset(size, i), Min(Offset(size, i) + size, |a|))
  }

  /** Every page holds the stretch of its place. */
  predicate AllPlaced(a: seq<Node>, size: nat, pages: seq<Connection>)
    decreases |pages|
  {
    pages == [] || (AllPlaced(a, size, Init(pages)) && Placed(a, size, Last(pages), |pages| - 1))
  }

  lemma {:induction false} PlacedNodes(f: seq<nat>, a: seq<Node>, size: nat, page: Connection, i: nat)
    requires |f| == |a| + 1 && NeverAhead(f) && size > 0
    requires HasPage(f, size, i) && AllKept(f, size) && PageAt(a, size, page, StartOf(f, size, i))
    ensures Placed(a, size, page, i)
  {
    StartInPlace(f, size, i);
  }

  lemma {:induction false} WalkPlaced(f: seq<nat>, a: seq<Node>, size: nat, next: Option<string> -> Connection, pages: seq<Connection>)
    requires size > 0 && Guides(f, a, size, next) && Walk(next, pages) && AllKept(f, size)
    ensures AllPlaced(a, size, pages)
    decreases |pages|
  {
    WalkPage(f, a, size, next, pages);
    GuidesNeverAhead(f, a, size, next);
    PlacedNodes(f, a, size, Last(pages), |pages| - 1);
    if |pages| > 1 { WalkPlaced(f, a, size, next, Init(pages)); }
  }

  lemma {:induction false} JoinedInPlace(a: seq<Node>, size: nat, pages: seq<Connection>)
    requires AllPlaced(a, size, pages)
    ensures Joined(pages) == a[..Min(Offset(size, |pages|), |a|)]
    decreases |pages|
  {
    if pages != [] {
      JoinedInPlace(a, size, Init(pages));
      JoinsOn(a, pages, Offset(size, |pages| - 1), Min(Offset(size, |pages|), |a|));
    }
  }

  lemma {:induction false} JoinsOn(a: seq<Node>, pages: seq<Connection>, j: nat, k: nat)
    requires pages != [] && j <= k <= |a| && Last(pages).nodes == Stretch(a, j, k)
    requires Joined(Init(pages)) == a[..j]
    ensures Joined(pages) == a[..k]
  {}

  /** A walk that ended returned the array exactly if every page was kept. */
  lemma {:induction false} EndedWalkIff(f: seq<nat>, a: seq<Node>, size: nat, next: Option<string> -> Connection, pages: seq<Connection>)
    requires size > 0 && Guides(f, a, size, next) && Walk(next, pages) && !Last(pages).hasNextPage
    ensures Joined(pages) == a <==> AllKept(f, size)
  {
    var last := |pages| - 1;
    WalkPage(f, a, size, next, pages);
    GuidesNeverAhead(f, a, size, next);
    if AllKept(f, size) {
      StartInPlace(f, size, last);
      WalkPlaced(f, a, size, next, pages);
      JoinedInPlace(a, size, pages);
    } else {
      ShortOfPlace(f, size, last);
      WalkLength(f, a, size, next, pages);
      assert |Joined(pages)| == |Joined(Init(pages))| + |Last(pages).nodes|;
    }
  }

  lemma {:induction false} KeptWalk(f: seq<nat>, a: seq<Node>, size: nat, next: Option<string> -> Connection, pages: seq<Connection>)
    requires size > 0 && Guides(f, a, size, next) && Walk(next, pages) && AllKept(f, size)
    ensures |pages| <= Max(|a|, 1) && (!Last(pages).hasNextPage ==> Joined(pages) == a)
  {
    WalkPage(f, a, size, next, pages);
    GuidesNeverAhead(f, a, size, next);
    FewPages(f, size, |pages| - 1);
    if !Last(pages).hasNextPage { EndedWalkIff(f, a, size, next, pages); }
  }

  lemma {:induction false} FewPages(f: seq<nat>, size: nat, i: nat)
    requires NeverAhead(f) && size > 0 && HasPage(f, size, i) && AllKept(f, size)
    ensures i == 0 || i + 1 < |f|
  {
    if i > 0 {
      StartInPlace(f, size, i - 1);
      OffsetGrows(size, i);
    }
  }

  lemma {:induction false} WalkOn(next: Option<string> -> Connection, before: seq<Connection>) returns (pages: seq<Connection>)
    requires Walk(next, before) && Last(before).hasNextPage
    ensures |pages| == |before| + 1 && Walk(next, pages) && Last(pages) == next(Last(before).endCursor)
  {
    pages := before + [next(Last(before).endCursor)];
    assert Init(pages) == before;
  }

  /** With every page kept the walk can be made, page by page. */
  lemma {:induction false} WalkExists(f: seq<nat>, a: seq<Node>, size: nat, next: Option<string> -> Connection, n: nat)
    returns (pages: seq<Connection>)
    requires size > 0 && Guides(f, a, size, next) && AllKept(f, size) && 0 < n && (n == 1 || Offset(size, n - 1) < |a|)
    ensures |pages| == n && Walk(next, pages) && PageAt(a, size, Last(pages), Offset(size, n - 1))
  {
    if n == 1 {
      pages := [next(None)];
      FirstPageAt(f, a, size, next);
    } else {
      var k := Offset(size, n - 1);
      var before := WalkExists(f, a, size, next, n - 1);
      OffsetGrows(size, n - 1);
      assert f[k] == k && GuidesAt(f, a, size, next, k);
      pages := WalkOn(next, before);
    }
  }

  lemma {:induction false} PagesNeeded(size: nat, length: nat, tried: nat) returns (n: nat)
    requires size > 0 && 0 < tried && (tried == 1 || Offset(size, tried - 1) < length)
    ensures 0 < n && Offset(size, n) >= length && (n == 1 || Offset(size, n - 1) < length)
    decreases length - Offset(size, tried)
  {
    n := tried;
    if Offset(size, tried) < length { n := PagesNeeded(size, length, tried + 1); }
  }

  /** The guide of the code's own pages. */
  function Guide(a: seq<Node>): (f: seq<nat>)
    ensures |f| == |a| + 1 && forall k :: 0 <= k < |f| ==> f[k] == StartBehind(a, k)
  {
    seq(|a| + 1, k requires 0 <= k <= |a| => StartBehind(a, k))
  }

  lemma {:induction false} GuideGuides(a: seq<Node>, size: nat)
    requires size > 0
    ensures Guides(Guide(a), a, size, Forwards(a, size))
  {
    forall k | 0 <= k < |Guide(a)|
      ensures GuidesAt(Guide(a), a, size, Forwards(a, size), k)
    {
      BehindOffset(a, size, k);
      PageBehind(a, size, k);
    }
  }

  lemma {:induction false} KeptIsFound(a: seq<Node>, size: nat)
    ensures AllKept(Guide(a), size) <==> EndsFound(a, size)
  {
    forall n | 0 < Offset(size, n) < |a|
      ensures Guide(a)[Offset(size, n)] == Offset(size, n) <==> Found(a, Offset(size, n))
    {
      BehindOffset(a, size, Offset(size, n));
    }
  }

  ghost predicate ReturnsArray(a: seq<Node>, size: nat) {
    exists pages :: ForwardWalk(a, size, pages) && !Last(pages).hasNextPage && Joined(pages) == a
  }

  /** For every array and page size: following the cursors ends and returns the array
      exactly if the last node of every page but the last is the first with its id.
      Repeated ids elsewhere do no harm. */
  lemma {:induction false} PagingReturnsArrayIff(a: seq<Node>, size: nat)
    requires size > 0
    ensures ReturnsArray(a, size) <==> EndsFound(a, size)
  {
    GuideGuides(a, size);
    KeptIsFound(a, size);
    if EndsFound(a, size) {
      var n := PagesNeeded(size, |a|, 1);
      var pages := WalkExists(Guide(a), a, size, Forwards(a, size), n);
      EndedWalkIff(Guide(a), a, size, Forwards(a, size), pages);
      assert ForwardWalk(a, size, pages);
    }
    if ReturnsArray(a, size) {
      var pages :| ForwardWalk(a, size, pages) && !Last(pages).hasNextPage && Joined(pages) == a;
      EndedWalkIff(Guide(a), a, size, Forwards(a, size), pages);
    }
  }

  lemma {:induction false} StartLoops(f: seq<nat>, i: nat)
    requires |f| > 2 && f[1] == f[2] == 1 && i > 0
    ensures StartOf(f, 1, i) == 1
  {
    if i > 1 { StartLoops(f, i - 1); }
  }

  /** The simplest failure: with the first id repeated at once, pages of one node go
      round on the second node for ever. */
  lemma {:induction false} RepeatedIdsLoop(a: seq<Node>, pages: seq<Connection>)
    requires |a| > 2 && a[0].id == a[1].id != "" && ForwardWalk(a, 1, pages) && |pages| > 1
    ensures Last(pages).nodes == [a[1]] && Last(pages).hasNextPage && Last(pages).endCursor == Some(a[0].id)
  {
    GuideGuides(a, 1);
    assert IndexOf(a, a[0].id) == 0;
    StartLoops(Guide(a), |pages| - 1);
    WalkPage(Guide(a), a, 1, Forwards(a, 1), pages);
  }

  // ---------------------------------------------------------------------------
  // Distinct ids

  predicate UsableIds(a: seq<Node>) { Distinct(a) && forall i :: 0 <= i < |a| ==> a[i].id != "" }

  lemma {:induction false} IndexIsPosition(a: seq<Node>, k: nat)
    requires UsableIds(a) && k < |a|
    ensures IndexOf(a, a[k].id) == k
  {}

  lemma {:induction false} UsableEndsFound(a: seq<Node>, size: nat)
    requires UsableIds(a)
    ensures EndsFound(a, size)
  {
    forall n | 0 < Offset(size, n) < |a| ensures Found(a, Offset(size, n)) { IndexIsPosition(a, Offset(size, n) - 1); }
  }

  /** Following endCursor while there is a next page takes at most one page per node, and
      a walk that cannot go on has returned the whole array, each node once, in order. */
  lemma {:induction false} ForwardPaging(a: seq<Node>, size: nat, pages: seq<Connection>)
    requires UsableIds(a) && size > 0 && ForwardWalk(a, size, pages)
    ensures |pages| <= Max(|a|, 1)
    ensures !Last(pages).hasNextPage ==> Joined(pages) == a
  {
    GuideGuides(a, size);
    UsableEndsFound(a, size);
    KeptIsFound(a, size);
    KeptWalk(Guide(a), a, size, Forwards(a, size), pages);
  }

  /** What a page backwards returns, by where it ends. */
  predicate PageEnds(a: seq<Node>, size: nat, page: Connection, k: nat)
    requires k <= |a|
  {
    var start := Max(k - size, 0);
    && page.nodes == Stretch(a, start, k) && (page.hasPreviousPage <==> start > 0)
    && (0 < start < k ==> page.startCursor == CursorAt(a, start))
  }

  predicate LeadsBack(a: seq<Node>, size: nat, next: Option<string> -> Connection, k: nat)
    requires k <= |a|
  {
    PageEnds(a, size, next(CursorAt(a, k)), k)
  }

  lemma {:induction false} PageTo(a: seq<Node>, size: nat, k: nat)
    requires UsableIds(a) && size > 0 && k <= |a|
    ensures LeadsBack(a, size, Backwards(a, size), k)
  {
    if k < |a| { IndexIsPosition(a, k); }
  }

  lemma {:induction false} JoinsBack(a: seq<Node>, suffix: seq<Node>, next: seq<Node>, k: nat, j: nat)
    requires k <= j <= |a| && suffix == a[j..] && next == Stretch(a, k, j)
    ensures next + suffix == a[k..]
  {}

  lemma {:induction false} BackOnePage(a: seq<Node>, size: nat, suffix: seq<Node>, page: Connection, j: nat, k: nat)
    requires size > 0 && j <= |a| && PageEnds(a, size, page, j) && suffix == a[j..] && k == Max(j - size, 0)
    ensures page.nodes + suffix == a[k..] && (page.hasPreviousPage <==> k > 0)
    ensures k > 0 ==> page.startCursor == CursorAt(a, k)
  {
    JoinsBack(a, suffix, page.nodes, k, j);
  }

  /** After some pages backwards, what was returned is a suffix of the array, the last
      page's cursor stands at its start, and there is more exactly if the suffix is
      proper. */
  lemma {:induction false} BackwardSuffix(a: seq<Node>, size: nat, next: Option<string> -> Connection, pages: seq<Connection>)
    returns (k: nat)
    requires size > 0 && WalkBack(next, pages) && forall i :: 0 <= i <= |a| ==> LeadsBack(a, size, next, i)
    ensures k <= Max(|a| - |pages|, 0) && JoinedBack(pages) == a[k..] && (Last(pages).hasPreviousPage <==> k > 0)
    ensures k > 0 ==> Last(pages).startCursor == CursorAt(a, k)
    ensures |pages| <= Max(|a|, 1)
    decreases |pages|
  {
    var j := |a|;
    if |pages| > 1 { j := BackwardSuffix(a, size, next, Init(pages)); }
    assert LeadsBack(a, size, next, j);
    k := Max(j - size, 0);
    BackOnePage(a, size, JoinedBack(Init(pages)), Last(pages), j, k);
  }

  /** Likewise backwards. */
  lemma {:induction false} BackwardPaging(a: seq<Node>, size: nat, pages: seq<Connection>)
    requires UsableIds(a) && size > 0 && BackwardWalk(a, size, pages)
    ensures |pages| <= Max(|a|, 1)
    ensures !Last(pages).hasPreviousPage ==> JoinedBack(pages) == a
  {
    forall i | 0 <= i <= |a| ensures LeadsBack(a, size, Backwards(a, size), i) { PageTo(a, size, i); }
    var k := BackwardSuffix(a, size, Backwards(a, size), pages);
  }

  // ---------------------------------------------------------------------------
  // Checking the arguments

  const MAX_CONNECTION_LIMIT: int := 100

  /** A page size as a client may send it: left out, an explicit null, or a number. */
  datatype Size = Missing | Null | Given(n: int)

  function Number(s: Size): Option<int> { if s.Given? then Some(s.n) else None }

  predicate IsHex(c: char) { '0' <= c <= '9' || 'a' <= c <= 'f' || 'A' <= c <= 'F' }

  predicate IsCursor(s: string) { |s| == 24 && forall i :: 0 <= i < |s| ==> IsHex(s[i]) }

  predicate GoodSize(s: Size) { s.Given? ==> 0 < s.n <= MAX_CONNECTION_LIMIT }

  predicate GoodCursor(s: Option<string>) { Truthy(s) ==> IsCursor(s.value) }

  datatype ArgsError = OverLimit | NotPositive | BadCursor

  class RequestArgs {
    var first: Size
    var last: Size
    var after: Option<string>
    var before: Option<string>

    constructor (f: Size, l: Size, a: Option<string>, b: Option<string>)
      ensures first == f && last == l && after == a && before == b
    {
      first, last, after, before := f, l, a, b;
    }

    /** checkedConnectionArgs. What passes has sizes between 1 and the limit and cursors
        that can be ids. It is bounded, except for a client that sent null instead of
        leaving a size out. */
    method Check() returns (r: Result<Args, ArgsError>)
      modifies this`first
      ensures r.Ok? <==> GoodSize(old(first)) && GoodSize(last) && GoodCursor(after) && GoodCursor(before)
      ensures r.Ok? ==>
                && r.value == Args(after, before, Number(first), Number(last))
                && GoodSize(first)
                && (r.value.first == None && r.value.last == None <==>
                      !old(first).Given? && !last.Given? && (old(first).Null? || last.Null?))
      ensures first == old(first) || (old(first).Missing? && last.Missing? && first == Given(MAX_CONNECTION_LIMIT))
    {
      if first.Given? && first.n > MAX_CONNECTION_LIMIT { return Err(OverLimit); }
      if last.Given? && last.n > MAX_CONNECTION_LIMIT { return Err(OverLimit); }
      if first.Given? && first.n <= 0 { return Err(NotPositive); }
      if last.Given? && last.n <= 0 { return Err(NotPositive); }
      if first.Missing? && last.Missing? { first := Given(MAX_CONNECTION_LIMIT); }
      if Truthy(after) && !IsCursor(after.value) { return Err(BadCursor); }
      if Truthy(before) && !IsCursor(before.value) { return Err(BadCursor); }
      r := Ok(Args(after, before, Number(first), Number(last)));
    }
  }
}
