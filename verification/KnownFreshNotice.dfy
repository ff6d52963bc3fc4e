/** Recognising the one known dialog in an accessibility tree that may be any graph at all. */
module KnownFreshNotice {
  import opened Wrappers

  datatype Node = Node(
    nodeId: string, ignored: bool, role: Option<string>, name: Option<string>, disabled: bool,
    backendDOMNodeId: Option<int>, childIds: seq<string>)

  datatype BlockingNotice = Absent | Unknown | Known(dialogId: int, closeButtonId: int)

  type Graph = map<string, Node>

  // ---------------------------------------------------------------- reachability

  function Children(g: Graph, id: string): seq<string> {
    if id in g then g[id].childIds else []
  }

  predicate IsPath(g: Graph, path: seq<string>) {
    path != [] && forall i | 0 <= i < |path| - 1 :: path[i + 1] in Children(g, path[i])
  }

  ghost predicate Reachable(g: Graph, root: string, id: string) {
    exists path :: IsPath(g, path) && path[0] == root && path[|path| - 1] == id
  }

  lemma RootReachable(g: Graph, root: string)
    ensures Reachable(g, root, root)
  {
    assert IsPath(g, [root]);
  }

  lemma ChildReachable(g: Graph, root: string, id: string, child: string)
    requires Reachable(g, root, id) && child in Children(g, id)
    ensures Reachable(g, root, child)
  {
    var path :| IsPath(g, path) && path[0] == root && path[|path| - 1] == id;
    assert IsPath(g, path + [child]);
  }

  predicate Closed(g: Graph, ids: seq<string>) {
    forall i | 0 <= i < |ids| :: forall child | child in Children(g, ids[i]) :: child in ids
  }

  /** A set that holds the root and all children of its members holds everything reachable. */
  lemma {:induction false} ClosedHoldsPath(g: Graph, ids: seq<string>, path: seq<string>)
    requires Closed(g, ids) && IsPath(g, path) && path[0] in ids
    ensures path[|path| - 1] in ids
    decreases |path|
  {
    if |path| > 1 {
      var init := path[..|path| - 1];
      ClosedHoldsPath(g, ids, init);
      assert path[|path| - 1] in Children(g, init[|init| - 1]);
    }
  }

  /**
   What is reachable is a tree: every id is a node, the root is nobody's child, and every other node
   is the child of one parent, once.
   */
  ghost predicate IsTree(g: Graph, root: string) {
    && (forall id | Reachable(g, root, id) :: id in g && root !in Children(g, id) && NoRepeats(Children(g, id)))
    && (forall a, b | Reachable(g, root, a) && Reachable(g, root, b) && a != b ::
      Disjoint(Children(g, a), Children(g, b)))
  }

  predicate NoRepeats(s: seq<string>) {
    forall i, j | 0 <= i < j < |s| :: s[i] != s[j]
  }

  predicate Disjoint(a: seq<string>, b: seq<string>) {
    forall x | x in a :: x !in b
  }

  // ---------------------------------------------------------------- conservation of the worklist

  /** All child occurrences of the nodes listed. */
  function Occurrences(g: Graph, ids: seq<string>): multiset<string> {
    if ids == [] then multiset{}
    else Occurrences(g, ids[..|ids| - 1]) + multiset(Children(g, ids[|ids| - 1]))
  }

  predicate IsChildIn(g: Graph, ids: seq<string>, id: string) {
    exists i :: 0 <= i < |ids| && id in Children(g, ids[i])
  }

  lemma ChildSnoc(g: Graph, init: seq<string>, last: string, id: string)
    ensures IsChildIn(g, init + [last], id) <==> IsChildIn(g, init, id) || id in Children(g, last)
  {
    var ids := init + [last];
    if IsChildIn(g, init, id) {
      var i :| 0 <= i < |init| && id in Children(g, init[i]);
      assert ids[i] == init[i];
    }
    if id in Children(g, last) { assert ids[|init|] == last; }
  }

  lemma {:induction false} OccursFromMember(g: Graph, ids: seq<string>, id: string)
    ensures Occurrences(g, ids)[id] > 0 <==> IsChildIn(g, ids, id)
  {
    if ids != [] {
      var init, last := ids[..|ids| - 1], ids[|ids| - 1];
      OccursFromMember(g, init, id);
      ChildSnoc(g, init, last, id);
      assert ids == init + [last];
      assert id in multiset(Children(g, last)) <==> id in Children(g, last);
    }
  }

  lemma {:induction false} CountOnce(s: seq<string>, id: string)
    requires NoRepeats(s)
    ensures multiset(s)[id] <= 1
  {
    if s != [] {
      var init := s[..|s| - 1];
      assert s == init + [s[|s| - 1]];
      CountOnce(init, id);
      if id == s[|s| - 1] { assert id !in init; }
    }
  }

  /** In a tree no id occurs as a child twice, and the root never. */
  lemma {:induction false} TreeCountsOnce(g: Graph, root: string, ids: seq<string>, id: string)
    requires IsTree(g, root) && NoRepeats(ids) && forall i | 0 <= i < |ids| :: Reachable(g, root, ids[i])
    ensures Occurrences(g, ids)[id] <= 1 && Occurrences(g, ids)[root] == 0
  {
    if ids != [] {
      var init, last := ids[..|ids| - 1], ids[|ids| - 1];
      TreeCountsOnce(g, root, init, id);
      CountOnce(Children(g, last), id);
      OccursFromMember(g, init, id);
      forall i | 0 <= i < |init| ensures Disjoint(Children(g, init[i]), Children(g, last)) {
        assert ids[i] == init[i] != last;
      }
    }
  }

  /** Every processed or pending occurrence is accounted for by the root or by a processed parent. */
  ghost predicate Conserved(g: Graph, root: string, subtree: seq<string>, pending: seq<string>) {
    multiset(subtree) + multiset(pending) == multiset{root} + Occurrences(g, subtree)
  }

  ghost predicate Walking(g: Graph, root: string, subtree: seq<string>, pending: seq<string>) {
    && NoRepeats(subtree) && Conserved(g, root, subtree, pending)
    && (forall i | 0 <= i < |subtree| :: subtree[i] in g && Reachable(g, root, subtree[i]))
    && (forall i | 0 <= i < |pending| :: Reachable(g, root, pending[i]))
  }

  lemma ConservedStep(g: Graph, root: string, subtree: seq<string>, rest: seq<string>, id: string)
    requires Conserved(g, root, subtree, rest + [id]) && id in g
    ensures Conserved(g, root, subtree + [id], rest + g[id].childIds)
  {
    var s, r, c := multiset(subtree), multiset(rest), multiset(g[id].childIds);
    assert (subtree + [id])[..|subtree + [id]| - 1] == subtree;
    calc {
      multiset(subtree + [id]) + multiset(rest + g[id].childIds);
      (s + multiset{id}) + (r + c);
      (s + (r + multiset{id})) + c;
      { assert multiset(rest + [id]) == r + multiset{id}; }
      multiset{root} + Occurrences(g, subtree) + c;
      multiset{root} + Occurrences(g, subtree + [id]);
    }
  }

  lemma WalkStep(g: Graph, root: string, subtree: seq<string>, pending: seq<string>)
    requires Walking(g, root, subtree, pending) && pending != []
    requires pending[|pending| - 1] !in subtree && pending[|pending| - 1] in g
    ensures var id := pending[|pending| - 1];
      Walking(g, root, subtree + [id], pending[..|pending| - 1] + g[id].childIds)
  {
    var id, rest := pending[|pending| - 1], pending[..|pending| - 1];
    var next, processed := rest + g[id].childIds, subtree + [id];
    assert pending == rest + [id];
    ConservedStep(g, root, subtree, rest, id);
    forall i | 0 <= i < |next| ensures Reachable(g, root, next[i]) {
      if i < |rest| { assert next[i] == pending[i]; } else { ChildReachable(g, root, id, next[i]); }
    }
    forall i | 0 <= i < |processed| ensures processed[i] in g && Reachable(g, root, processed[i]) {
      if i < |subtree| {
        assert processed[i] == subtree[i];
      } else {
        assert Reachable(g, root, pending[|pending| - 1]);
      }
    }
  }

  /** An id that comes up again occurs twice: this is no tree. */
  lemma SeenAgainIsNoTree(g: Graph, root: string, subtree: seq<string>, pending: seq<string>)
    requires Walking(g, root, subtree, pending) && pending != [] && pending[|pending| - 1] in subtree
    ensures !IsTree(g, root)
  {
    hide IsTree;
    CountedTwice(g, root, subtree, pending);
    if IsTree(g, root) { TreeCountsOnce(g, root, subtree, pending[|pending| - 1]); }
  }

  lemma CountedTwice(g: Graph, root: string, subtree: seq<string>, pending: seq<string>)
    requires Conserved(g, root, subtree, pending) && pending != [] && pending[|pending| - 1] in subtree
    ensures var id := pending[|pending| - 1];
      Occurrences(g, subtree)[id] + (if id == root then 1 else 0) >= 2
  {
    var id := pending[|pending| - 1];
    assert id in multiset(subtree) && id in multiset(pending);
    assert (multiset(subtree) + multiset(pending))[id] == multiset(subtree)[id] + multiset(pending)[id];
  }

  lemma NothingPending(g: Graph, root: string, subtree: seq<string>)
    requires Conserved(g, root, subtree, [])
    ensures multiset(subtree) == multiset{root} + Occurrences(g, subtree)
  {
    var none: seq<string> := [];
    assert multiset(none) == multiset{};
  }

  lemma MissingIsNoTree(g: Graph, root: string, id: string)
    requires Reachable(g, root, id) && id !in g
    ensures !IsTree(g, root)
  {
  }

  /** With nothing pending, the processed nodes are everything reachable. */
  lemma FinishedIsReachable(g: Graph, root: string, subtree: seq<string>)
    requires Walking(g, root, subtree, [])
    ensures forall id :: id in subtree <==> Reachable(g, root, id)
    ensures IsTree(g, root)
  {
    NothingPending(g, root, subtree);
    assert root in multiset(subtree);
    forall i, child | 0 <= i < |subtree| && child in Children(g, subtree[i]) ensures child in subtree {
      OccursFromMember(g, subtree, child);
      assert child in multiset(subtree);
    }
    forall id | Reachable(g, root, id) ensures id in subtree {
      var path :| IsPath(g, path) && path[0] == root && path[|path| - 1] == id;
      ClosedHoldsPath(g, subtree, path);
    }
    FinishedIsTree(g, root, subtree);
  }

  lemma FinishedIsTree(g: Graph, root: string, subtree: seq<string>)
    requires Walking(g, root, subtree, []) && forall id :: id in subtree <==> Reachable(g, root, id)
    ensures IsTree(g, root)
  {
    NothingPending(g, root, subtree);
    forall id ensures Occurrences(g, subtree)[id] + multiset{root}[id] <= 1 { CountOnce(subtree, id); }
    forall i | 0 <= i < |subtree| ensures root !in Children(g, subtree[i]) && NoRepeats(Children(g, subtree[i])) {
      OccursFromMember(g, subtree, root);
      OneParent(g, subtree, i);
    }
    forall a, b | Reachable(g, root, a) && Reachable(g, root, b) && a != b
      ensures Disjoint(Children(g, a), Children(g, b))
    {
      var i :| 0 <= i < |subtree| && subtree[i] == a;
      var j :| 0 <= j < |subtree| && subtree[j] == b;
      if i < j { TwoParents(g, subtree, i, j); } else { TwoParents(g, subtree, j, i); }
    }
  }

  lemma RepeatCountsTwice(s: seq<string>, a: nat, b: nat)
    requires a < b < |s| && s[a] == s[b]
    ensures multiset(s)[s[a]] >= 2
  {
    assert s == s[..b] + [s[b]] + s[b + 1..];
    assert s[a] in s[..b] && s[a] in multiset(s[..b]);
  }

  lemma CountedOnceNoRepeats(s: seq<string>)
    requires forall id :: multiset(s)[id] <= 1
    ensures NoRepeats(s)
  {
    forall a, b | 0 <= a < b < |s| ensures s[a] != s[b] {
      if s[a] == s[b] { RepeatCountsTwice(s, a, b); }
    }
  }

  lemma {:induction false} OneParent(g: Graph, ids: seq<string>, i: nat)
    requires i < |ids| && forall id :: Occurrences(g, ids)[id] <= 1
    ensures NoRepeats(Children(g, ids[i]))
  {
    var init, last := ids[..|ids| - 1], Children(g, ids[|ids| - 1]);
    forall id ensures Occurrences(g, init)[id] <= 1 && multiset(last)[id] <= 1 {
      assert Occurrences(g, ids)[id] <= 1;
    }
    if i < |init| { OneParent(g, init, i); } else { CountedOnceNoRepeats(last); }
  }

  lemma {:induction false} TwoParents(g: Graph, ids: seq<string>, i: nat, j: nat)
    requires i < j < |ids| && forall id :: Occurrences(g, ids)[id] <= 1
    ensures Disjoint(Children(g, ids[i]), Children(g, ids[j])) && Disjoint(Children(g, ids[j]), Children(g, ids[i]))
  {
    var init := ids[..|ids| - 1];
    if j < |init| {
      forall id ensures Occurrences(g, init)[id] <= 1 { assert Occurrences(g, ids)[id] <= 1; }
      TwoParents(g, init, i, j);
    } else {
      forall x | x in Children(g, ids[i]) ensures x !in Children(g, ids[j]) {
        OccursFromMember(g, init, x);
        assert init[i] == ids[i];
        assert Occurrences(g, ids)[x] <= 1;
      }
    }
  }

  /**
   The worklist ends on every graph, cyclic ones included. It completes exactly if what is reachable
   from the root is a tree; then it lists exactly the reachable nodes, each once.
   */
  method Walk(g: Graph, root: string) returns (subtree: Option<seq<string>>)
    ensures subtree.Some? <==> IsTree(g, root)
    ensures subtree.Some? ==> NoRepeats(subtree.value) && forall id :: id in subtree.value <==> Reachable(g, root, id)
    ensures subtree.Some? ==> forall i | 0 <= i < |subtree.value| :: subtree.value[i] in g
  {
    var seen: set<string>, processed, pending := {}, [], [root];
    RootReachable(g, root);
    while |pending| > 0
      invariant Walking(g, root, processed, pending)
      invariant forall id :: id in seen <==> id in processed
      invariant seen <= g.Keys
      decreases |g.Keys - seen|
    {
      var id := pending[|pending| - 1];
      if id in seen {
        SeenAgainIsNoTree(g, root, processed, pending);
        return None;
      }
      if id !in g {
        MissingIsNoTree(g, root, id);
        return None;
      }
      WalkStep(g, root, processed, pending);
      assert g.Keys - (seen + {id}) == (g.Keys - seen) - {id};
      seen := seen + {id};
      processed := processed + [id];
      pending := pending[..|pending| - 1] + g[id].childIds;
    }
    FinishedIsReachable(g, root, processed);
    return Some(processed);
  }

  // ---------------------------------------------------------------- the notice

  const MAX_SAFE_INTEGER := 9_007_199_254_740_991

  predicate IsDialog(n: Node) {
    !n.ignored && (n.role == Some("dialog") || n.role == Some("alertdialog"))
  }

  predicate IsHeading(n: Node) {
    !n.ignored && n.role == Some("heading")
  }

  predicate IsButton(n: Node) {
    !n.ignored && n.role == Some("button")
  }

  predicate IsClose(n: Node) {
    IsButton(n) && n.name == Some("Fechar")
  }

  predicate IsUpgrade(n: Node) {
    IsButton(n) && n.name == Some("Fazer upgrade agora")
  }

  predicate IsSafeId(id: Option<int>) {
    id.Some? && 0 < id.value <= MAX_SAFE_INTEGER
  }

  /** Later nodes replace earlier ones of the same id. */
  function GraphOf(nodes: seq<Node>): Graph {
    if nodes == [] then map[]
    else GraphOf(nodes[..|nodes| - 1])[nodes[|nodes| - 1].nodeId := nodes[|nodes| - 1]]
  }

  predicate DistinctIds(nodes: seq<Node>) {
    forall i, j | 0 <= i < j < |nodes| :: nodes[i].nodeId != nodes[j].nodeId
  }

  lemma {:induction false} GraphIds(nodes: seq<Node>, id: string)
    ensures id in GraphOf(nodes) <==> exists i :: 0 <= i < |nodes| && nodes[i].nodeId == id
  {
    if nodes != [] {
      var init := nodes[..|nodes| - 1];
      GraphIds(init, id);
      if id in GraphOf(init) {
        var i :| 0 <= i < |init| && init[i].nodeId == id;
        assert nodes[i].nodeId == id;
      }
      if exists i :: 0 <= i < |nodes| && nodes[i].nodeId == id {
        var i :| 0 <= i < |nodes| && nodes[i].nodeId == id;
        if i < |init| { assert init[i].nodeId == id; }
      }
    }
  }

  /** The index is as large as the list exactly if no id is repeated. */
  lemma {:induction false} GraphSize(nodes: seq<Node>)
    ensures |GraphOf(nodes)| <= |nodes|
    ensures |GraphOf(nodes)| == |nodes| <==> DistinctIds(nodes)
  {
    if nodes != [] {
      var init, last := nodes[..|nodes| - 1], nodes[|nodes| - 1];
      GraphSize(init);
      GraphIds(init, last.nodeId);
      SizeAfterUpdate(GraphOf(init), last);
      DistinctSnoc(init, last);
      assert nodes == init + [last];
    }
  }

  lemma SizeAfterUpdate(g: Graph, node: Node)
    ensures |g[node.nodeId := node]| == |g| + if node.nodeId in g then 0 else 1
  {
    assert g[node.nodeId := node].Keys == g.Keys + {node.nodeId};
  }

  lemma DistinctSnoc(init: seq<Node>, last: Node)
    ensures DistinctIds(init + [last])
       <==> DistinctIds(init) && !exists i :: 0 <= i < |init| && init[i].nodeId == last.nodeId
  {
    var nodes := init + [last];
    if DistinctIds(nodes) {
      assert forall i | 0 <= i < |init| :: nodes[i] == init[i] && nodes[|init|] == last;
    }
  }

  /** The ids listed whose nodes satisfy `p`. */
  function Select(g: Graph, ids: seq<string>, p: Node -> bool): seq<string>
    requires forall i | 0 <= i < |ids| :: ids[i] in g
  {
    if ids == [] then []
    else
      var last := ids[|ids| - 1];
      Select(g, ids[..|ids| - 1], p) + if p(g[last]) then [last] else []
  }

  lemma {:induction false} SelectSelects(g: Graph, ids: seq<string>, p: Node -> bool)
    requires NoRepeats(ids) && forall i | 0 <= i < |ids| :: ids[i] in g
    ensures NoRepeats(Select(g, ids, p))
    ensures forall id :: id in Select(g, ids, p) <==> id in ids && p(g[id])
  {
    if ids != [] {
      var init, last := ids[..|ids| - 1], ids[|ids| - 1];
      assert ids == init + [last];
      SelectSelects(g, init, p);
    }
  }

  lemma {:induction false} SizeOfListing(s: seq<string>, ids: set<string>)
    requires NoRepeats(s) && forall id :: id in s <==> id in ids
    ensures |s| == |ids|
  {
    if s == [] {
      assert ids == {};
    } else {
      var init, last := s[..|s| - 1], s[|s| - 1];
      assert s == init + [last];
      assert last !in init;
      SizeOfListing(init, ids - {last});
    }
  }

  /** The nodes of the dialog's tree that satisfy `p`. */
  ghost function Descendants(g: Graph, root: string, p: Node -> bool): set<string> {
    set id | id in g && Reachable(g, root, id) && p(g[id])
  }

  lemma SelectIsDescendants(g: Graph, root: string, subtree: seq<string>, p: Node -> bool)
    requires NoRepeats(subtree) && forall i | 0 <= i < |subtree| :: subtree[i] in g
    requires forall id :: id in subtree <==> Reachable(g, root, id)
    ensures forall id :: id in Select(g, subtree, p) <==> id in Descendants(g, root, p)
    ensures |Select(g, subtree, p)| == |Descendants(g, root, p)|
  {
    SelectSelects(g, subtree, p);
    SizeOfListing(Select(g, subtree, p), Descendants(g, root, p));
  }

  /** One heading with the known title, two buttons, one of them the enabled close button. */
  ghost predicate ShowsKnownNotice(g: Graph, dialog: Node, notice: BlockingNotice) {
    var headings, buttons := Descendants(g, dialog.nodeId, IsHeading), Descendants(g, dialog.nodeId, IsButton);
    var close := Descendants(g, dialog.nodeId, IsClose);
    && notice.Known?
    && |headings| == 1 && (forall id | id in headings :: g[id].name == Some("Conheça o novo ChatGPT"))
    && |buttons| == 2 && |Descendants(g, dialog.nodeId, IsUpgrade)| == 1
    && |close| == 1
    && (forall id | id in close :: !g[id].disabled && IsSafeId(g[id].backendDOMNodeId)
                                   && notice.closeButtonId == g[id].backendDOMNodeId.value)
    && IsSafeId(dialog.backendDOMNodeId) && notice.dialogId == dialog.backendDOMNodeId.value
  }

  predicate OnlyDialog(nodes: seq<Node>, d: nat) {
    d < |nodes| && IsDialog(nodes[d]) && forall i | 0 <= i < |nodes| && i != d :: !IsDialog(nodes[i])
  }

  /** The one visible dialog of the page heads a tree that shows the known notice. */
  ghost predicate IsKnown(nodes: seq<Node>, d: nat, notice: BlockingNotice) {
    && OnlyDialog(nodes, d) && nodes[d].role == Some("dialog") && DistinctIds(nodes)
    && IsTree(GraphOf(nodes), nodes[d].nodeId)
    && ShowsKnownNotice(GraphOf(nodes), nodes[d], notice)
  }

  method DecideNotice(g: Graph, dialog: Node, subtree: seq<string>) returns (notice: BlockingNotice)
    requires NoRepeats(subtree) && forall i | 0 <= i < |subtree| :: subtree[i] in g
    requires forall id :: id in subtree <==> Reachable(g, dialog.nodeId, id)
    ensures !notice.Absent?
    ensures notice.Known? ==> ShowsKnownNotice(g, dialog, notice)
    ensures notice.Unknown? ==> forall other :: !ShowsKnownNotice(g, dialog, other)
  {
    hide Descendants, Select, Reachable;
    var headings, buttons := Select(g, subtree, IsHeading), Select(g, subtree, IsButton);
    var close, upgrade := Select(g, subtree, IsClose), Select(g, subtree, IsUpgrade);
    SelectIsDescendants(g, dialog.nodeId, subtree, IsHeading);
    SelectIsDescendants(g, dialog.nodeId, subtree, IsButton);
    SelectIsDescendants(g, dialog.nodeId, subtree, IsClose);
    SelectIsDescendants(g, dialog.nodeId, subtree, IsUpgrade);
    if |headings| != 1 || |buttons| != 2 || |close| != 1 || |upgrade| != 1 { return Unknown; }
    assert headings[0] in headings && close[0] in close;
    DescendantsAreNodes(g, dialog.nodeId, IsHeading);
    DescendantsAreNodes(g, dialog.nodeId, IsClose);
    var button := g[close[0]];
    if g[headings[0]].name != Some("Conheça o novo ChatGPT") || button.disabled
       || !IsSafeId(dialog.backendDOMNodeId) || !IsSafeId(button.backendDOMNodeId) {
      return Unknown;
    }
    return Known(dialog.backendDOMNodeId.value, button.backendDOMNodeId.value);
  }

  lemma DescendantsAreNodes(g: Graph, root: string, p: Node -> bool)
    ensures forall id | id in Descendants(g, root, p) :: id in g
  {
  }

  /** The first visible dialog, and whether it is the only one. */
  method FindDialog(nodes: seq<Node>) returns (d: nat, only: bool)
    ensures d <= |nodes|
    ensures d == |nodes| <==> forall i | 0 <= i < |nodes| :: !IsDialog(nodes[i])
    ensures d < |nodes| ==> IsDialog(nodes[d]) && (only <==> OnlyDialog(nodes, d))
    ensures d < |nodes| && !only ==> forall e: nat :: !OnlyDialog(nodes, e)
  {
    d, only := |nodes|, true;
    for i := 0 to |nodes|
      invariant d == |nodes| || d < i
      invariant d == |nodes| ==> only && forall k | 0 <= k < i :: !IsDialog(nodes[k])
      invariant d < i ==> IsDialog(nodes[d]) && (only <==> forall k | 0 <= k < i && k != d :: !IsDialog(nodes[k]))
    {
      if IsDialog(nodes[i]) {
        if d == |nodes| { d := i; } else { only := false; }
      }
    }
  }

  lemma NoOtherDialog(nodes: seq<Node>, d: nat)
    requires OnlyDialog(nodes, d)
    ensures forall e: nat :: OnlyDialog(nodes, e) ==> e == d
  {
  }

  /**
   No visible dialog: ABSENT. Exactly the known notice: its two ids. Anything else, cyclic or
   incomplete trees and repeated ids included: UNKNOWN.
   */
  method ObserveBlockingNotice(nodes: seq<Node>) returns (notice: BlockingNotice)
    ensures notice.Absent? <==> forall i | 0 <= i < |nodes| :: !IsDialog(nodes[i])
    ensures notice.Known? ==> exists d: nat :: IsKnown(nodes, d, notice)
    ensures notice.Unknown? ==> forall d: nat, other :: !IsKnown(nodes, d, other)
  {
    hide IsTree, ShowsKnownNotice, DistinctIds, IsDialog, GraphOf;
    var d, only := FindDialog(nodes);
    if d < |nodes| && only { NoOtherDialog(nodes, d); }
    if d == |nodes| { return Absent; }
    if !only || nodes[d].role != Some("dialog") { return Unknown; }
    GraphSize(nodes);
    var g := GraphOf(nodes);
    if |g| != |nodes| { return Unknown; }
    var subtree := Walk(g, nodes[d].nodeId);
    if subtree.None? { return Unknown; }
    notice := DecideNotice(g, nodes[d], subtree.value);
    if notice.Known? { assert IsKnown(nodes, d, notice); }
  }
}
