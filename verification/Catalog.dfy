/** Importing a catalog document: a recursion over the DOM that pushes and pops a stack of builders
    and links the ids of children into the builders of their parents.

    A node's parent, for the importer, is the builder on top of the stack: the nearest enclosing
    element that pushed one.  Elements that push nothing are transparent.
 */
module Catalog {

  import opened Wrappers

  datatype Tag =
    | CatalogTag
    | HeaderTag
    | CategoryTag
    | ImageSettingsTag
    | InternalLocationTag
    | ViewTypesTag
    | ViewTypeTag
    | VariationAttributeIdTag
    | AltPatternTag
    | TitlePatternTag
    | ParentTag
    | DisplayNameTag
    | OtherTag          // an unknown element, or a node that is not an element

  datatype Node = Node(tag: Tag, children: seq<Node>)

  datatype Kind = CatalogB | HeaderB | CategoryB | ImageSettingsB | InternalLocationB | ViewTypesB | RelationshipB

  datatype Links = Links(
    header: Option<nat>,
    category: Option<nat>,
    imageSettings: Option<nat>,
    internalLocation: Option<nat>)

  const NO_LINKS := Links(None, None, None, None)

  /** A builder; id 0 means that no row was inserted for it. */
  datatype Builder = Builder(kind: Kind, id: nat, links: Links)

  /** All builders made so far, the parse stack (positions in `builders`, the top last), and the
      number of rows inserted, which is also the last row id. */
  datatype Store = Store(builders: seq<Builder>, stack: seq<nat>, rows: nat)

  datatype Outcome =
    | Done(st: Store, completed: Option<nat>)
    | Crash     // the parent is missing or its builder is of another class

  // ---------------------------------------------------------------------------
  // What each element does
  // ---------------------------------------------------------------------------

  /** The builder an element pushes. */
  function Pushes(tag: Tag): Option<Kind> {
    match tag
    case CatalogTag => Some(CatalogB)
    case HeaderTag => Some(HeaderB)
    case CategoryTag => Some(CategoryB)
    case ImageSettingsTag => Some(ImageSettingsB)
    case InternalLocationTag => Some(InternalLocationB)
    case ViewTypesTag => Some(ViewTypesB)
    case ViewTypeTag => Some(RelationshipB)
    case VariationAttributeIdTag => Some(RelationshipB)
    case AltPatternTag => Some(RelationshipB)
    case TitlePatternTag => Some(RelationshipB)
    case ParentTag => Some(RelationshipB)
    case DisplayNameTag => None
    case OtherTag => None
  }

  /** The builder an element needs on top of the stack. */
  function Needs(tag: Tag): Option<Kind> {
    match tag
    case HeaderTag => Some(CatalogB)
    case CategoryTag => Some(CatalogB)
    case ImageSettingsTag => Some(HeaderB)
    case InternalLocationTag => Some(ImageSettingsB)
    case _ => None
  }

  /** The rows an element inserts: one for its builder, and for a category another for its relationship. */
  function RowsOf(tag: Tag): nat {
    match tag
    case CatalogTag => 1
    case HeaderTag => 1
    case CategoryTag => 2
    case ImageSettingsTag => 1
    case InternalLocationTag => 1
    case ViewTypesTag => 1
    case _ => 0
  }

  function TopKind(st: Store): Option<Kind> {
    if st.stack == [] || st.stack[|st.stack| - 1] >= |st.builders| then None
    else Some(st.builders[st.stack[|st.stack| - 1]].kind)
  }

  /** new_parser_object: make a builder, push it when there is a stack, and give it a new row's id. */
  function NewObject(st: Store, kind: Kind, push: bool): Store {
    Store(st.builders + [Builder(kind, st.rows + 1, NO_LINKS)],
          if push then st.stack + [|st.builders|] else st.stack, st.rows + 1)
  }

  /** A builder that is pushed without a row. */
  function NewPlain(st: Store, kind: Kind): Store {
    Store(st.builders + [Builder(kind, 0, NO_LINKS)], st.stack + [|st.builders|], st.rows)
  }

  function SetLinks(st: Store, b: nat, links: Links): Store
    requires b < |st.builders|
  {
    st.(builders := st.builders[b := st.builders[b].(links := links)])
  }

  /** The switch at the head of from_xml. */
  function Enter(st: Store, tag: Tag): Option<Store> {
    if Needs(tag).Some? && TopKind(st) != Needs(tag) then None
    else if Needs(tag).Some? then
      var top := st.stack[|st.stack| - 1];
      var links := st.builders[top].links;
      match tag
      case HeaderTag => Some(SetLinks(NewObject(st, HeaderB, true), top, links.(header := Some(st.rows + 1))))
      case CategoryTag =>
        Some(SetLinks(NewObject(NewObject(st, CategoryB, true), RelationshipB, false), top,
                      links.(category := Some(st.rows + 2))))
      case ImageSettingsTag =>
        Some(SetLinks(NewObject(st, ImageSettingsB, true), top, links.(imageSettings := Some(st.rows + 1))))
      case InternalLocationTag =>
        Some(SetLinks(NewObject(st, InternalLocationB, true), top, links.(internalLocation := Some(st.rows + 1))))
    else if Pushes(tag).None? then Some(st)
    else if RowsOf(tag) > 0 then Some(NewObject(st, Pushes(tag).value, true))
    else Some(NewPlain(st, Pushes(tag).value))
  }

  /** The end of from_xml: pop what this node pushed. */
  function Leave(tag: Tag, o: Outcome): Outcome {
    if o == Crash then Crash
    else if Pushes(tag).None? then Done(o.st, None)
    else if o.st.stack == [] then Crash
    else
      var n := |o.st.stack| - 1;
      Done(o.st.(stack := o.st.stack[..n]), Some(o.st.stack[n]))
  }

  /** from_xml: enter the node, import its children in order, and pop what was pushed. */
  function Import(st: Store, node: Node): Outcome
    decreases node, 2
  {
    match Enter(st, node.tag)
    case None => Crash
    case Some(st1) => Leave(node.tag, ImportAll(st1, node.children))
  }

  function ImportAll(st: Store, nodes: seq<Node>): Outcome
    decreases nodes, 0
  {
    if nodes == [] then Done(st, None)
    else
      match ImportAll(st, nodes[..|nodes| - 1])
      case Crash => Crash
      case Done(st1, _) =>
        match Import(st1, nodes[|nodes| - 1])
        case Crash => Crash
        case Done(st2, _) => Done(st2, None)
  }

  // ---------------------------------------------------------------------------
  // What the result should be, from the document alone
  // ---------------------------------------------------------------------------

  /** Every element that needs a parent of some kind has it as its nearest enclosing element that pushes. */
  predicate Legal(node: Node, top: Option<Kind>)
    decreases node, 1
  {
    && (Needs(node.tag).Some? ==> top == Needs(node.tag))
    && LegalAll(node.children, if Pushes(node.tag).Some? then Pushes(node.tag) else top)
  }

  predicate LegalAll(nodes: seq<Node>, top: Option<Kind>)
    decreases nodes, 0
  {
    nodes == [] || (LegalAll(nodes[..|nodes| - 1], top) && Legal(nodes[|nodes| - 1], top))
  }

  function Rows(node: Node): nat
    decreases node, 1
  {
    RowsOf(node.tag) + RowsAll(node.children)
  }

  function RowsAll(nodes: seq<Node>): nat
    decreases nodes, 0
  {
    if nodes == [] then 0 else RowsAll(nodes[..|nodes| - 1]) + Rows(nodes[|nodes| - 1])
  }

  function Over(a: Links, b: Links): Links {
    Links(if b.header.Some? then b.header else a.header,
          if b.category.Some? then b.category else a.category,
          if b.imageSettings.Some? then b.imageSettings else a.imageSettings,
          if b.internalLocation.Some? then b.internalLocation else a.internalLocation)
  }

  /** The link an element leaves in its parent's builder when `base` rows were inserted before it: its
      own row's id, and for a category its relationship's. */
  function OwnLink(tag: Tag, base: nat): Links {
    match tag
    case HeaderTag => NO_LINKS.(header := Some(base + 1))
    case CategoryTag => NO_LINKS.(category := Some(base + 2))
    case ImageSettingsTag => NO_LINKS.(imageSettings := Some(base + 1))
    case InternalLocationTag => NO_LINKS.(internalLocation := Some(base + 1))
    case _ => NO_LINKS
  }

  /** The links a node leaves in the enclosing builder: its own, or if it is transparent its children's. */
  function LinksOf(node: Node, base: nat): Links
    decreases node, 1
  {
    if Pushes(node.tag).Some? then OwnLink(node.tag, base) else LinksOfAll(node.children, base)
  }

  /** Among several nodes the last one that leaves a link decides it. */
  function LinksOfAll(nodes: seq<Node>, base: nat): Links
    decreases nodes, 0
  {
    if nodes == [] then NO_LINKS
    else
      var init := nodes[..|nodes| - 1];
      Over(LinksOfAll(init, base), LinksOf(nodes[|nodes| - 1], base + RowsAll(init)))
  }

  /** The builders an element itself makes, with `links` in the one it pushes. */
  function OwnBuilders(tag: Tag, base: nat, links: Links): seq<Builder> {
    (match Pushes(tag)
     case None => []
     case Some(kind) => [Builder(kind, if RowsOf(tag) > 0 then base + 1 else 0, links)])
    + (if tag == CategoryTag then [Builder(RelationshipB, base + 2, NO_LINKS)] else [])
  }

  /** The builders made for a node and everything below it, in document order, with their final links. */
  function Expected(node: Node, base: nat): seq<Builder>
    decreases node, 1
  {
    var below := base + RowsOf(node.tag);
    OwnBuilders(node.tag, base, LinksOfAll(node.children, below)) + ExpectedAll(node.children, below)
  }

  function ExpectedAll(nodes: seq<Node>, base: nat): seq<Builder>
    decreases nodes, 0
  {
    if nodes == [] then []
    else
      var init := nodes[..|nodes| - 1];
      ExpectedAll(init, base) + Expected(nodes[|nodes| - 1], base + RowsAll(init))
  }

  // ---------------------------------------------------------------------------
  // The importer does that
  // ---------------------------------------------------------------------------

  ghost predicate StackOk(st: Store) {
    forall i :: 0 <= i < |st.stack| ==> st.stack[i] < |st.builders|
  }

  /** The builders with the top one's links overlaid. */
  function WithTop(st: Store, links: Links): (bs: seq<Builder>)
    ensures |bs| == |st.builders|
  {
    if st.stack == [] || st.stack[|st.stack| - 1] >= |st.builders| then st.builders
    else
      var top := st.stack[|st.stack| - 1];
      st.builders[top := st.builders[top].(links := Over(st.builders[top].links, links))]
  }

  /** What importing nodes from `st` leaves: the same stack, the enclosing builder's links overlaid, and
      the expected builders added. */
  function Imported(st: Store, links: Links, more: seq<Builder>, rows: nat): Store {
    Store(WithTop(st, links) + more, st.stack, st.rows + rows)
  }

  /** Entering a node succeeds exactly when its parent is of the kind it needs. */
  lemma EnterIffNeeds(st: Store, tag: Tag)
    requires StackOk(st)
    ensures Enter(st, tag).Some? <==> (Needs(tag).Some? ==> TopKind(st) == Needs(tag))
    ensures Enter(st, tag).Some? && Pushes(tag).None? ==> Enter(st, tag).value == st
    ensures Enter(st, tag).Some? && Pushes(tag).Some? ==>
      Enter(st, tag).value == Store(WithTop(st, OwnLink(tag, st.rows)) + OwnBuilders(tag, st.rows, NO_LINKS),
                                    st.stack + [|st.builders|], st.rows + RowsOf(tag))
  {
    if Enter(st, tag).Some? && Pushes(tag).Some? {
      var bs := Enter(st, tag).value.builders;
      assert bs == WithTop(st, OwnLink(tag, st.rows)) + OwnBuilders(tag, st.rows, NO_LINKS);
    }
  }

  lemma ImportedKeeps(st: Store, links: Links, more: seq<Builder>, n: nat)
    requires StackOk(st)
    ensures StackOk(Imported(st, links, more, n)) && TopKind(Imported(st, links, more, n)) == TopKind(st)
    ensures Imported(st, links, more, n).rows == st.rows + n
  {
  }

  /** Two imports one after the other are one import of both. */
  lemma ImportedTwice(st: Store, a: Links, more: seq<Builder>, n: nat, b: Links, more2: seq<Builder>, n2: nat)
    requires StackOk(st)
    ensures StackOk(Imported(st, a, more, n)) && TopKind(Imported(st, a, more, n)) == TopKind(st)
    ensures Imported(Imported(st, a, more, n), b, more2, n2) == Imported(st, Over(a, b), more + more2, n + n2)
  {
    var st1 := Imported(st, a, more, n);
    assert WithTop(st1, b) == WithTop(st, Over(a, b)) + more;
    assert WithTop(st, Over(a, b)) + more + more2 == WithTop(st, Over(a, b)) + (more + more2);
  }

  /** Importing the children under a builder that was just pushed, and popping it. */
  lemma ImportedUnderPushed(st: Store, tag: Tag, links: Links, below: seq<Builder>, n: nat)
    requires StackOk(st) && Pushes(tag).Some?
    ensures var st1 := Store(WithTop(st, OwnLink(tag, st.rows)) + OwnBuilders(tag, st.rows, NO_LINKS),
                             st.stack + [|st.builders|], st.rows + RowsOf(tag));
      && StackOk(st1) && TopKind(st1) == Pushes(tag)
      && Imported(st1, links, below, n).stack == st.stack + [|st.builders|]
      && Imported(st1, links, below, n).(stack := st.stack) ==
         Imported(st, OwnLink(tag, st.rows), OwnBuilders(tag, st.rows, links) + below, RowsOf(tag) + n)
  {
    var bs := WithTop(st, OwnLink(tag, st.rows));
    var st1 := Store(bs + OwnBuilders(tag, st.rows, NO_LINKS), st.stack + [|st.builders|], st.rows + RowsOf(tag));
    assert WithTop(st1, links) == bs + OwnBuilders(tag, st.rows, links);
    assert bs + OwnBuilders(tag, st.rows, links) + below == bs + (OwnBuilders(tag, st.rows, links) + below);
  }

  /** Main result.  Importing succeeds exactly for legal nesting; the stack is then as it was, the
      enclosing builder's links are those the document gives it, the expected builders have been added,
      and the builder returned is the one pushed for the node, or none. */
  lemma {:induction false} ImportIs(st: Store, node: Node)
    requires StackOk(st)
    ensures Import(st, node) ==
      if Legal(node, TopKind(st)) then
        Done(Imported(st, LinksOf(node, st.rows), Expected(node, st.rows), Rows(node)),
             if Pushes(node.tag).Some? then Some(|st.builders|) else None)
      else Crash
    decreases node, 1
  {
    EnterIffNeeds(st, node.tag);
    if Enter(st, node.tag).None? {
    } else if Pushes(node.tag).Some? {
      ImportPushingIs(st, node);
    } else {
      ImportAllIs(st, node.children);
      assert Expected(node, st.rows) == ExpectedAll(node.children, st.rows);
    }
  }

  lemma LeavePushed(tag: Tag, st: Store, stack: seq<nat>, b: nat)
    requires Pushes(tag).Some? && st.stack == stack + [b]
    ensures Leave(tag, Done(st, None)) == Done(st.(stack := stack), Some(b))
  {
    assert st.stack[..|stack|] == stack;
  }

  lemma {:induction false} ImportPushingIs(st: Store, node: Node)
    requires StackOk(st) && Pushes(node.tag).Some? && Enter(st, node.tag).Some?
    ensures Import(st, node) ==
      if LegalAll(node.children, Pushes(node.tag)) then
        Done(Imported(st, OwnLink(node.tag, st.rows), Expected(node, st.rows), Rows(node)), Some(|st.builders|))
      else Crash
    decreases node, 0
  {
    EnterIffNeeds(st, node.tag);
    var st1 := Enter(st, node.tag).value;
    var o := ImportAll(st1, node.children);
    var links, below := LinksOfAll(node.children, st1.rows), ExpectedAll(node.children, st1.rows);
    ImportedUnderPushed(st, node.tag, links, below, RowsAll(node.children));
    ImportAllIs(st1, node.children);
    LeaveImported(st, node.tag, st1, links, below, RowsAll(node.children), o,
                  LegalAll(node.children, Pushes(node.tag)));
    assert Import(st, node) == Leave(node.tag, o);
    assert Expected(node, st.rows) == OwnBuilders(node.tag, st.rows, links) + below;
  }

  /** Popping the builder that was pushed for `tag`, when the import below it may crash. */
  lemma LeaveImported(st: Store, tag: Tag, st1: Store, links: Links, below: seq<Builder>, n: nat,
                      o: Outcome, legal: bool)
    requires Pushes(tag).Some? && StackOk(st) && st1.stack == st.stack + [|st.builders|]
    requires Imported(st1, links, below, n).(stack := st.stack) ==
             Imported(st, OwnLink(tag, st.rows), OwnBuilders(tag, st.rows, links) + below, RowsOf(tag) + n)
    requires o == if legal then Done(Imported(st1, links, below, n), None) else Crash
    ensures Leave(tag, o) ==
      if legal then
        Done(Imported(st, OwnLink(tag, st.rows), OwnBuilders(tag, st.rows, links) + below, RowsOf(tag) + n),
             Some(|st.builders|))
      else Crash
  {
    LeavePushed(tag, Imported(st1, links, below, n), st.stack, |st.builders|);
  }

  lemma {:induction false} ImportAllIs(st: Store, nodes: seq<Node>)
    requires StackOk(st)
    ensures ImportAll(st, nodes) ==
      if LegalAll(nodes, TopKind(st)) then
        Done(Imported(st, LinksOfAll(nodes, st.rows), ExpectedAll(nodes, st.rows), RowsAll(nodes)), None)
      else Crash
    decreases nodes, 0
  {
    if nodes == [] {
      assert WithTop(st, NO_LINKS) + [] == st.builders;
    } else {
      var init, last := nodes[..|nodes| - 1], nodes[|nodes| - 1];
      ImportAllIs(st, init);
      if LegalAll(init, TopKind(st)) {
        var a, more, n := LinksOfAll(init, st.rows), ExpectedAll(init, st.rows), RowsAll(init);
        var st1 := Imported(st, a, more, n);
        assert ImportAll(st, init) == Done(st1, None);
        LastOfAll(nodes, st.rows, st.rows + n, a, more, n);
        LastImported(st, last, a, more, n, st1,
                     LinksOfAll(nodes, st.rows), ExpectedAll(nodes, st.rows), RowsAll(nodes));
        assert ImportAll(st, nodes) == if Import(st1, last) == Crash then Crash else Done(Import(st1, last).st, None);
      }
    }
  }

  lemma LastOfAll(nodes: seq<Node>, base: nat, mid: nat, a: Links, more: seq<Builder>, n: nat)
    requires nodes != [] && mid == base + n && n == RowsAll(nodes[..|nodes| - 1])
    requires a == LinksOfAll(nodes[..|nodes| - 1], base) && more == ExpectedAll(nodes[..|nodes| - 1], base)
    ensures var last := nodes[|nodes| - 1];
      && LinksOfAll(nodes, base) == Over(a, LinksOf(last, mid))
      && ExpectedAll(nodes, base) == more + Expected(last, mid)
      && RowsAll(nodes) == n + Rows(last)
  {
  }

  /** The step for the last of several nodes. */
  lemma LastImported(st: Store, last: Node, a: Links, more: seq<Builder>, n: nat, st1: Store,
                     links: Links, made: seq<Builder>, rows: nat)
    requires StackOk(st) && st1 == Imported(st, a, more, n)
    requires links == Over(a, LinksOf(last, st.rows + n)) && made == more + Expected(last, st.rows + n)
    requires rows == n + Rows(last)
    ensures var o := Import(st1, last);
      if Legal(last, TopKind(st)) then o.Done? && o.st == Imported(st, links, made, rows) else o == Crash
    decreases last, 2
  {
    ImportedKeeps(st, a, more, n);
    ImportIs(st1, last);
    BothImported(st, a, more, n, LinksOf(last, st1.rows), Expected(last, st1.rows), Rows(last),
                 Import(st1, last), Legal(last, TopKind(st)));
  }

  /** `ImportedTwice` when the second import may crash. */
  lemma BothImported(st: Store, a: Links, more: seq<Builder>, n: nat, b: Links, more2: seq<Builder>, n2: nat,
                     o: Outcome, legal: bool)
    requires StackOk(st)
    requires if legal then o.Done? && o.st == Imported(Imported(st, a, more, n), b, more2, n2) else o == Crash
    ensures if legal then o.Done? && o.st == Imported(st, Over(a, b), more + more2, n + n2) else o == Crash
  {
    ImportedTwice(st, a, more, n, b, more2, n2);
  }

  // ---------------------------------------------------------------------------
  // The stack at each node
  // ---------------------------------------------------------------------------

  predicate IsPath(node: Node, path: seq<nat>) {
    path == [] || (path[0] < |node.children| && IsPath(node.children[path[0]], path[1..]))
  }

  /** The store when the importer reaches the node at `path`. */
  function Reach(st: Store, node: Node, path: seq<nat>): Option<Store>
    requires IsPath(node, path)
    decreases |path|
  {
    if path == [] then Some(st)
    else
      match Enter(st, node.tag)
      case None => None
      case Some(st1) =>
        match ImportAll(st1, node.children[..path[0]])
        case Crash => None
        case Done(st2, _) => Reach(st2, node.children[path[0]], path[1..])
  }

  /** The kinds of the ancestors of the node at `path` that push a builder, root first. */
  function AncestorKinds(node: Node, path: seq<nat>): seq<Kind>
    requires IsPath(node, path)
    decreases |path|
  {
    if path == [] then []
    else
      PushedKind(node.tag) + AncestorKinds(node.children[path[0]], path[1..])
  }

  /** The builders that from_xml returns for the ancestors of the node at `path`, root first. */
  function AncestorBuilders(st: Store, node: Node, path: seq<nat>): seq<nat>
    requires IsPath(node, path)
    decreases |path|
  {
    if path == [] then []
    else
      var o := Import(st, node);
      var own := if o.Done? && o.completed.Some? then [o.completed.value] else [];
      match Enter(st, node.tag)
      case None => own
      case Some(st1) =>
        match ImportAll(st1, node.children[..path[0]])
        case Crash => own
        case Done(st2, _) => own + AncestorBuilders(st2, node.children[path[0]], path[1..])
  }

  lemma {:induction false} LegalParts(nodes: seq<Node>, top: Option<Kind>, k: nat)
    requires LegalAll(nodes, top) && k < |nodes|
    ensures LegalAll(nodes[..k], top) && Legal(nodes[k], top)
    decreases |nodes|
  {
    if k < |nodes| - 1 {
      LegalParts(nodes[..|nodes| - 1], top, k);
      assert nodes[..|nodes| - 1][..k] == nodes[..k];
    }
  }

  /** Kinds never change once a builder has been made. */
  ghost predicate KeepsKinds(a: Store, b: Store) {
    && |a.builders| <= |b.builders|
    && forall i :: 0 <= i < |a.builders| ==> b.builders[i].kind == a.builders[i].kind
  }

  /** `st'` follows `st` and has on its stack, above what `st` had, the builders `own`, which are of the
      kinds `kinds`. */
  ghost predicate OnStack(st: Store, st': Store, own: seq<nat>, kinds: seq<Kind>) {
    && StackOk(st') && KeepsKinds(st, st')
    && st'.stack == st.stack + own && |own| == |kinds|
    && forall i :: 0 <= i < |own| ==> own[i] < |st'.builders| && st'.builders[own[i]].kind == kinds[i]
  }

  lemma OnStackTwice(st: Store, st1: Store, st2: Store, a: seq<nat>, b: seq<nat>, ka: seq<Kind>, kb: seq<Kind>)
    requires OnStack(st, st1, a, ka) && OnStack(st1, st2, b, kb)
    ensures OnStack(st, st2, a + b, ka + kb)
  {
    assert st.stack + a + b == st.stack + (a + b);
  }

  function Pushed(st: Store, tag: Tag): seq<nat> {
    if Pushes(tag).Some? then [|st.builders|] else []
  }

  function PushedKind(tag: Tag): seq<Kind> {
    if Pushes(tag).Some? then [Pushes(tag).value] else []
  }

  lemma EnterOnStack(st: Store, tag: Tag)
    requires StackOk(st) && Enter(st, tag).Some?
    ensures var st1 := Enter(st, tag).value;
      && OnStack(st, st1, Pushed(st, tag), PushedKind(tag))
      && TopKind(st1) == if Pushes(tag).Some? then Pushes(tag) else TopKind(st)
  {
    EnterIffNeeds(st, tag);
  }

  lemma ImportAllOnStack(st: Store, nodes: seq<Node>) returns (st2: Store)
    requires StackOk(st) && LegalAll(nodes, TopKind(st))
    ensures ImportAll(st, nodes) == Done(st2, None)
    ensures OnStack(st, st2, [], []) && TopKind(st2) == TopKind(st)
  {
    ImportAllIs(st, nodes);
    var a, more, n := LinksOfAll(nodes, st.rows), ExpectedAll(nodes, st.rows), RowsAll(nodes);
    ImportedTwice(st, a, more, n, NO_LINKS, [], 0);
    st2 := Imported(st, a, more, n);
  }

  /** Reaching the `k`-th child: its parent's builder is on the stack if the parent pushes one. */
  lemma ReachChild(st: Store, node: Node, k: nat) returns (st2: Store)
    requires StackOk(st) && Legal(node, TopKind(st)) && k < |node.children|
    ensures Enter(st, node.tag).Some?
    ensures ImportAll(Enter(st, node.tag).value, node.children[..k]) == Done(st2, None)
    ensures Legal(node.children[k], TopKind(st2))
    ensures OnStack(st, st2, Pushed(st, node.tag), PushedKind(node.tag))
  {
    EnterIffNeeds(st, node.tag);
    EnterOnStack(st, node.tag);
    var st1 := Enter(st, node.tag).value;
    LegalParts(node.children, TopKind(st1), k);
    st2 := ImportAllOnStack(st1, node.children[..k]);
    OnStackTwice(st, st1, st2, Pushed(st, node.tag), [], PushedKind(node.tag), []);
    assert Pushed(st, node.tag) + [] == Pushed(st, node.tag) && PushedKind(node.tag) + [] == PushedKind(node.tag);
  }

  /** At every node of a legal document the stack is the enclosing stack followed by the builders of the
      node's pushing ancestors, root first: the very builders that are returned for those ancestors. */
  lemma {:induction false} StackIsAncestors(st: Store, node: Node, path: seq<nat>)
    requires StackOk(st) && IsPath(node, path) && Legal(node, TopKind(st))
    ensures Reach(st, node, path).Some?
    ensures OnStack(st, Reach(st, node, path).value, AncestorBuilders(st, node, path), AncestorKinds(node, path))
    decreases |path|
  {
    if path == [] {
      assert OnStack(st, st, [], []);
    } else {
      var k := path[0];
      ImportIs(st, node);
      var st2 := ReachChild(st, node, k);
      var child := node.children[k];
      StackIsAncestors(st2, child, path[1..]);
      OnStackTwice(st, st2, Reach(st2, child, path[1..]).value,
                   Pushed(st, node.tag), AncestorBuilders(st2, child, path[1..]),
                   PushedKind(node.tag), AncestorKinds(child, path[1..]));
    }
  }

  // ---------------------------------------------------------------------------
  // Row ids and links
  // ---------------------------------------------------------------------------

  /** Ids of rows lie above `lo` and up to `hi`, and increase in the order in which builders are made. */
  ghost predicate IdsIncrease(bs: seq<Builder>, lo: nat, hi: nat) {
    && (forall i :: 0 <= i < |bs| && bs[i].id > 0 ==> lo < bs[i].id <= hi)
    && (forall i, j :: 0 <= i < j < |bs| && bs[i].id > 0 && bs[j].id > 0 ==> bs[i].id < bs[j].id)
  }

  lemma IdsConcat(a: seq<Builder>, b: seq<Builder>, lo: nat, mid: nat, hi: nat)
    requires lo <= mid <= hi && IdsIncrease(a, lo, mid) && IdsIncrease(b, mid, hi)
    ensures IdsIncrease(a + b, lo, hi)
  {
  }

  lemma OwnIds(tag: Tag, base: nat, links: Links)
    ensures IdsIncrease(OwnBuilders(tag, base, links), base, base + RowsOf(tag))
  {
  }

  lemma {:induction false} ExpectedIds(node: Node, base: nat)
    ensures IdsIncrease(Expected(node, base), base, base + Rows(node))
    decreases node, 1
  {
    var below := base + RowsOf(node.tag);
    ExpectedAllIds(node.children, below);
    OwnIds(node.tag, base, LinksOfAll(node.children, below));
    IdsConcat(OwnBuilders(node.tag, base, LinksOfAll(node.children, below)), ExpectedAll(node.children, below),
              base, below, base + Rows(node));
  }

  lemma {:induction false} ExpectedAllIds(nodes: seq<Node>, base: nat)
    ensures IdsIncrease(ExpectedAll(nodes, base), base, base + RowsAll(nodes))
    decreases nodes, 0
  {
    if nodes != [] {
      var init, last := nodes[..|nodes| - 1], nodes[|nodes| - 1];
      var mid := base + RowsAll(init);
      ExpectedAllIds(init, base);
      ExpectedIds(last, mid);
      IdsConcat(ExpectedAll(init, base), Expected(last, mid), base, mid, base + RowsAll(nodes));
    }
  }

  /** Importing a whole document: it succeeds exactly when the nesting is legal, the stack ends empty, and
      the builders are those the document describes. */
  lemma DocumentIs(node: Node, rows: nat)
    ensures Import(Store([], [], rows), node) ==
      if Legal(node, None) then
        Done(Store(Expected(node, rows), [], rows + Rows(node)), if Pushes(node.tag).Some? then Some(0) else None)
      else Crash
  {
    var st := Store([], [], rows);
    ImportIs(st, node);
    assert [] + Expected(node, rows) == Expected(node, rows);
    assert Imported(st, LinksOf(node, rows), Expected(node, rows), Rows(node)) ==
           Store(Expected(node, rows), [], rows + Rows(node));
  }

  /** All builders of a legal document that got a row have different, new ids. */
  lemma DocumentIds(node: Node, rows: nat)
    requires Legal(node, None)
    ensures Import(Store([], [], rows), node).Done?
    ensures var st := Import(Store([], [], rows), node).st;
      forall i, j :: 0 <= i < j < |st.builders| && st.builders[i].id > 0 && st.builders[j].id > 0 ==>
        rows < st.builders[i].id < st.builders[j].id <= st.rows
  {
    DocumentIs(node, rows);
    ExpectedIds(node, rows);
  }

  /** How many builders an element itself makes, and how many are made for a node and below it. */
  function OwnCount(tag: Tag): nat {
    if Pushes(tag).None? then 0 else if tag == CategoryTag then 2 else 1
  }

  function Made(node: Node): nat
    decreases node, 1
  {
    OwnCount(node.tag) + MadeAll(node.children)
  }

  function MadeAll(nodes: seq<Node>): nat
    decreases nodes, 0
  {
    if nodes == [] then 0 else MadeAll(nodes[..|nodes| - 1]) + Made(nodes[|nodes| - 1])
  }

  lemma {:induction false} MadeIsLength(node: Node, base: nat)
    ensures |Expected(node, base)| == Made(node)
    decreases node, 1
  {
    MadeAllIsLength(node.children, base + RowsOf(node.tag));
  }

  lemma {:induction false} MadeAllIsLength(nodes: seq<Node>, base: nat)
    ensures |ExpectedAll(nodes, base)| == MadeAll(nodes)
    decreases nodes, 0
  {
    if nodes != [] {
      var init, last := nodes[..|nodes| - 1], nodes[|nodes| - 1];
      MadeAllIsLength(init, base);
      MadeIsLength(last, base + RowsAll(init));
    }
  }

  /** The builders `part` stand in `bs` from position `at` on. */
  ghost predicate Within(bs: seq<Builder>, at: nat, part: seq<Builder>) {
    at + |part| <= |bs| && bs[at..at + |part|] == part
  }

  lemma WithinConcat(bs: seq<Builder>, at: nat, a: seq<Builder>, b: seq<Builder>)
    requires Within(bs, at, a + b)
    ensures Within(bs, at, a) && Within(bs, at + |a|, b)
  {
    var both := bs[at..at + |a + b|];
    assert both[..|a|] == a && both[|a|..] == b;
    assert bs[at..at + |a|] == both[..|a|] && bs[at + |a|..at + |a| + |b|] == both[|a|..];
  }

  /** A pushing element directly under a builder, and the position of the builder that it links there:
      its own, or for a category its relationship's. */
  datatype Child = Child(tag: Tag, place: nat)

  /** The pushing elements directly under a builder, in document order; `at` is the position of the first builder
      made for the node. */
  function ChildrenOf(node: Node, at: nat): seq<Child>
    decreases node, 1
  {
    if Pushes(node.tag).None? then ChildrenOfAll(node.children, at)
    else [Child(node.tag, if node.tag == CategoryTag then at + 1 else at)]
  }

  function ChildrenOfAll(nodes: seq<Node>, at: nat): seq<Child>
    decreases nodes, 0
  {
    if nodes == [] then []
    else
      var init := nodes[..|nodes| - 1];
      ChildrenOfAll(init, at) + ChildrenOf(nodes[|nodes| - 1], at + MadeAll(init))
  }

  /** The id of the builder at the place of the last child with tag `tag`. */
  function LastId(cs: seq<Child>, tag: Tag, bs: seq<Builder>): Option<nat> {
    if cs == [] then None
    else
      var last := cs[|cs| - 1];
      if last.tag == tag then Some(if last.place < |bs| then bs[last.place].id else 0)
      else LastId(cs[..|cs| - 1], tag, bs)
  }

  function LastLinks(cs: seq<Child>, bs: seq<Builder>): Links {
    Links(LastId(cs, HeaderTag, bs), LastId(cs, CategoryTag, bs), LastId(cs, ImageSettingsTag, bs),
          LastId(cs, InternalLocationTag, bs))
  }

  lemma {:induction false} LastIdConcat(a: seq<Child>, b: seq<Child>, tag: Tag, bs: seq<Builder>)
    ensures LastId(a + b, tag, bs) == if LastId(b, tag, bs).Some? then LastId(b, tag, bs) else LastId(a, tag, bs)
    decreases |b|
  {
    if b == [] {
      assert a + b == a;
    } else {
      assert (a + b)[..|a + b| - 1] == a + b[..|b| - 1];
      LastIdConcat(a, b[..|b| - 1], tag, bs);
    }
  }

  lemma LastLinksConcat(a: seq<Child>, b: seq<Child>, bs: seq<Builder>)
    ensures LastLinks(a + b, bs) == Over(LastLinks(a, bs), LastLinks(b, bs))
  {
    LastIdConcat(a, b, HeaderTag, bs);
    LastIdConcat(a, b, CategoryTag, bs);
    LastIdConcat(a, b, ImageSettingsTag, bs);
    LastIdConcat(a, b, InternalLocationTag, bs);
  }

  lemma LastIdOne(c: Child, tag: Tag, bs: seq<Builder>)
    requires c.place < |bs|
    ensures LastId([c], tag, bs) == if c.tag == tag then Some(bs[c.place].id) else None
  {
    assert [c][..0] == [];
  }

  /** A pushing element links the id of its builder or relationship. */
  lemma OwnLinkIsId(tag: Tag, base: nat, links: Links, at: nat, bs: seq<Builder>)
    requires Pushes(tag).Some? && Within(bs, at, OwnBuilders(tag, base, links))
    ensures OwnLink(tag, base) == LastLinks([Child(tag, if tag == CategoryTag then at + 1 else at)], bs)
  {
    var own := OwnBuilders(tag, base, links);
    assert bs[at] == own[0] && (tag == CategoryTag ==> bs[at + 1] == own[1]);
    var c := Child(tag, if tag == CategoryTag then at + 1 else at);
    LastIdOne(c, HeaderTag, bs);
    LastIdOne(c, CategoryTag, bs);
    LastIdOne(c, ImageSettingsTag, bs);
    LastIdOne(c, InternalLocationTag, bs);
  }

  /** The links a node leaves are the ids of builders that were made: of the last header, category
      relationship, image settings and internal location. */
  lemma {:induction false} LinksAreLast(node: Node, base: nat, at: nat, bs: seq<Builder>)
    requires Within(bs, at, Expected(node, base))
    ensures LinksOf(node, base) == LastLinks(ChildrenOf(node, at), bs)
    decreases node, 1
  {
    var below := base + RowsOf(node.tag);
    var links := LinksOfAll(node.children, below);
    WithinConcat(bs, at, OwnBuilders(node.tag, base, links), ExpectedAll(node.children, below));
    if Pushes(node.tag).None? {
      LinksOfAllAreLast(node.children, base, at, bs);
    } else {
      OwnLinkIsId(node.tag, base, links, at, bs);
    }
  }

  lemma {:induction false} LinksOfAllAreLast(nodes: seq<Node>, base: nat, at: nat, bs: seq<Builder>)
    requires Within(bs, at, ExpectedAll(nodes, base))
    ensures LinksOfAll(nodes, base) == LastLinks(ChildrenOfAll(nodes, at), bs)
    decreases nodes, 0
  {
    if nodes != [] {
      var init, last := nodes[..|nodes| - 1], nodes[|nodes| - 1];
      var base2 := base + RowsAll(init);
      WithinConcat(bs, at, ExpectedAll(init, base), Expected(last, base2));
      MadeAllIsLength(init, base);
      LinksOfAllAreLast(init, base, at, bs);
      LinksAreLast(last, base2, at + MadeAll(init), bs);
      LastLinksConcat(ChildrenOfAll(init, at), ChildrenOf(last, at + MadeAll(init)), bs);
    }
  }

  function NodeAt(node: Node, path: seq<nat>): Node
    requires IsPath(node, path)
    decreases |path|
  {
    if path == [] then node else NodeAt(node.children[path[0]], path[1..])
  }

  /** The position of the first builder made for the node at `path`. */
  function PlaceOf(node: Node, path: seq<nat>): nat
    requires IsPath(node, path)
    decreases |path|
  {
    if path == [] then 0
    else OwnCount(node.tag) + MadeAll(node.children[..path[0]]) + PlaceOf(node.children[path[0]], path[1..])
  }

  lemma {:induction false} ChildWithin(nodes: seq<Node>, base: nat, at: nat, bs: seq<Builder>, k: nat)
    requires Within(bs, at, ExpectedAll(nodes, base)) && k < |nodes|
    ensures Within(bs, at + MadeAll(nodes[..k]), Expected(nodes[k], base + RowsAll(nodes[..k])))
    decreases |nodes|
  {
    var init, last := nodes[..|nodes| - 1], nodes[|nodes| - 1];
    WithinConcat(bs, at, ExpectedAll(init, base), Expected(last, base + RowsAll(init)));
    if k < |init| {
      ChildWithin(init, base, at, bs, k);
      assert init[..k] == nodes[..k] && init[k] == nodes[k];
    } else {
      MadeAllIsLength(init, base);
    }
  }

  lemma {:induction false} NodeWithin(node: Node, path: seq<nat>, base: nat, at: nat, bs: seq<Builder>) returns (b: nat)
    requires IsPath(node, path) && Within(bs, at, Expected(node, base))
    ensures Within(bs, at + PlaceOf(node, path), Expected(NodeAt(node, path), b))
    decreases |path|
  {
    if path == [] {
      b := base;
    } else {
      var k, below := path[0], base + RowsOf(node.tag);
      var own := OwnBuilders(node.tag, base, LinksOfAll(node.children, below));
      assert |own| == OwnCount(node.tag);
      WithinConcat(bs, at, own, ExpectedAll(node.children, below));
      ChildWithin(node.children, below, at + |own|, bs, k);
      b := NodeWithin(node.children[k], path[1..], below + RowsAll(node.children[..k]),
                      at + |own| + MadeAll(node.children[..k]), bs);
    }
  }

  /** The builder at `at` was pushed for `target`, and its links are the ids of its last children. */
  ghost predicate LinkedAt(bs: seq<Builder>, at: nat, target: Node) {
    && at < |bs| && Some(bs[at].kind) == Pushes(target.tag)
    && bs[at].links == LastLinks(ChildrenOfAll(target.children, at + OwnCount(target.tag)), bs)
  }

  lemma ExpectedIsLinked(target: Node, base: nat, at: nat, bs: seq<Builder>)
    requires Pushes(target.tag).Some? && Within(bs, at, Expected(target, base))
    ensures LinkedAt(bs, at, target)
  {
    var below := base + RowsOf(target.tag);
    var own := OwnBuilders(target.tag, base, LinksOfAll(target.children, below));
    WithinConcat(bs, at, own, ExpectedAll(target.children, below));
    assert bs[at] == own[0];
    LinksOfAllAreLast(target.children, below, at + OwnCount(target.tag), bs);
  }

  lemma NodeIsLinked(node: Node, base: nat, path: seq<nat>)
    requires IsPath(node, path) && Pushes(NodeAt(node, path).tag).Some?
    ensures LinkedAt(Expected(node, base), PlaceOf(node, path), NodeAt(node, path))
  {
    var bs := Expected(node, base);
    assert bs[0..|bs|] == bs;
    var b := NodeWithin(node, path, base, 0, bs);
    ExpectedIsLinked(NodeAt(node, path), b, PlaceOf(node, path), bs);
  }

  /** Main result on links.  After a legal document has been imported, the builder of every element that pushed
      one stores as header, category, image settings and internal location the ids of the builders made for
      the last such children, and no link where there is no such child. */
  lemma DocumentLinks(node: Node, rows: nat, path: seq<nat>)
    requires Legal(node, None) && IsPath(node, path) && Pushes(NodeAt(node, path).tag).Some?
    ensures var o := Import(Store([], [], rows), node);
      o.Done? && LinkedAt(o.st.builders, PlaceOf(node, path), NodeAt(node, path))
  {
    DocumentIs(node, rows);
    NodeIsLinked(node, rows, path);
  }

  // ---------------------------------------------------------------------------
  // Relationships are never reused
  // ---------------------------------------------------------------------------

  function Categories(node: Node): nat
    decreases node, 1
  {
    (if node.tag == CategoryTag then 1 else 0) + CategoriesIn(node.children)
  }

  function CategoriesIn(nodes: seq<Node>): nat
    decreases nodes, 0
  {
    if nodes == [] then 0 else CategoriesIn(nodes[..|nodes| - 1]) + Categories(nodes[|nodes| - 1])
  }

  /** The relationships among `bs` that have a row: those made for categories. */
  function Relationships(bs: seq<Builder>): nat {
    if bs == [] then 0
    else Relationships(bs[..|bs| - 1]) + if bs[|bs| - 1].kind == RelationshipB && bs[|bs| - 1].id > 0 then 1 else 0
  }

  lemma {:induction false} RelationshipsConcat(a: seq<Builder>, b: seq<Builder>)
    ensures Relationships(a + b) == Relationships(a) + Relationships(b)
    decreases |b|
  {
    if b == [] {
      assert a + b == a;
    } else {
      assert (a + b)[..|a + b| - 1] == a + b[..|b| - 1];
      RelationshipsConcat(a, b[..|b| - 1]);
    }
  }

  lemma RelationshipsOne(b: Builder)
    ensures Relationships([b]) == if b.kind == RelationshipB && b.id > 0 then 1 else 0
  {
    assert [b][..0] == [];
  }

  lemma OwnRelationships(tag: Tag, base: nat, links: Links)
    ensures Relationships(OwnBuilders(tag, base, links)) == if tag == CategoryTag then 1 else 0
  {
    var own := OwnBuilders(tag, base, links);
    if |own| == 1 {
      RelationshipsOne(own[0]);
      assert own == [own[0]];
    } else if |own| == 2 {
      RelationshipsOne(own[0]);
      assert own[..1] == [own[0]];
    }
  }

  lemma {:induction false} RelationshipsAre(node: Node, base: nat)
    ensures Relationships(Expected(node, base)) == Categories(node)
    decreases node, 1
  {
    var below := base + RowsOf(node.tag);
    var links := LinksOfAll(node.children, below);
    OwnRelationships(node.tag, base, links);
    RelationshipsAreIn(node.children, below);
    RelationshipsConcat(OwnBuilders(node.tag, base, links), ExpectedAll(node.children, below));
  }

  lemma {:induction false} RelationshipsAreIn(nodes: seq<Node>, base: nat)
    ensures Relationships(ExpectedAll(nodes, base)) == CategoriesIn(nodes)
    decreases nodes, 0
  {
    if nodes != [] {
      var init, last := nodes[..|nodes| - 1], nodes[|nodes| - 1];
      RelationshipsAreIn(init, base);
      RelationshipsAre(last, base + RowsAll(init));
      RelationshipsConcat(ExpectedAll(init, base), Expected(last, base + RowsAll(init)));
    }
  }

  /** After a legal document has been imported there are exactly as many relationships for categories as there
      are category elements: none is ever used for a second category. */
  lemma RelationshipForEachCategory(node: Node, rows: nat)
    requires Legal(node, None)
    ensures var o := Import(Store([], [], rows), node);
      o.Done? && Relationships(o.st.builders) == Categories(node)
  {
    DocumentIs(node, rows);
    RelationshipsAre(node, rows);
  }

  lemma OneNode(node: Node, base: nat, top: Option<Kind>)
    ensures LinksOfAll([node], base) == Over(NO_LINKS, LinksOf(node, base))
    ensures ExpectedAll([node], base) == Expected(node, base)
    ensures RowsAll([node]) == Rows(node) && LegalAll([node], top) == Legal(node, top)
  {
    assert [node][..0] == [];
    assert RowsAll([]) == 0;
  }

  /** A category without elements below it. */
  const CATEGORY := Node(CategoryTag, [])

  lemma OneCategory(base: nat)
    ensures LinksOf(CATEGORY, base) == NO_LINKS.(category := Some(base + 2)) && Rows(CATEGORY) == 2
    ensures Expected(CATEGORY, base) ==
            [Builder(CategoryB, base + 1, NO_LINKS), Builder(RelationshipB, base + 2, NO_LINKS)]
    ensures Legal(CATEGORY, Some(CatalogB))
  {
  }

  lemma BothCategories(base: nat)
    ensures var both := [CATEGORY, CATEGORY];
      && LinksOfAll(both, base) == NO_LINKS.(category := Some(base + 4)) && RowsAll(both) == 4
      && ExpectedAll(both, base) == [Builder(CategoryB, base + 1, NO_LINKS), Builder(RelationshipB, base + 2, NO_LINKS),
                                     Builder(CategoryB, base + 3, NO_LINKS), Builder(RelationshipB, base + 4, NO_LINKS)]
      && LegalAll(both, Some(CatalogB))
  {
    assert [CATEGORY, CATEGORY][..1] == [CATEGORY];
    OneNode(CATEGORY, base, Some(CatalogB));
    OneCategory(base);
    OneCategory(base + 2);
  }

  /** An input: a catalog with two categories gets two relationships and keeps the link to the second only. */
  lemma TwoCategories()
    ensures Import(Store([], [], 0), Node(CatalogTag, [CATEGORY, CATEGORY])) ==
      Done(Store([Builder(CatalogB, 1, NO_LINKS.(category := Some(5)))] +
                 [Builder(CategoryB, 2, NO_LINKS), Builder(RelationshipB, 3, NO_LINKS),
                  Builder(CategoryB, 4, NO_LINKS), Builder(RelationshipB, 5, NO_LINKS)], [], 5), Some(0))
  {
    var catalog := Node(CatalogTag, [CATEGORY, CATEGORY]);
    BothCategories(1);
    DocumentIs(catalog, 0);
    assert OwnBuilders(CatalogTag, 0, LinksOfAll(catalog.children, 1)) ==
           [Builder(CatalogB, 1, NO_LINKS.(category := Some(5)))];
  }

  // ---------------------------------------------------------------------------
  // A document with every element
  // ---------------------------------------------------------------------------

  /** What nodes come to when `base` rows were inserted before them, under a builder of kind `top`. */
  ghost predicate ComesTo(nodes: seq<Node>, base: nat, top: Kind, bs: seq<Builder>, links: Links, rows: nat) {
    && ExpectedAll(nodes, base) == bs && LinksOfAll(nodes, base) == links && RowsAll(nodes) == rows
    && LegalAll(nodes, Some(top))
  }

  lemma NothingComesTo(base: nat, top: Kind)
    ensures ComesTo([], base, top, [], NO_LINKS, 0)
  {
  }

  lemma MoreComesTo(init: seq<Node>, last: Node, base: nat, top: Kind, bs: seq<Builder>, links: Links, rows: nat)
    requires ComesTo(init, base, top, bs, links, rows) && Legal(last, Some(top))
    ensures ComesTo(init + [last], base, top, bs + Expected(last, base + rows),
                    Over(links, LinksOf(last, base + rows)), rows + Rows(last))
  {
    assert (init + [last])[..|init|] == init;
  }

  /** An element with nothing below it. */
  lemma LeafIs(tag: Tag, base: nat)
    ensures Expected(Node(tag, []), base) == OwnBuilders(tag, base, NO_LINKS)
    ensures LinksOf(Node(tag, []), base) == OwnLink(tag, base) && Rows(Node(tag, [])) == RowsOf(tag)
    ensures forall top :: Legal(Node(tag, []), top) <==> (Needs(tag).Some? ==> top == Needs(tag))
  {
  }

  lemma LeafComesTo(init: seq<Node>, tag: Tag, base: nat, top: Kind, bs: seq<Builder>, links: Links, rows: nat)
    requires ComesTo(init, base, top, bs, links, rows) && (Needs(tag).Some? ==> Needs(tag) == Some(top))
    ensures ComesTo(init + [Node(tag, [])], base, top, bs + OwnBuilders(tag, base + rows, NO_LINKS),
                    Over(links, OwnLink(tag, base + rows)), rows + RowsOf(tag))
  {
    LeafIs(tag, base + rows);
    MoreComesTo(init, Node(tag, []), base, top, bs, links, rows);
  }

  lemma BareLeafComesTo(init: seq<Node>, tag: Tag, base: nat, top: Kind, bs: seq<Builder>, links: Links, rows: nat)
    requires ComesTo(init, base, top, bs, links, rows) && Needs(tag).None? && RowsOf(tag) == 0
    ensures ComesTo(init + [Node(tag, [])], base, top, bs + OwnBuilders(tag, 0, NO_LINKS), links, rows)
  {
    LeafComesTo(init, tag, base, top, bs, links, rows);
    assert OwnBuilders(tag, base + rows, NO_LINKS) == OwnBuilders(tag, 0, NO_LINKS);
    assert Over(links, OwnLink(tag, base + rows)) == links;
  }

  /** Three elements, of which each makes a relationship without a row or nothing. */
  lemma ThreeLeaves(init: seq<Node>, a: Tag, b: Tag, c: Tag, base: nat, top: Kind,
                    bs: seq<Builder>, links: Links, rows: nat)
    requires ComesTo(init, base, top, bs, links, rows)
    requires Needs(a).None? && Needs(b).None? && Needs(c).None? && RowsOf(a) == RowsOf(b) == RowsOf(c) == 0
    ensures ComesTo(init + [Node(a, [])] + [Node(b, [])] + [Node(c, [])], base, top,
                    bs + OwnBuilders(a, 0, NO_LINKS) + OwnBuilders(b, 0, NO_LINKS) + OwnBuilders(c, 0, NO_LINKS),
                    links, rows)
  {
    var bsa := bs + OwnBuilders(a, 0, NO_LINKS);
    BareLeafComesTo(init, a, base, top, bs, links, rows);
    BareLeafComesTo(init + [Node(a, [])], b, base, top, bsa, links, rows);
    BareLeafComesTo(init + [Node(a, [])] + [Node(b, [])], c, base, top, bsa + OwnBuilders(b, 0, NO_LINKS), links, rows);
  }

  /** An element that pushes a builder, and what is below it. */
  lemma ElementIs(tag: Tag, nodes: seq<Node>, base: nat, bs: seq<Builder>, links: Links, rows: nat)
    requires Pushes(tag).Some? && ComesTo(nodes, base + RowsOf(tag), Pushes(tag).value, bs, links, rows)
    ensures Expected(Node(tag, nodes), base) == OwnBuilders(tag, base, links) + bs
    ensures LinksOf(Node(tag, nodes), base) == OwnLink(tag, base) && Rows(Node(tag, nodes)) == RowsOf(tag) + rows
    ensures forall top :: Legal(Node(tag, nodes), top) <==> (Needs(tag).Some? ==> top == Needs(tag))
  {
  }

  lemma CatalogFrom(nodes: seq<Node>, bs: seq<Builder>, links: Links, rows: nat)
    requires ComesTo(nodes, 1, CatalogB, bs, links, rows)
    ensures Import(Store([], [], 0), Node(CatalogTag, nodes)) ==
            Done(Store([Builder(CatalogB, 1, links)] + bs, [], 1 + rows), Some(0))
  {
    ElementIs(CatalogTag, nodes, 0, bs, links, rows);
    DocumentIs(Node(CatalogTag, nodes), 0);
    assert OwnBuilders(CatalogTag, 0, links) == [Builder(CatalogB, 1, links)];
  }

  lemma OneComesTo(node: Node, base: nat, top: Kind)
    requires Legal(node, Some(top))
    ensures ComesTo([node], base, top, Expected(node, base), Over(NO_LINKS, LinksOf(node, base)), Rows(node))
  {
    OneNode(node, base, Some(top));
  }

  function Plain(kind: Kind, id: nat): Builder {
    Builder(kind, id, NO_LINKS)
  }

  const VIEW_TYPES := Node(ViewTypesTag, [Node(ViewTypeTag, [])])
  const PATTERNS := [Node(VariationAttributeIdTag, []), Node(AltPatternTag, []), Node(TitlePatternTag, [])]
  const IMAGE_SETTINGS := Node(ImageSettingsTag, ([Node(InternalLocationTag, [])] + [VIEW_TYPES]) + PATTERNS)
  const HEADER := Node(HeaderTag, [IMAGE_SETTINGS])
  const FULL_CATEGORY := Node(CategoryTag, [Node(DisplayNameTag, []), Node(ParentTag, []), Node(OtherTag, [])])
  const FULL_CATALOG := Node(CatalogTag, [HEADER] + [FULL_CATEGORY])

  lemma ViewTypesIs(base: nat)
    ensures Expected(VIEW_TYPES, base) == [Plain(ViewTypesB, base + 1), Plain(RelationshipB, 0)]
    ensures LinksOf(VIEW_TYPES, base) == NO_LINKS && Rows(VIEW_TYPES) == 1 && forall top :: Legal(VIEW_TYPES, top)
  {
    LeafIs(ViewTypeTag, base + 1);
    NothingComesTo(base + 1, ViewTypesB);
    MoreComesTo([], Node(ViewTypeTag, []), base + 1, ViewTypesB, [], NO_LINKS, 0);
    assert [] + [Node(ViewTypeTag, [])] == [Node(ViewTypeTag, [])];
    ElementIs(ViewTypesTag, [Node(ViewTypeTag, [])], base, [Plain(RelationshipB, 0)], NO_LINKS, 0);
  }

  lemma PatternsComeTo(nodes: seq<Node>, base: nat, bs: seq<Builder>, links: Links, rows: nat)
    requires ComesTo(nodes, base, ImageSettingsB, bs, links, rows)
    ensures ComesTo(nodes + PATTERNS, base, ImageSettingsB,
                    bs + [Plain(RelationshipB, 0), Plain(RelationshipB, 0), Plain(RelationshipB, 0)], links, rows)
  {
    var rel := [Plain(RelationshipB, 0)];
    ThreeLeaves(nodes, VariationAttributeIdTag, AltPatternTag, TitlePatternTag, base, ImageSettingsB, bs, links, rows);
    assert nodes + [PATTERNS[0]] + [PATTERNS[1]] + [PATTERNS[2]] == nodes + PATTERNS;
    assert bs + rel + rel + rel == bs + [Plain(RelationshipB, 0), Plain(RelationshipB, 0), Plain(RelationshipB, 0)];
  }

  lemma ImageSettingsIs(base: nat)
    ensures Expected(IMAGE_SETTINGS, base) ==
      [Builder(ImageSettingsB, base + 1, NO_LINKS.(internalLocation := Some(base + 2)))] +
      [Plain(InternalLocationB, base + 2), Plain(ViewTypesB, base + 3), Plain(RelationshipB, 0)] +
      [Plain(RelationshipB, 0), Plain(RelationshipB, 0), Plain(RelationshipB, 0)]
    ensures LinksOf(IMAGE_SETTINGS, base) == NO_LINKS.(imageSettings := Some(base + 1)) && Rows(IMAGE_SETTINGS) == 3
    ensures forall top :: Legal(IMAGE_SETTINGS, top) <==> top == Some(HeaderB)
  {
    var b := base + 1;
    var links := NO_LINKS.(internalLocation := Some(base + 2));
    LeafIs(InternalLocationTag, b);
    NothingComesTo(b, ImageSettingsB);
    MoreComesTo([], Node(InternalLocationTag, []), b, ImageSettingsB, [], NO_LINKS, 0);
    assert [] + [Node(InternalLocationTag, [])] == [Node(InternalLocationTag, [])];
    assert [] + [Plain(InternalLocationB, base + 2)] == [Plain(InternalLocationB, base + 2)];
    ViewTypesIs(b + 1);
    MoreComesTo([Node(InternalLocationTag, [])], VIEW_TYPES, b, ImageSettingsB,
                [Plain(InternalLocationB, base + 2)], links, 1);
    var three := [Plain(InternalLocationB, base + 2), Plain(ViewTypesB, base + 3), Plain(RelationshipB, 0)];
    assert [Plain(InternalLocationB, base + 2)] + Expected(VIEW_TYPES, b + 1) == three;
    PatternsComeTo([Node(InternalLocationTag, [])] + [VIEW_TYPES], b, three, links, 2);
    ElementIs(ImageSettingsTag, IMAGE_SETTINGS.children, base,
              three + [Plain(RelationshipB, 0), Plain(RelationshipB, 0), Plain(RelationshipB, 0)], links, 2);
  }

  lemma HeaderIs(base: nat)
    ensures Expected(HEADER, base) ==
      [Builder(HeaderB, base + 1, NO_LINKS.(imageSettings := Some(base + 2)))] + Expected(IMAGE_SETTINGS, base + 1)
    ensures LinksOf(HEADER, base) == NO_LINKS.(header := Some(base + 1)) && Rows(HEADER) == 4
    ensures Legal(HEADER, Some(CatalogB))
  {
    ImageSettingsIs(base + 1);
    OneComesTo(IMAGE_SETTINGS, base + 1, HeaderB);
    ElementIs(HeaderTag, [IMAGE_SETTINGS], base, Expected(IMAGE_SETTINGS, base + 1),
              NO_LINKS.(imageSettings := Some(base + 2)), 3);
  }

  lemma FullCategoryIs(base: nat)
    ensures Expected(FULL_CATEGORY, base) ==
            [Plain(CategoryB, base + 1), Plain(RelationshipB, base + 2), Plain(RelationshipB, 0)]
    ensures LinksOf(FULL_CATEGORY, base) == NO_LINKS.(category := Some(base + 2)) && Rows(FULL_CATEGORY) == 2
    ensures Legal(FULL_CATEGORY, Some(CatalogB))
  {
    var rel := [Plain(RelationshipB, 0)];
    NothingComesTo(base + 2, CategoryB);
    ThreeLeaves([], DisplayNameTag, ParentTag, OtherTag, base + 2, CategoryB, [], NO_LINKS, 0);
    assert [] + [Node(DisplayNameTag, [])] + [Node(ParentTag, [])] + [Node(OtherTag, [])] == FULL_CATEGORY.children;
    assert [] + [] + rel + [] == rel;
    ElementIs(CategoryTag, FULL_CATEGORY.children, base, rel, NO_LINKS, 0);
  }

  lemma CatalogChildren()
    ensures ComesTo([HEADER] + [FULL_CATEGORY], 1, CatalogB, Expected(HEADER, 1) + Expected(FULL_CATEGORY, 5),
                    NO_LINKS.(header := Some(2), category := Some(7)), 6)
  {
    HeaderIs(1);
    FullCategoryIs(5);
    OneNode(HEADER, 1, Some(CatalogB));
    MoreComesTo([HEADER], FULL_CATEGORY, 1, CatalogB, Expected(HEADER, 1), NO_LINKS.(header := Some(2)), 4);
  }

  /** An input with every element, nested as deep as they go: the builders, ids and links it leaves. */
  lemma FullCatalogIs()
    ensures Import(Store([], [], 0), FULL_CATALOG) ==
      Done(Store([Builder(CatalogB, 1, NO_LINKS.(header := Some(2), category := Some(7)))] +
                 (Expected(HEADER, 1) + Expected(FULL_CATEGORY, 5)), [], 7), Some(0))
    ensures Expected(HEADER, 1) == HeaderBuilders()
    ensures Expected(FULL_CATEGORY, 5) == [Plain(CategoryB, 6), Plain(RelationshipB, 7), Plain(RelationshipB, 0)]
  {
    FullCatalogParts();
    FullHeaderIs();
    FullCategoryIs(5);
  }

  function HeaderBuilders(): seq<Builder> {
    [Builder(HeaderB, 2, NO_LINKS.(imageSettings := Some(3)))] +
    ([Builder(ImageSettingsB, 3, NO_LINKS.(internalLocation := Some(4)))] +
     [Plain(InternalLocationB, 4), Plain(ViewTypesB, 5), Plain(RelationshipB, 0)] +
     [Plain(RelationshipB, 0), Plain(RelationshipB, 0), Plain(RelationshipB, 0)])
  }

  lemma FullHeaderIs()
    ensures Expected(HEADER, 1) == HeaderBuilders()
  {
    HeaderIs(1);
    ImageSettingsIs(2);
  }

  lemma FullCatalogParts()
    ensures Import(Store([], [], 0), FULL_CATALOG) ==
      Done(Store([Builder(CatalogB, 1, NO_LINKS.(header := Some(2), category := Some(7)))] +
                 (Expected(HEADER, 1) + Expected(FULL_CATEGORY, 5)), [], 7), Some(0))
  {
    CatalogChildren();
    CatalogFrom([HEADER] + [FULL_CATEGORY], Expected(HEADER, 1) + Expected(FULL_CATEGORY, 5),
                NO_LINKS.(header := Some(2), category := Some(7)), 6);
  }

  /** Which elements are imported below which builder: a header and a category below a catalog, image settings below
      a header, an internal location below image settings, and any other element anywhere. */
  lemma MayStandBelow(st: Store, tag: Tag)
    requires StackOk(st)
    ensures Import(st, Node(tag, [])).Done? <==>
      match tag
      case HeaderTag => TopKind(st) == Some(CatalogB)
      case CategoryTag => TopKind(st) == Some(CatalogB)
      case ImageSettingsTag => TopKind(st) == Some(HeaderB)
      case InternalLocationTag => TopKind(st) == Some(ImageSettingsB)
      case _ => true
  {
    ImportIs(st, Node(tag, []));
    LeafIs(tag, st.rows);
  }

  // ---------------------------------------------------------------------------
  // The importer object
  // ---------------------------------------------------------------------------

  /** The recursion as it runs: one stack shared by all calls, and builders changed in place. */
  class Importer {
    var builders: seq<Builder>
    var stack: seq<nat>
    var rows: nat

    function Contents(): Store
      reads this
    {
      Store(builders, stack, rows)
    }

    constructor (existing: nat)
      ensures Contents() == Store([], [], existing)
    {
      builders, stack, rows := [], [], existing;
    }

    method InsertNewObject() returns (id: nat)
      modifies this`rows
      ensures id == rows == old(rows) + 1
    {
      rows := rows + 1;
      id := rows;
    }

    method NewParserObject(kind: Kind, push: bool) returns (b: nat)
      modifies this
      ensures b == |old(builders)| && Contents() == NewObject(old(Contents()), kind, push)
    {
      b := |builders|;
      if push {
        stack := stack + [b];
      }
      var id := InsertNewObject();
      builders := builders + [Builder(kind, id, NO_LINKS)];
    }

    /** False stands for the use of a missing parent or of a failed cast. */
    method EnterNode(tag: Tag) returns (ok: bool)
      requires StackOk(Contents())
      modifies this
      ensures Enter(old(Contents()), tag) == if ok then Some(Contents()) else None
    {
      if Needs(tag).Some? {
        if stack == [] || Some(builders[stack[|stack| - 1]].kind) != Needs(tag) {
          return false;
        }
        var parent := stack[|stack| - 1];
        var b := NewParserObject(Pushes(tag).value, true);
        var link := builders[b].id;
        var links := builders[parent].links;
        match tag {
          case HeaderTag => links := links.(header := Some(link));
          case CategoryTag =>
            var rel := NewParserObject(RelationshipB, false);
            links := links.(category := Some(builders[rel].id));
          case ImageSettingsTag => links := links.(imageSettings := Some(link));
          case InternalLocationTag => links := links.(internalLocation := Some(link));
        }
        builders := builders[parent := builders[parent].(links := links)];
      } else if Pushes(tag).Some? {
        if RowsOf(tag) > 0 {
          var b := NewParserObject(Pushes(tag).value, true);
        } else {
          builders, stack := builders + [Builder(Pushes(tag).value, 0, NO_LINKS)], stack + [|builders|];
        }
      }
      return true;
    }

    method FromXml(node: Node) returns (ok: bool, completed: Option<nat>)
      requires StackOk(Contents())
      modifies this
      ensures Import(old(Contents()), node) == if ok then Done(Contents(), completed) else Crash
      ensures ok ==> StackOk(Contents()) && stack == old(stack)
      decreases node, 1
    {
      ImportKeepsStack(Contents(), node);
      EnterIffNeeds(Contents(), node.tag);
      completed := None;
      ok := EnterNode(node.tag);
      if !ok {
        return;
      }
      ghost var st1 := Contents();
      ok := ImportChildren(node.children);
      if ok && Pushes(node.tag).Some? {
        assert stack == st1.stack != [];
        completed := Some(stack[|stack| - 1]);
        stack := stack[..|stack| - 1];
      }
    }

    /** The loop over the children. */
    method ImportChildren(nodes: seq<Node>) returns (ok: bool)
      requires StackOk(Contents())
      modifies this
      ensures ImportAll(old(Contents()), nodes) == if ok then Done(Contents(), None) else Crash
      ensures ok ==> StackOk(Contents()) && stack == old(stack)
      decreases nodes, 0
    {
      ghost var st1 := Contents();
      ok := true;
      for i := 0 to |nodes|
        invariant ok && ImportAll(st1, nodes[..i]) == Done(Contents(), None)
        invariant StackOk(Contents()) && stack == st1.stack
      {
        assert nodes[..i + 1][..i] == nodes[..i];
        var child;
        ok, child := FromXml(nodes[i]);
        if !ok {
          CrashStays(st1, nodes, i + 1);
          return;
        }
      }
      assert nodes[..|nodes|] == nodes;
    }
  }

  lemma ImportKeepsStack(st: Store, node: Node)
    requires StackOk(st)
    ensures Import(st, node).Done? ==> StackOk(Import(st, node).st) && Import(st, node).st.stack == st.stack
  {
    ImportIs(st, node);
    ImportedTwice(st, LinksOf(node, st.rows), Expected(node, st.rows), Rows(node), NO_LINKS, [], 0);
  }

  lemma {:induction false} CrashStays(st: Store, nodes: seq<Node>, k: nat)
    requires k <= |nodes| && ImportAll(st, nodes[..k]) == Crash
    ensures ImportAll(st, nodes) == Crash
    decreases |nodes|
  {
    if k == |nodes| {
      assert nodes[..k] == nodes;
    } else {
      assert nodes[..|nodes| - 1][..k] == nodes[..k];
      CrashStays(st, nodes[..|nodes| - 1], k);
    }
  }
}
