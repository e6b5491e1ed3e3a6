/** The address-handler trie of `OSCEventHandler`: one node per path segment, each node
    with its children and its own ordered list of subscriptions. */
module Trie {
  import opened Outcomes

  /** A callback is an opaque identity; its body is not modelled. */
  type CallbackId = nat

  /** `{token, callback}` as pushed by `on`. */
  datatype Sub = Sub(token: string, callback: CallbackId)

  /** A trie object: its child objects by segment, and its `_cb` list. The list is absent
      only on the root before anything was subscribed at the empty path; every node that
      `on` creates gets an empty list at once. */
  datatype Node = Node(children: map<string, Node>, cbs: Option<seq<Sub>>)

  /** The root as the router's constructor creates it: `{}`. */
  const Empty: Node := Node(map[], None)

  function ListOf(o: Option<seq<Sub>>): seq<Sub> {
    if o.Some? then o.value else []
  }

  /** The node reached by following every segment of the path, if each one exists. */
  function NodeAt(t: Node, path: seq<string>): (r: Option<Node>)
    ensures r.Some? && path != [] ==> NodeAt(t, path[..|path| - 1]).Some?
    decreases |path|
  {
    assert path != [] ==> path[..|path| - 1] == [] || path[..|path| - 1][1..] == path[1..][..|path| - 2];
    if path == [] then Some(t)
    else if path[0] in t.children then NodeAt(t.children[path[0]], path[1..])
    else None
  }

  /** The callback list of the node at exactly this path (null in the source when the
      node or its list is missing). */
  function Lookup(t: Node, path: seq<string>): (r: Option<seq<Sub>>)
    ensures NodeAt(t, path).None? ==> r.None?
    ensures path == [] ==> r == t.cbs
  {
    match NodeAt(t, path)
    case None => None
    case Some(n) => n.cbs
  }

  /** One step of the walk: extending a path by a segment moves to that child. */
  lemma {:induction false} NodeAtSnoc(t: Node, path: seq<string>, key: string)
    ensures NodeAt(t, path + [key]) ==
      match NodeAt(t, path)
      case None => None
      case Some(n) => if key in n.children then Some(n.children[key]) else None
    decreases |path|
  {
    if path == [] {
      assert [] + [key] == [key];
      assert [key][1..] == [];
    } else {
      assert (path + [key])[0] == path[0];
      assert (path + [key])[1..] == path[1..] + [key];
      if path[0] in t.children {
        NodeAtSnoc(t.children[path[0]], path[1..], key);
      }
    }
  }

  /** The trie after `on` subscribes s at the path: missing nodes along the path are
      created with empty lists, and s goes at the end of the terminal node's list. */
  function Insert(t: Node, path: seq<string>, s: Sub): (r: Node)
    ensures Lookup(r, path) == Some(ListOf(Lookup(t, path)) + [s])
    decreases |path|
  {
    if path == [] then t.(cbs := Some(ListOf(t.cbs) + [s]))
    else
      var child := if path[0] in t.children then t.children[path[0]] else Node(map[], Some([]));
      t.(children := t.children[path[0] := Insert(child, path[1..], s)])
  }

  /** After Insert, a node exists exactly where one existed before or on the way to the path. */
  lemma {:induction false} InsertNodes(t: Node, path: seq<string>, s: Sub, p: seq<string>)
    ensures NodeAt(Insert(t, path, s), p).Some? <==> NodeAt(t, p).Some? || p <= path
    decreases |path|
  {
    if path != [] && p != [] && p[0] == path[0] {
      var child := if path[0] in t.children then t.children[path[0]] else Node(map[], Some([]));
      InsertNodes(child, path[1..], s, p[1..]);
      if path[0] !in t.children {
        LeafNodeAt(child, p[1..]);
      }
      assert p <= path <==> p[1..] <= path[1..];
    }
  }

  lemma LeafNodeAt(n: Node, p: seq<string>)
    requires n.children == map[]
    ensures NodeAt(n, p).Some? <==> p == []
  {
  }

  /** What Insert does to every callback list: the terminal list gains s at its end,
      nodes it had to create on the way carry empty lists, and everything else is unchanged. */
  lemma {:induction false} InsertLookup(t: Node, path: seq<string>, s: Sub, p: seq<string>)
    ensures Lookup(Insert(t, path, s), p) ==
      if p == path then Some(ListOf(Lookup(t, p)) + [s])
      else if p <= path && NodeAt(t, p).None? then Some([])
      else Lookup(t, p)
    decreases |path|
  {
    if path != [] && p != [] && p[0] == path[0] {
      var child := if path[0] in t.children then t.children[path[0]] else Node(map[], Some([]));
      InsertLookup(child, path[1..], s, p[1..]);
      assert p == path <==> p[1..] == path[1..];
      assert p <= path <==> p[1..] <= path[1..];
      if path[0] !in t.children {
        LeafNodeAt(child, p[1..]);
      }
    }
  }

  /** The trie with the list of the node at the path replaced, as `splice` does in place. */
  function Replace(t: Node, path: seq<string>, l: seq<Sub>): (r: Node)
    ensures NodeAt(t, path).Some? ==> Lookup(r, path) == Some(l)
    ensures NodeAt(t, path).None? ==> r == t
    decreases |path|
  {
    if path == [] then t.(cbs := Some(l))
    else if path[0] in t.children then
      t.(children := t.children[path[0] := Replace(t.children[path[0]], path[1..], l)])
    else t
  }

  /** Replace changes the one list at the path, which must exist, and nothing else. */
  lemma {:induction false} ReplaceLookup(t: Node, path: seq<string>, l: seq<Sub>, p: seq<string>)
    requires NodeAt(t, path).Some?
    ensures Lookup(Replace(t, path, l), p) == if p == path then Some(l) else Lookup(t, p)
    decreases |path|
  {
    if path != [] && p != [] && p[0] == path[0] {
      ReplaceLookup(t.children[path[0]], path[1..], l, p[1..]);
      assert p == path <==> p[1..] == path[1..];
    }
  }

  /** Writing back the list that is already there changes nothing. */
  lemma {:induction false} ReplaceSame(t: Node, path: seq<string>)
    requires Lookup(t, path).Some?
    ensures Replace(t, path, Lookup(t, path).value) == t
    decreases |path|
  {
    if path != [] {
      ReplaceSame(t.children[path[0]], path[1..]);
    }
  }
}
