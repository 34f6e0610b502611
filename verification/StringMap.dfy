/** The byte trie of backend/src/zshared/string_map.h.

    A node holds no child, one inline child, or a table of child slots for the byte range
    [min, min + count). The C++ union of the inline child and the table is two fields here,
    and the table, which the source reallocates, is a sequence.

    The shape of the whole trie is a ghost map from paths to nodes. All operations are proved
    against the plain map from keys to values that the nodes spell out. */
module StringMaps {
  type byte = x: int | 0 <= x < 256
  type Key = seq<byte>

  datatype Option<+T> = None | Some(value: T)

  /** The part of a node the trie invariant speaks of. */
  datatype NodeView<V(0)> = NodeView(hasValue: bool, value: V, kids: map<byte, Node<V>>)

  class Node<V(0)> {
    var hasValue: bool
    var min: int
    var count: int
    var live: int
    var child: Node?<V>
    var table: seq<Node?<V>>
    var value: V
    ghost const path: Key
    ghost var kids: map<byte, Node<V>>

    constructor (ghost at: Key)
      ensures Shaped() && path == at && kids == map[] && IsRedundant()
    {
      hasValue, min, count, live := false, 0, 0, 0;
      child, table := null, [];
      path, kids := at, map[];
    }

    /** What the lookups find under byte c. */
    ghost function Slot(c: byte): Node?<V>
      reads `min, `count, `child, `table
    {
      if c < min || c >= min + count then null
      else if count == 1 then child
      else if c - min < |table| then table[c - min]
      else null
    }

    /** The slots hold exactly the children, and live counts them. */
    ghost predicate Laid()
      reads `min, `count, `live, `child, `table, `kids
    {
      && 0 <= min < 256 && 0 <= count && min + count <= 256
      && (count > 1 ==> |table| == count)
      && (forall c: byte :: Slot(c) == if c in kids then kids[c] else null)
      && live == |kids|
    }

    /** Between operations an inline slot is never empty, so lookups need no null check on it. */
    ghost predicate Shaped()
      reads `min, `count, `live, `child, `table, `kids
    {
      Laid() && (count == 1 ==> child != null)
    }

    predicate IsRedundant()
      reads this
    {
      !hasValue && live == 0
    }

    /** What the trie as a whole depends on. */
    ghost function Viewed(): NodeView<V>
      reads this
    {
      NodeView(hasValue, value, kids)
    }

    /** Grows the table, upwards or downwards, until it has a slot for c. No child moves. */
    method ExpandTable(c: byte)
      requires Shaped()
      modifies this`min, this`count, this`child, this`table
      ensures Laid() && min <= c < min + count
      ensures count == 1 && child == null ==> kids == map[]
      ensures old(count) > 0 ==> min <= old(min) && old(min) + old(count) <= min + count
    {
      if c < min || c >= min + count {
        if count == 0 {
          min, count, child := c, 1, null;
        } else if count == 1 {
          var oldc, oldp := min, child;
          count := (if min < c then c - min else min - c) + 1;
          var grown := Grow([], count);
          min := if min < c then min else c;
          table, child := grown[oldc - min := oldp], null;
        } else if min < c {
          count := c - min + 1;
          table := Grow(table, count);
        } else {
          var oldCount := count;
          count := (min + oldCount) - c;
          var zeros := Grow([], min - c);
          table, min := zeros + table, c;
        }
      }
    }

    /** Appends null slots up to the given size. */
    static method Grow(slots: seq<Node?<V>>, size: int) returns (grown: seq<Node?<V>>)
      requires |slots| <= size
      ensures |grown| == size && grown[..|slots|] == slots
      ensures forall i :: |slots| <= i < size ==> grown[i] == null
    {
      grown := slots;
      while |grown| < size
        invariant |slots| <= |grown| <= size && grown[..|slots|] == slots
        invariant forall i :: |slots| <= i < |grown| ==> grown[i] == null
      {
        grown := grown + [null];
      }
    }

    /** The step of both lookups to the child under c. The null check is left out on the inline child
        exactly as in the source; Shaped makes the step safe. */
    method Step(c: byte) returns (found: bool, next: Node<V>)
      requires Shaped()
      ensures found == (c in kids) && (found ==> next == kids[c])
    {
      if c < min || c >= min + count {
        return false, this;
      }
      if count == 1 {
        return true, child;
      }
      var slot := table[c - min];
      if slot == null {
        return false, this;
      }
      return true, slot;
    }

    /** Follows key down from the root. */
    method Get(key: Key, ghost nodes: Nodes<V>) returns (r: Option<V>)
      requires Sound(nodes, []) && nodes[[]] == this
      ensures r == Lookup(Contents(nodes), key)
    {
      var current := this;
      var i := 0;
      ghost var view, stored := View(nodes), Contents(nodes);
      while i < |key|
        invariant 0 <= i <= |key|
        invariant key[..i] in nodes && nodes[key[..i]] == current
      {
        var c := key[i];
        NextKeyByte(nodes, view, key, i);
        var found, next := current.Step(c);
        if !found {
          return None;
        }
        current := next;
        i := i + 1;
      }
      assert key[..i] == key;
      r := if current.hasValue then Some(current.value) else None;
    }

    /** Reads the query up to its terminating NUL and stops at the first node with a value. */
    method MatchPrefix(query: Key, ghost nodes: Nodes<V>) returns (r: Option<V>)
      requires 0 in query
      requires Sound(nodes, []) && nodes[[]] == this
      ensures r == FirstPrefix(Contents(nodes), Text(query), 1)
    {
      var current := this;
      var i := 0;
      ghost var text, view, stored := Text(query), View(nodes), Contents(nodes);
      while query[i] != 0
        invariant 0 <= i <= |text|
        invariant text[..i] in nodes && nodes[text[..i]] == current
        invariant FirstPrefix(stored, text, 1) == FirstPrefix(stored, text, i + 1)
        decreases |text| - i
      {
        var c := query[i];
        NextByte(nodes, view, text, i);
        var found, next := current.Step(c);
        if !found {
          return None;
        }
        current := next;
        if current.hasValue {
          return Some(current.value);
        }
        i := i + 1;
      }
      return None;
    }

    /** Walks down from the root, creating the missing nodes, and stores the value at the end. */
    method Add(key: Key, v: V, ghost nodes: Nodes<V>) returns (ghost grown: Nodes<V>)
      requires Sound(nodes, []) && nodes[[]] == this
      modifies nodes.Values
      ensures Sound(grown, []) && grown[[]] == this && Owned(grown, nodes) && Extends(grown, nodes)
      ensures Contents(grown) == old(Contents(nodes))[key := v]
    {
      var current := this;
      var i := 0;
      grown := nodes;
      while i < |key|
        invariant 0 <= i <= |key|
        invariant Sound(grown, key[..i]) && grown[[]] == this && Owned(grown, nodes) && Extends(grown, nodes)
        invariant key[..i] in grown && grown[key[..i]] == current
        invariant Contents(grown) == old(Contents(nodes))
      {
        TakeOneMore(key, i);
        current, grown := current.Descend(key[i], grown);
        i := i + 1;
      }
      assert key[..i] == key;
      current.Store(v, grown);
    }

    /** The end of Add: the value of this node is set, nothing else changes. */
    method Store(v: V, ghost nodes: Nodes<V>)
      requires Sound(nodes, path) && path in nodes && nodes[path] == this
      modifies this`value, this`hasValue
      ensures Sound(nodes, [])
      ensures Contents(nodes) == old(Contents(nodes))[path := v]
    {
      ghost var view := View(nodes);
      SetValue(v);
      forall p | p in nodes && p != path
        ensures nodes[p].Shaped() && nodes[p].Viewed() == view[p]
      {
        assert nodes[p].path == p;
      }
      StoreKeepsTree(nodes, view, path, v);
    }

    method SetValue(v: V)
      modifies this`value, this`hasValue
      ensures value == v && hasValue
    {
      value := v;
      hasValue := true;
    }

    /** One step of Add: moves to the child under c, creating it if there is none. */
    method Descend(c: byte, ghost nodes: Nodes<V>) returns (next: Node<V>, ghost grown: Nodes<V>)
      requires Sound(nodes, path) && path in nodes && nodes[path] == this
      modifies this
      ensures Sound(grown, path + [c])
      ensures path + [c] in grown && grown[path + [c]] == next
      ensures Owned(grown, nodes) && Extends(grown, nodes)
      ensures Contents(grown) == old(Contents(nodes))
    {
      ghost var view := View(nodes);
      ExpandTable(c);
      var slot := if count == 1 then child else table[c - min];
      if slot == null {
        NoKeyBelow(nodes, view, path + [c], path);
        next, grown := Sprout(c, nodes, view);
        NewPathExtends(nodes, path + [c], next);
      } else {
        next, grown := slot, nodes;
        KeepTree(nodes, view, path, c);
      }
    }

    /** Creates the missing child. */
    method Sprout(c: byte, ghost nodes: Nodes<V>, ghost view: map<Key, NodeView<V>>)
      returns (next: Node<V>, ghost grown: Nodes<V>)
      requires Laid() && min <= c < min + count && c !in kids
      requires count == 1 && child == null ==> kids == map[]
      requires Elsewhere(nodes, view, path) && Wired(nodes, view) && Lean(view, path)
      requires nodes[path] == this && Viewed() == view[path] && path + [c] !in view
      modifies this`child, this`table, this`live, this`kids
      ensures path + [c] !in nodes && grown == nodes[path + [c] := next] && fresh(next)
      ensures Sound(grown, path + [c]) && Contents(grown) == Spelled(view)
    {
      next := new Node(path + [c]);
      Hang(c, next);
      grown := nodes[path + [c] := next];
      GrowKeepsTree(nodes, view, path, c, next);
    }

    /** Fills the empty slot of c. */
    method Hang(c: byte, made: Node<V>)
      requires Laid() && min <= c < min + count && c !in kids
      requires count == 1 && child == null ==> kids == map[]
      modifies this`child, this`table, this`live, this`kids
      ensures Shaped() && kids == old(kids)[c := made]
    {
      if count == 1 {
        child := made;
      } else {
        table := table[c - min := made];
      }
      kids := kids[c := made];
      live := live + 1;
    }

    /** Clears the value at key and prunes what became redundant on the way back up. Only the
        root of the recursion may stay redundant; its caller prunes it. */
    method Remove(key: Key, ghost nodes: Nodes<V>) returns (ret: bool, ghost left: Nodes<V>)
      requires Sound(nodes, []) && path in nodes && nodes[path] == this
      modifies nodes.Values
      ensures Sound(left, path) && Extends(nodes, left)
      ensures forall p :: p in nodes && |p| <= |path| ==> p in left
      ensures forall p :: p in nodes && |p| < |path| ==> unchanged(nodes[p])
      ensures Contents(left) == Without(old(Contents(nodes)), path + key)
      ensures ret == (path + key in old(Contents(nodes)))
      decreases |key|, 0
    {
      if key == [] {
        assert path + key == path;
        ret := Erase(nodes);
        return ret, nodes;
      }
      ghost var view := View(nodes);
      var c := key[0];
      assert path + [c] + key[1..] == path + key;
      if c !in kids {
        NoKeyBelow(nodes, view, path + key, path);
      }
      if count == 0 || c < min || c >= min + count {
        return false, nodes;
      }
      var next := if count == 1 then child else table[c - min];
      if next == null {
        return false, nodes;
      }
      ret, left := RemoveBelow(c, next, key[1..], path + key, nodes);
    }

    /** The recursive call of Remove and the pruning after it. */
    method RemoveBelow(c: byte, next: Node<V>, rest: Key, ghost full: Key, ghost nodes: Nodes<V>)
      returns (ret: bool, ghost left: Nodes<V>)
      requires Sound(nodes, []) && path in nodes && nodes[path] == this
      requires c in kids && kids[c] == next && full == path + [c] + rest
      modifies nodes.Values
      ensures Sound(left, path) && Extends(nodes, left)
      ensures forall p :: p in nodes && |p| <= |path| ==> p in left
      ensures forall p :: p in nodes && |p| < |path| ==> unchanged(nodes[p])
      ensures Contents(left) == Without(old(Contents(nodes)), full)
      ensures ret == (full in old(Contents(nodes)))
      decreases |rest|, 1
    {
      ChildIn(nodes, View(nodes), path, c);
      ghost var mid;
      ret, mid := next.Remove(rest, nodes);
      assert mid[path] == this && mid[path + [c]] == next;
      left := Prune(c, next, mid);
    }

    /** The end of Remove: the value of this node is cleared. */
    method Erase(ghost nodes: Nodes<V>) returns (ret: bool)
      requires Sound(nodes, []) && path in nodes && nodes[path] == this
      modifies this`hasValue
      ensures Sound(nodes, path)
      ensures Contents(nodes) == Without(old(Contents(nodes)), path)
      ensures ret == (path in old(Contents(nodes)))
    {
      ghost var view := View(nodes);
      if !hasValue {
        return false;
      }
      hasValue := false;
      EraseKeepsTree(nodes, view, path);
      return true;
    }

    /** The way back up in Remove: deletes the child under c if it became redundant. */
    method Prune(c: byte, next: Node<V>, ghost nodes: Nodes<V>) returns (ghost left: Nodes<V>)
      requires Sound(nodes, path + [c]) && path in nodes && nodes[path] == this
      requires c in kids && path + [c] in nodes && nodes[path + [c]] == next
      modifies this`child, this`count, this`table, this`live, this`kids
      ensures Sound(left, path) && Contents(left) == old(Contents(nodes))
      ensures Extends(nodes, left) && forall p :: p in nodes && |p| <= |path| ==> p in left
    {
      left := nodes;
      if next.IsRedundant() {
        ghost var view := View(nodes);
        Drop(c);
        PruneKeepsTree(nodes, view, path, c);
        left := Without(nodes, path + [c]);
      }
    }

    /** Empties the slot of c. */
    method Drop(c: byte)
      requires Shaped() && c in kids
      modifies this`child, this`count, this`table, this`live, this`kids
      ensures Shaped() && kids == Without(old(kids), c)
    {
      if count == 1 {
        child := null;
        count := 0;
      } else {
        table := table[c - min := null];
      }
      assert kids.Keys - {c} == Without(kids, c).Keys;
      live := live - 1;
      kids := Without(kids, c);
    }
  }

  type Nodes<V(0)> = map<Key, Node<V>>

  /** Every node was there before, at the same path, or is new. */
  twostate predicate Owned<V(0)>(new now: Nodes<V>, before: Nodes<V>) {
    forall p :: p in now ==> fresh(now[p]) || (p in before && now[p] == before[p])
  }

  ghost predicate Extends<V(0)>(grown: Nodes<V>, nodes: Nodes<V>) {
    forall p :: p in nodes ==> p in grown && grown[p] == nodes[p]
  }

  lemma NewPathExtends<V(0)>(nodes: Nodes<V>, q: Key, made: Node<V>)
    requires q !in nodes
    ensures Extends(nodes[q := made], nodes)
    ensures forall p :: p in nodes[q := made] ==> (p == q && nodes[q := made][p] == made) || (p in nodes && nodes[q := made][p] == nodes[p])
  {
  }

  ghost function Without<K, T>(m: map<K, T>, k: K): map<K, T> {
    map x | x in m && x != k :: m[x]
  }

  /** The bytes of a C string. */
  ghost function Text(query: Key): (t: Key)
    requires 0 in query
    ensures |t| < |query| && query[|t|] == 0 && t == query[..|t|] && 0 !in t
  {
    if query[0] == 0 then [] else [query[0]] + Text(query[1..])
  }

  /** The value of the shortest stored prefix of the text that has at least n bytes. */
  ghost function FirstPrefix<V>(m: map<Key, V>, text: Key, n: nat): Option<V>
    decreases |text| - n
  {
    if n > |text| then None
    else if text[..n] in m then Some(m[text[..n]])
    else FirstPrefix(m, text, n + 1)
  }

  ghost predicate IsShortestPrefix<V>(m: map<Key, V>, text: Key, n: nat, k: Key) {
    && k in m && |k| >= n && k <= text
    && forall q :: q in m && |q| >= n && q <= text ==> |k| <= |q|
  }

  /** FirstPrefix finds a prefix exactly when there is one, and then the shortest. */
  lemma {:induction false} FirstPrefixIsShortest<V>(m: map<Key, V>, text: Key, n: nat)
    ensures FirstPrefix(m, text, n).None? <==> forall k :: k in m && |k| >= n ==> !(k <= text)
    ensures forall k :: IsShortestPrefix(m, text, n, k) ==> FirstPrefix(m, text, n) == Some(m[k])
    decreases |text| - n
  {
    if n <= |text| {
      assert forall k :: k <= text && |k| == n ==> k == text[..n];
      if text[..n] !in m {
        FirstPrefixIsShortest(m, text, n + 1);
        assert forall k :: IsShortestPrefix(m, text, n, k) ==> IsShortestPrefix(m, text, n + 1, k);
      }
    }
  }

  ghost function Lookup<V>(m: map<Key, V>, key: Key): Option<V> {
    if key in m then Some(m[key]) else None
  }

  ghost function View<V(0)>(nodes: Nodes<V>): map<Key, NodeView<V>>
    reads nodes.Values
  {
    map p | p in nodes :: nodes[p].Viewed()
  }

  /** The key/value pairs a set of nodes spells out. */
  ghost function Spelled<V(0)>(view: map<Key, NodeView<V>>): map<Key, V> {
    map p | p in view && view[p].hasValue :: view[p].value
  }

  ghost function Contents<V(0)>(nodes: Nodes<V>): map<Key, V>
    reads nodes.Values
  {
    Spelled(View(nodes))
  }

  ghost function Parent(p: Key): Key
    requires p != []
  {
    p[..|p| - 1]
  }

  /** The node at p hangs from its parent, and its children are the nodes at the one-byte
      extensions of p. */
  ghost predicate Hung<V(0)>(nodes: Nodes<V>, view: map<Key, NodeView<V>>, p: Key)
    requires p in view
  {
    && (p != [] ==> Parent(p) in view && p[|p| - 1] in view[Parent(p)].kids)
    && (forall c :: c in view[p].kids ==> p + [c] in nodes && nodes[p + [c]] == view[p].kids[c])
  }

  ghost predicate Wired<V(0)>(nodes: Nodes<V>, view: map<Key, NodeView<V>>) {
    && [] in nodes && view.Keys == nodes.Keys
    && forall p {:trigger Hung(nodes, view, p)} :: p in view ==> Hung(nodes, view, p)
  }

  /** Only the root and the node at path `spare` may hold neither a value nor a child. */
  ghost predicate Lean<V(0)>(view: map<Key, NodeView<V>>, spare: Key) {
    forall p :: p in view && p != [] && p != spare ==> view[p].hasValue || view[p].kids != map[]
  }

  ghost predicate Named<V(0)>(nodes: Nodes<V>) {
    forall p :: p in nodes ==> nodes[p].path == p
  }

  ghost predicate AllShaped<V(0)>(nodes: Nodes<V>)
    reads nodes.Values
  {
    forall p :: p in nodes ==> nodes[p].Shaped()
  }

  /** The trie invariant. */
  ghost predicate Sound<V(0)>(nodes: Nodes<V>, spare: Key)
    reads nodes.Values
  {
    && Named(nodes) && AllShaped(nodes)
    && Wired(nodes, View(nodes)) && Lean(View(nodes), spare)
  }

  lemma TakeOneMore(key: Key, i: nat)
    requires i < |key|
    ensures key[..i + 1] == key[..i] + [key[i]]
  {
  }

  lemma {:induction false} PrefixIn<V(0)>(nodes: Nodes<V>, view: map<Key, NodeView<V>>, p: Key, n: nat)
    requires Wired(nodes, view) && p in nodes && n <= |p|
    ensures p[..n] in nodes
    decreases |p|
  {
    if n == |p| {
      assert p[..n] == p;
    } else {
      assert Hung(nodes, view, p);
      PrefixIn(nodes, view, Parent(p), n);
      assert Parent(p)[..n] == p[..n];
    }
  }

  /** A byte without a child at `at` rules out every longer path through it. */
  lemma NoKeyBelow<V(0)>(nodes: Nodes<V>, view: map<Key, NodeView<V>>, p: Key, at: Key)
    requires Wired(nodes, view)
    requires at in nodes && at < p && p[|at|] !in view[at].kids
    ensures p !in nodes && Without(Spelled(view), p) == Spelled(view)
  {
    var q := p[..|at| + 1];
    assert Parent(q) == at;
    if p in nodes {
      PrefixIn(nodes, view, p, |q|);
      if Hung(nodes, view, q) {
        assert false;
      }
    }
  }

  /** Every node other than the one at `at` is as it was when the view was taken. */
  ghost predicate Elsewhere<V(0)>(nodes: Nodes<V>, view: map<Key, NodeView<V>>, at: Key)
    reads nodes.Values
  {
    && at in view && view.Keys == nodes.Keys
    && Named(nodes)
    && forall p :: p in nodes && p != at ==> nodes[p].Shaped() && nodes[p].Viewed() == view[p]
  }

  lemma NextKeyByte<V(0)>(nodes: Nodes<V>, view: map<Key, NodeView<V>>, key: Key, i: nat)
    requires Wired(nodes, view) && i < |key| && key[..i] in nodes
    ensures if key[i] in view[key[..i]].kids
            then key[..i + 1] in nodes && nodes[key[..i + 1]] == view[key[..i]].kids[key[i]]
            else key !in Spelled(view)
  {
    TakeOneMore(key, i);
    if key[i] in view[key[..i]].kids {
      ChildIn(nodes, view, key[..i], key[i]);
    } else {
      NoKeyBelow(nodes, view, key, key[..i]);
    }
  }

  lemma NextByte<V(0)>(nodes: Nodes<V>, view: map<Key, NodeView<V>>, text: Key, i: nat)
    requires Wired(nodes, view) && i < |text| && text[..i] in nodes
    ensures if text[i] in view[text[..i]].kids
            then text[..i + 1] in nodes && nodes[text[..i + 1]] == view[text[..i]].kids[text[i]]
            else FirstPrefix(Spelled(view), text, i + 1).None?
  {
    TakeOneMore(text, i);
    if text[i] in view[text[..i]].kids {
      ChildIn(nodes, view, text[..i], text[i]);
    } else {
      NoPrefixBelow(nodes, view, text, i, i + 1);
    }
  }

  /** A missing child ends the search for stored prefixes of the text. */
  lemma {:induction false} NoPrefixBelow<V(0)>(nodes: Nodes<V>, view: map<Key, NodeView<V>>, text: Key, i: nat, n: nat)
    requires Wired(nodes, view) && i < n
    requires i < |text| && text[..i] in nodes && text[i] !in view[text[..i]].kids
    ensures FirstPrefix(Spelled(view), text, n).None?
    decreases |text| - n
  {
    if n <= |text| {
      var k := text[..n];
      assert text[..i] == k[..i] && text[i] == k[i];
      NoKeyBelow(nodes, view, k, text[..i]);
      NoPrefixBelow(nodes, view, text, i, n + 1);
    }
  }

  /** Storing a value at one node. */
  lemma StoreKeepsTree<V(0)>(nodes: Nodes<V>, view: map<Key, NodeView<V>>, at: Key, v: V)
    requires Elsewhere(nodes, view, at) && nodes[at].Shaped() && nodes[at].Viewed() == NodeView(true, v, view[at].kids)
    requires Wired(nodes, view) && Lean(view, at)
    ensures Sound(nodes, []) && Contents(nodes) == Spelled(view)[at := v]
  {
    assert View(nodes) == view[at := NodeView(true, v, view[at].kids)];
    StoreWires(nodes, view, at, v);
  }

  lemma StoreWires<V(0)>(nodes: Nodes<V>, view: map<Key, NodeView<V>>, at: Key, v: V)
    requires Wired(nodes, view) && Lean(view, at) && at in view
    ensures var after := view[at := NodeView(true, v, view[at].kids)];
            Wired(nodes, after) && Lean(after, []) && Spelled(after) == Spelled(view)[at := v]
  {
    var after := view[at := NodeView(true, v, view[at].kids)];
    assert Spelled(after) == Spelled(view)[at := v];
    assert Wired(nodes, after) by {
      forall p | p in after ensures Hung(nodes, after, p) {
        assert Hung(nodes, view, p);
      }
    }
  }

  lemma ChildIn<V(0)>(nodes: Nodes<V>, view: map<Key, NodeView<V>>, at: Key, c: byte)
    requires Wired(nodes, view) && at in view && c in view[at].kids
    ensures at + [c] in nodes && nodes[at + [c]] == view[at].kids[c]
  {
    assert Hung(nodes, view, at);
  }

  /** Stepping to a child that is there. */
  lemma KeepTree<V(0)>(nodes: Nodes<V>, view: map<Key, NodeView<V>>, at: Key, c: byte)
    requires Elsewhere(nodes, view, at) && nodes[at].Shaped() && nodes[at].Viewed() == view[at] && c in view[at].kids
    requires Wired(nodes, view) && Lean(view, at)
    ensures at + [c] in nodes && nodes[at + [c]] == view[at].kids[c]
    ensures Sound(nodes, at + [c]) && Contents(nodes) == Spelled(view)
  {
    ChildIn(nodes, view, at, c);
    assert View(nodes) == view;
    assert view[at].kids != map[];
  }

  /** Hanging a new, empty node under a node that lacked that child. */
  lemma GrowKeepsTree<V(0)>(nodes: Nodes<V>, view: map<Key, NodeView<V>>, at: Key, c: byte, made: Node<V>)
    requires Elsewhere(nodes, view, at) && nodes[at].Shaped() && c !in view[at].kids && at + [c] !in view
    requires nodes[at].Viewed() == view[at].(kids := view[at].kids[c := made])
    requires made.path == at + [c] && made.Shaped() && made.Viewed() == NodeView(false, made.value, map[])
    requires Wired(nodes, view) && Lean(view, at)
    ensures var grown := nodes[at + [c] := made];
            Sound(grown, at + [c]) && Contents(grown) == Spelled(view)
  {
    var grown := nodes[at + [c] := made];
    GrowWires(nodes, view, at, c, made, made.value);
    var after := view[at := view[at].(kids := view[at].kids[c := made])];
    var wider := after[at + [c] := NodeView(false, made.value, map[])];
    assert View(grown) == wider;
  }

  lemma GrowWires<V(0)>(nodes: Nodes<V>, view: map<Key, NodeView<V>>, at: Key, c: byte, made: Node<V>, v: V)
    requires Wired(nodes, view) && Lean(view, at) && at in view
    requires c !in view[at].kids && at + [c] !in view
    ensures var after := view[at := view[at].(kids := view[at].kids[c := made])];
            var wider := after[at + [c] := NodeView(false, v, map[])];
            Wired(nodes[at + [c] := made], wider) && Lean(wider, at + [c]) && Spelled(wider) == Spelled(view)
  {
    var after := view[at := view[at].(kids := view[at].kids[c := made])];
    var grown, wider := nodes[at + [c] := made], after[at + [c] := NodeView(false, v, map[])];
    assert Spelled(wider) == Spelled(view);
    assert c in wider[at].kids;
    assert Wired(grown, wider) by {
      forall p | p in wider ensures Hung(grown, wider, p) {
        GrowHung(nodes, view, at, c, made, v, p);
      }
    }
  }

  lemma GrowHung<V(0)>(nodes: Nodes<V>, view: map<Key, NodeView<V>>, at: Key, c: byte, made: Node<V>, v: V, p: Key)
    requires Wired(nodes, view) && at in view && c !in view[at].kids && at + [c] !in view
    requires p in view || p == at + [c]
    ensures var after := view[at := view[at].(kids := view[at].kids[c := made])];
            Hung(nodes[at + [c] := made], after[at + [c] := NodeView(false, v, map[])], p)
  {
    if p in view {
      assert Hung(nodes, view, p);
    } else {
      assert Parent(p) == at;
    }
  }

  /** Clearing the value of one node, which may leave it redundant. */
  lemma EraseKeepsTree<V(0)>(nodes: Nodes<V>, view: map<Key, NodeView<V>>, at: Key)
    requires Elsewhere(nodes, view, at) && nodes[at].Shaped()
    requires nodes[at].Viewed() == view[at].(hasValue := false)
    requires Wired(nodes, view) && Lean(view, [])
    ensures Sound(nodes, at) && Contents(nodes) == Without(Spelled(view), at)
  {
    assert View(nodes) == view[at := view[at].(hasValue := false)];
    EraseWires(nodes, view, at);
  }

  lemma EraseWires<V(0)>(nodes: Nodes<V>, view: map<Key, NodeView<V>>, at: Key)
    requires Wired(nodes, view) && Lean(view, []) && at in view
    ensures var after := view[at := view[at].(hasValue := false)];
            Wired(nodes, after) && Lean(after, at) && Spelled(after) == Without(Spelled(view), at)
  {
    var after := view[at := view[at].(hasValue := false)];
    assert Spelled(after) == Without(Spelled(view), at);
    assert Wired(nodes, after) by {
      forall p | p in after ensures Hung(nodes, after, p) {
        assert Hung(nodes, view, p);
      }
    }
  }

  /** Deleting a node that holds neither a value nor a child. */
  lemma PruneKeepsTree<V(0)>(nodes: Nodes<V>, view: map<Key, NodeView<V>>, at: Key, c: byte)
    requires Elsewhere(nodes, view, at) && nodes[at].Shaped()
    requires c in view[at].kids && nodes[at].Viewed() == view[at].(kids := Without(view[at].kids, c))
    requires at + [c] in nodes && nodes[at + [c]].IsRedundant()
    requires Wired(nodes, view) && Lean(view, at + [c])
    ensures Sound(Without(nodes, at + [c]), at) && Contents(Without(nodes, at + [c])) == Spelled(view)
  {
    var q := at + [c];
    assert nodes[q].kids.Keys == {};
    PruneWires(nodes, view, at, c);
    var after := view[at := view[at].(kids := Without(view[at].kids, c))];
    assert View(Without(nodes, q)) == Without(after, q);
  }

  lemma PruneWires<V(0)>(nodes: Nodes<V>, view: map<Key, NodeView<V>>, at: Key, c: byte)
    requires Wired(nodes, view) && Lean(view, at + [c]) && at in view && at + [c] in view
    requires view[at + [c]].kids == map[] && !view[at + [c]].hasValue
    ensures var after := view[at := view[at].(kids := Without(view[at].kids, c))];
            Wired(Without(nodes, at + [c]), Without(after, at + [c])) && Lean(Without(after, at + [c]), at)
            && Spelled(Without(after, at + [c])) == Spelled(view)
  {
    var q := at + [c];
    var after := view[at := view[at].(kids := Without(view[at].kids, c))];
    var fewer, less := Without(nodes, q), Without(after, q);
    assert Spelled(less) == Spelled(view);
    assert Wired(fewer, less) by {
      forall p | p in less ensures Hung(fewer, less, p) {
        PruneHung(nodes, view, at, c, p, fewer, less);
      }
    }
  }

  lemma PruneHung<V(0)>(nodes: Nodes<V>, view: map<Key, NodeView<V>>, at: Key, c: byte, p: Key,
                        fewer: Nodes<V>, less: map<Key, NodeView<V>>)
    requires Wired(nodes, view) && at in view && at + [c] in view && view[at + [c]].kids == map[]
    requires fewer == Without(nodes, at + [c])
    requires less == Without(view[at := view[at].(kids := Without(view[at].kids, c))], at + [c])
    requires p in less
    ensures Hung(fewer, less, p)
  {
    var q := at + [c];
    assert Hung(nodes, view, p) && Parent(q) == at;
    assert p != [] && Parent(p) == at && p[|p| - 1] == c ==> p == q;
    forall b | b in less[p].kids ensures p + [b] != q {
      assert Parent(p + [b]) == p;
    }
  }

  ghost function Under<T>(view: map<Key, T>, p: Key): set<Key> {
    set q | q in view && p <= q
  }

  /** From every node but the root one can go on down to a stored key. */
  lemma {:induction false} KeyBelow<V(0)>(nodes: Nodes<V>, view: map<Key, NodeView<V>>, p: Key) returns (k: Key)
    requires Wired(nodes, view) && Lean(view, [])
    requires p in view && p != []
    ensures k in Spelled(view) && p <= k
    decreases Under(view, p)
  {
    if view[p].hasValue {
      return p;
    }
    var c :| c in view[p].kids;
    ChildIn(nodes, view, p, c);
    assert p in Under(view, p) && p !in Under(view, p + [c]);
    assert Under(view, p + [c]) <= Under(view, p);
    k := KeyBelow(nodes, view, p + [c]);
  }

  /** The non-root nodes are exactly the non-empty prefixes of the stored keys, one node each. */
  lemma NodesArePrefixes<V(0)>(nodes: Nodes<V>)
    requires Sound(nodes, [])
    ensures forall p :: p in nodes <==> p == [] || exists k :: k in Contents(nodes) && p <= k
    ensures forall p, q :: p in nodes && q in nodes && nodes[p] == nodes[q] ==> p == q
  {
    forall p | p in nodes && p != [] ensures exists k :: k in Contents(nodes) && p <= k {
      var k := KeyBelow(nodes, View(nodes), p);
      assert k in Contents(nodes) && p <= k;
    }
    forall p, k | k in Contents(nodes) && p <= k ensures p in nodes {
      PrefixIn(nodes, View(nodes), k, |p|);
      assert p == k[..|p|];
    }
  }

  class StringMap<V(0)> {
    var root: Node<V>
    ghost var nodes: Nodes<V>

    ghost predicate Valid()
      reads this, nodes.Values
    {
      Sound(nodes, []) && nodes[[]] == root
    }

    /** The plain map this trie stands for. */
    ghost function Stored(): map<Key, V>
      reads this, nodes.Values
    {
      Contents(nodes)
    }

    constructor ()
      ensures Valid() && Stored() == map[] && fresh(nodes.Values)
    {
      var made, sole := NewRoot();
      root, nodes := made, sole;
    }

    static method NewRoot() returns (root: Node<V>, ghost nodes: Nodes<V>)
      ensures Sound(nodes, []) && nodes.Keys == {[]} && nodes[[]] == root && fresh(root)
      ensures Contents(nodes) == map[]
    {
      root := new Node([]);
      nodes := map[[] := root];
      SoleNode(nodes);
    }

    method Clear()
      requires Valid()
      modifies this
      ensures Valid() && Stored() == map[] && Owned(nodes, old(nodes))
    {
      var made, sole := NewRoot();
      SetRoot(made, sole);
      Adopt(sole);
    }

    method SetRoot(made: Node<V>, ghost now: Nodes<V>)
      requires Sound(now, [])
      modifies this`root
      ensures root == made && Sound(now, []) && Contents(now) == old(Contents(now))
    {
      root := made;
    }

    /** The tree is now made of these nodes. */
    ghost method Adopt(now: Nodes<V>)
      requires Sound(now, [])
      modifies this`nodes
      ensures nodes == now && Sound(now, []) && Contents(now) == old(Contents(now))
    {
      nodes := now;
    }

    method Get(key: Key) returns (r: Option<V>)
      requires Valid()
      ensures r == Lookup(Stored(), key)
    {
      r := root.Get(key, nodes);
    }

    method MatchPrefix(query: Key) returns (r: Option<V>)
      requires Valid() && 0 in query
      ensures r == FirstPrefix(Stored(), Text(query), 1)
    {
      r := root.MatchPrefix(query, nodes);
    }

    method Add(key: Key, v: V)
      requires Valid()
      modifies this, nodes.Values
      ensures Valid() && Owned(nodes, old(nodes))
      ensures Stored() == old(Stored())[key := v]
    {
      ghost var grown := root.Add(key, v, nodes);
      Adopt(grown);
    }

    method Remove(key: Key) returns (ret: bool)
      requires Valid()
      modifies this, nodes.Values
      ensures Valid() && Owned(nodes, old(nodes))
      ensures Stored() == Without(old(Stored()), key)
      ensures ret == (key in old(Stored()))
    {
      assert root.path + key == key;
      ghost var left;
      ret, left := root.Remove(key, nodes);
      Adopt(left);
    }

    /** operator[]: the stored value, after adding the default value if there is none. */
    method Index(key: Key, default: V) returns (v: V)
      requires Valid()
      modifies this, nodes.Values
      ensures Valid() && Owned(nodes, old(nodes))
      ensures key in Stored() && v == Stored()[key]
      ensures Stored() == if key in old(Stored()) then old(Stored()) else old(Stored())[key := default]
    {
      var found := Get(key);
      if found.None? {
        Add(key, default);
        return default;
      }
      return found.value;
    }

    method Perform(op: Op<V>)
      requires Valid()
      modifies this, nodes.Values
      ensures Valid() && Owned(nodes, old(nodes))
      ensures Stored() == Effect(old(Stored()), op)
    {
      match op
      case Put(k, v) => Add(k, v);
      case Delete(k) => var gone := Remove(k);
      case Reset => Clear();
    }

    /** Any history of calls does to the trie what it does to a plain map. */
    method Replay(ops: seq<Op<V>>)
      requires Valid()
      modifies this, nodes.Values
      ensures Valid() && Owned(nodes, old(nodes))
      ensures Stored() == Outcome(old(Stored()), ops)
    {
      if ops != [] {
        Replay(ops[..|ops| - 1]);
        Perform(ops[|ops| - 1]);
      }
    }
  }

  lemma SoleNode<V(0)>(nodes: Nodes<V>)
    requires nodes.Keys == {[]} && nodes[[]].path == [] && nodes[[]].Shaped()
    requires nodes[[]].kids == map[] && !nodes[[]].hasValue
    ensures Sound(nodes, []) && Contents(nodes) == map[]
  {
    var view := View(nodes);
    forall p | p in view ensures Hung(nodes, view, p) {
    }
  }

  datatype Op<V> = Put(key: Key, value: V) | Delete(key: Key) | Reset

  ghost function Effect<V>(m: map<Key, V>, op: Op<V>): map<Key, V> {
    match op
    case Put(k, v) => m[k := v]
    case Delete(k) => Without(m, k)
    case Reset => map[]
  }

  ghost function Outcome<V>(m: map<Key, V>, ops: seq<Op<V>>): map<Key, V> {
    if ops == [] then m else Effect(Outcome(m, ops[..|ops| - 1]), ops[|ops| - 1])
  }

  ghost predicate Touches<V>(op: Op<V>, k: Key) {
    op.Reset? || op.key == k
  }

  /** After any history a key has the value of the last Put on it, if that was not undone. */
  lemma {:induction false} LastTouchDecides<V>(m: map<Key, V>, ops: seq<Op<V>>, k: Key, last: int)
    requires -1 <= last < |ops|
    requires last >= 0 ==> Touches(ops[last], k)
    requires forall i :: last < i < |ops| ==> !Touches(ops[i], k)
    ensures Lookup(Outcome(m, ops), k) ==
            if last < 0 then Lookup(m, k)
            else if ops[last].Put? then Some(ops[last].value)
            else None
  {
    if last < |ops| - 1 {
      LastTouchDecides(m, ops[..|ops| - 1], k, last);
    }
  }
}
