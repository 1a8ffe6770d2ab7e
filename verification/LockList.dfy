/**
 The shared linked list of per-file locks. `tail` stays null until the list has
 two nodes; the list is only ever extended, one new name at a time.
 */
module LockList {

  /** The position of a name, or the length when it is not there. */
  function IndexOf(names: seq<string>, name: string): (i: nat)
    ensures i <= |names|
    ensures forall j :: 0 <= j < i ==> names[j] != name
    ensures i < |names| ==> names[i] == name
  {
    if names == [] || names[0] == name then 0 else 1 + IndexOf(names[1..], name)
  }

  lemma FirstIndex(names: seq<string>, name: string, i: nat)
    requires i < |names| && names[i] == name
    requires forall j :: 0 <= j < i ==> names[j] != name
    ensures IndexOf(names, name) == i
  {
    var j := IndexOf(names, name);
    assert !(i < j) && !(j < i);
  }

  /** Lookup or insert, on the names alone. */
  function Registered(names: seq<string>, name: string): seq<string> {
    if name in names || name == "" then names else names + [name]
  }

  predicate Distinct(names: seq<string>) {
    forall i, j :: 0 <= i < j < |names| ==> names[i] != names[j]
  }

  /** Serving further names keeps names distinct and never moves the lock of a name already served. */
  lemma RegisteredKeeps(names: seq<string>, name: string, other: string)
    requires Distinct(names) && "" !in names
    ensures Distinct(Registered(names, other)) && "" !in Registered(names, other)
    ensures name in names ==> IndexOf(Registered(names, other), name) == IndexOf(names, name)
    ensures other != "" ==> IndexOf(Registered(names, other), other) == IndexOf(names, other)
  {
    var after := Registered(names, other);
    if name in names {
      FirstIndex(after, name, IndexOf(names, name));
    }
    if other != "" {
      FirstIndex(after, other, IndexOf(names, other));
    }
  }

  class LockNode {
    const filename: string
    var next: LockNode?

    constructor (filename: string)
      ensures this.filename == filename && next == null
    {
      this.filename := filename;
      next := null;
    }
  }

  function NamesOf(nodes: seq<LockNode>): (names: seq<string>)
    ensures |names| == |nodes|
    ensures forall i :: 0 <= i < |nodes| ==> names[i] == nodes[i].filename
  {
    seq(|nodes|, i requires 0 <= i < |nodes| => nodes[i].filename)
  }

  class FileLockList {
    var length: int
    var head: LockNode?
    var tail: LockNode?
    var mutexHeld: bool
    ghost var nodes: seq<LockNode>

    /** Without the names: the chain from `head` is exactly `nodes`. */
    ghost predicate Linked()
      reads `length, `head, `tail, `nodes, nodes
    {
      && length == |nodes|
      && head == (if nodes == [] then null else nodes[0])
      && tail == (if |nodes| < 2 then null else nodes[|nodes| - 1])
      && (forall i :: 0 <= i < |nodes| - 1 ==> nodes[i].next == nodes[i + 1])
      && (nodes != [] ==> nodes[|nodes| - 1].next == null)
      && (forall i, j :: 0 <= i < j < |nodes| ==> nodes[i] != nodes[j])
    }

    ghost function Names(): (names: seq<string>)
      reads `nodes
      ensures |names| == |nodes|
      ensures forall i :: 0 <= i < |nodes| ==> names[i] == nodes[i].filename
    {
      NamesOf(nodes)
    }

    ghost predicate Valid()
      reads `length, `head, `tail, `nodes, nodes
    {
      Linked() && Distinct(Names()) && "" !in Names()
    }

    constructor ()
      ensures Valid() && nodes == [] && !mutexHeld
    {
      length, head, tail, mutexHeld, nodes := 0, null, null, false, [];
    }

    method CreateLockNode(filename: string) returns (node: LockNode?)
      ensures node == null <==> filename == ""
      ensures node != null ==> fresh(node) && node.filename == filename && node.next == null
    {
      if filename == "" {
        return null;
      }
      node := new LockNode(filename);
    }

    method AddLockToList(newLock: LockNode?)
      requires Linked()
      requires newLock != null ==> newLock.next == null && newLock !in nodes
      modifies this, nodes
      ensures Linked() && mutexHeld == old(mutexHeld)
      ensures nodes == old(nodes) + if newLock == null then [] else [newLock]
      ensures Names() == old(Names()) + if newLock == null then [] else [newLock.filename]
    {
      if newLock == null {
        return;
      }
      if length == 0 {
        head := newLock;
        length := length + 1;
      } else if length == 1 {
        head.next := newLock;
        tail := newLock;
        length := length + 1;
      } else {
        tail.next := newLock;
        tail := newLock;
        length := length + 1;
      }
      nodes := nodes + [newLock];
    }

    /** The linear search of `getLockFor`. */
    method Search(filename: string) returns (node: LockNode?)
      requires Valid()
      ensures node == null ==> filename !in Names()
      ensures node != null ==> filename in Names() && node == nodes[IndexOf(Names(), filename)]
    {
      var curr := head;
      var i := 0;
      while i < length
        invariant 0 <= i <= length
        invariant i < length ==> curr == nodes[i]
        invariant forall j :: 0 <= j < i ==> nodes[j].filename != filename
        decreases length - i
      {
        if curr.filename == filename {
          FirstIndex(Names(), filename, i);
          return curr;
        }
        curr := curr.next;
        i := i + 1;
      }
      node := null;
    }

    /** Lookup or insert, under the list's mutex. */
    method GetLockFor(filename: string) returns (node: LockNode?)
      requires Valid() && !mutexHeld
      modifies this, nodes
      ensures Valid() && !mutexHeld
      ensures Names() == Registered(old(Names()), filename)
      ensures old(nodes) <= nodes
      ensures filename == "" ==> node == null
      ensures filename != "" ==> node == nodes[IndexOf(Names(), filename)]
      ensures filename != "" && filename !in old(Names()) ==> fresh(node)
    {
      hide NamesOf, Distinct, IndexOf;
      mutexHeld := true;
      node := Search(filename);
      if node != null {
        mutexHeld := false;
        return;
      }
      node := Insert(filename);
      mutexHeld := false;
    }

    /** What `getLockFor` does for a name it did not find. */
    method Insert(filename: string) returns (node: LockNode?)
      requires Valid() && filename !in Names()
      modifies this, nodes
      ensures Valid() && mutexHeld == old(mutexHeld)
      ensures Names() == Registered(old(Names()), filename)
      ensures old(nodes) <= nodes
      ensures filename == "" ==> node == null
      ensures filename != "" ==> fresh(node) && node == nodes[IndexOf(Names(), filename)]
    {
      ghost var before := Names();
      node := CreateLockNode(filename);
      AddLockToList(node);
      if node != null {
        FirstIndex(Names(), filename, |before|);
      }
    }
  }
}
