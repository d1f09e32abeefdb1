/** Listing a workspace: a depth-first walk that stops at an entry limit, against the whole
    preorder listing. */
module WorkspaceListing {
  import opened Options

  datatype Kind = File | Directory | Other

  /** A directory entry; `children` are in the order of the sorted directory. */
  datatype Node = Node(name: string, kind: Kind, children: seq<Node>)

  datatype Entry = Entry(name: string, kind: Kind)

  /** `maxDepth` and `entryLimit` are unbounded when absent. */
  datatype ListOptions = ListOptions(includeHidden: bool, recursive: bool, maxDepth: Option<int>, entryLimit: Option<nat>)

  predicate IsListed(o: ListOptions, n: Node) { o.includeHidden || !("." <= n.name) }

  predicate IsEntered(o: ListOptions, n: Node, depth: int) {
    o.recursive && n.kind.Directory? && (o.maxDepth.Some? ==> depth < o.maxDepth.value)
  }

  function PathOf(directory: string, n: Node): string { if |directory| > 0 then directory + "/" + n.name else n.name }

  /** The preorder listing without a limit. */
  function Listing(o: ListOptions, nodes: seq<Node>, directory: string, depth: int): seq<Entry>
    decreases nodes
  {
    if nodes == [] then [] else Subtree(o, nodes[0], directory, depth) + Listing(o, nodes[1..], directory, depth)
  }

  function Subtree(o: ListOptions, n: Node, directory: string, depth: int): seq<Entry>
    decreases n
  {
    if !IsListed(o, n) then []
    else
      [Entry(PathOf(directory, n), n.kind)]
      + if IsEntered(o, n, depth) then Listing(o, n.children, PathOf(directory, n), depth + 1) else []
  }

  predicate Exceeds(entries: seq<Entry>, limit: Option<nat>) { limit.Some? && |entries| > limit.value }

  /** As much of a listing as the limit allows. */
  function Clipped(entries: seq<Entry>, limit: Option<nat>): seq<Entry> {
    if Exceeds(entries, limit) then entries[..limit.value] else entries
  }

  class Listed {
    const options: ListOptions
    var entries: seq<Entry>
    var truncated: bool

    constructor (options: ListOptions)
      ensures this.options == options && entries == [] && !truncated
    {
      this.options, entries, truncated := options, [], false;
    }

    ghost predicate Valid()
      reads this
    {
      !Exceeds(entries, options.entryLimit) && (truncated ==> options.entryLimit == Some(|entries|))
    }

    /** What a walk over `full` in all leaves: the listing cut at the limit, truncated exactly
        when there was more. */
    ghost predicate Holds(full: seq<Entry>)
      reads this
    {
      entries == Clipped(full, options.entryLimit) && truncated == Exceeds(full, options.entryLimit)
    }

    /** Walks one directory. */
    method Collect(nodes: seq<Node>, directory: string, depth: int)
      requires Valid()
      modifies this`entries, this`truncated
      ensures Valid()
      ensures old(truncated) ==> truncated && entries == old(entries)
      ensures !old(truncated) ==> Holds(old(entries) + Listing(options, nodes, directory, depth))
      decreases nodes
    {
      hide Subtree, Exceeds, Clipped;
      if truncated { return; }
      ghost var start, full := entries, entries + Listing(options, nodes, directory, depth);
      var i := 0;
      while i < |nodes|
        invariant i <= |nodes| && Valid()
        invariant !truncated ==> entries + Listing(options, nodes[i..], directory, depth) == full
        invariant truncated ==> Holds(full)
      {
        ghost var before, subtree := entries, Subtree(options, nodes[i], directory, depth);
        ghost var rest := Listing(options, nodes[i + 1..], directory, depth);
        assert nodes[i..][0] == nodes[i] && nodes[i..][1..] == nodes[i + 1..];
        assert before + (subtree + rest) == before + subtree + rest;
        ClippedTwice(before + subtree, rest, options.entryLimit);
        CollectEntry(nodes[i], directory, depth);
        i := i + 1;
      }
      assert entries + [] == entries;
      Unclipped(entries, options.entryLimit);
    }

    /** One entry of the directory, and what is below it. */
    method CollectEntry(n: Node, directory: string, depth: int)
      requires Valid()
      modifies this`entries, this`truncated
      ensures Valid()
      ensures old(truncated) ==> truncated && entries == old(entries)
      ensures !old(truncated) ==> Holds(old(entries) + Subtree(options, n, directory, depth))
      decreases n
    {
      hide Listing;
      if !IsListed(options, n) {
        assert entries + [] == entries;
        return;
      }
      if options.entryLimit.Some? && |entries| >= options.entryLimit.value {
        truncated := true;
        return;
      }
      var name := if |directory| > 0 then directory + "/" + n.name else n.name;
      ghost var before := entries;
      entries := entries + [Entry(name, n.kind)];
      if IsEntered(options, n, depth) {
        assert entries + Listing(options, n.children, name, depth + 1)
            == before + ([Entry(name, n.kind)] + Listing(options, n.children, name, depth + 1));
        Collect(n.children, name, depth + 1);
      } else {
        assert [Entry(name, n.kind)] + [] == [Entry(name, n.kind)];
      }
    }
  }

  lemma Unclipped(entries: seq<Entry>, limit: Option<nat>)
    ensures !Exceeds(entries, limit) ==> Clipped(entries, limit) == entries
  {}

  lemma ClippedTwice(entries: seq<Entry>, rest: seq<Entry>, limit: Option<nat>)
    ensures Exceeds(entries, limit) ==> Exceeds(entries + rest, limit) && Clipped(entries + rest, limit) == Clipped(entries, limit)
    ensures !Exceeds(entries, limit) ==> Clipped(entries, limit) == entries
  {
    if Exceeds(entries, limit) { assert (entries + rest)[..limit.value] == entries[..limit.value]; }
  }

  method ListWorkspaceEntries(root: seq<Node>, includeHidden: bool, recursive: bool, maxDepth: Option<int>, entryLimit: Option<nat>)
    returns (entries: seq<Entry>, truncated: bool)
    ensures var o := ListOptions(includeHidden, recursive, if recursive then maxDepth else Some(1), entryLimit);
            var full := Listing(o, root, "", 1);
            && truncated == (entryLimit.Some? && |full| > entryLimit.value)
            && entries == if truncated then full[..entryLimit.value] else full
  {
    var listed := new Listed(ListOptions(includeHidden, recursive, if recursive then maxDepth else Some(1), entryLimit));
    listed.Collect(root, "", 1);
    assert [] + Listing(listed.options, root, "", 1) == Listing(listed.options, root, "", 1);
    return listed.entries, listed.truncated;
  }

  // ---------- What the whole listing holds ----------

  function Slashes(path: string): nat {
    if path == [] then 0 else (if path[0] == '/' then 1 else 0) + Slashes(path[1..])
  }

  predicate PlainNames(nodes: seq<Node>)
    decreases nodes
  {
    forall i | 0 <= i < |nodes| :: nodes[i].name != "" && '/' !in nodes[i].name && PlainNames(nodes[i].children)
  }

  lemma {:induction false} SlashesOfConcat(a: string, b: string)
    ensures Slashes(a + b) == Slashes(a) + Slashes(b)
  {
    if a == [] {
      assert a + b == b;
    } else {
      assert (a + b)[1..] == a[1..] + b;
      SlashesOfConcat(a[1..], b);
    }
  }

  lemma {:induction false} NoSlashes(name: string)
    requires '/' !in name
    ensures Slashes(name) == 0
  {
    if name != [] { NoSlashes(name[1..]); }
  }

  lemma PathDepth(directory: string, n: Node)
    requires '/' !in n.name
    ensures Slashes(PathOf(directory, n)) == if |directory| > 0 then Slashes(directory) + 1 else 0
  {
    NoSlashes(n.name);
    SlashesOfConcat(directory, "/");
    SlashesOfConcat(directory + "/", n.name);
    assert Slashes("/") == 1;
  }

  /** How deep a directory is: the root's entries are at depth 1. */
  predicate IsAt(directory: string, depth: int) { depth == if |directory| > 0 then Slashes(directory) + 2 else 1 }

  /** No entry is listed below the depth limit. */
  lemma {:induction false} DepthIsBounded(o: ListOptions, nodes: seq<Node>, directory: string, depth: int, e: Entry)
    requires PlainNames(nodes) && IsAt(directory, depth) && e in Listing(o, nodes, directory, depth)
    requires o.maxDepth.Some? && depth <= o.maxDepth.value
    ensures Slashes(e.name) + 1 <= o.maxDepth.value
    decreases nodes
  {
    var n := nodes[0];
    if e in Subtree(o, n, directory, depth) {
      PathDepth(directory, n);
      if e != Entry(PathOf(directory, n), n.kind) {
        DepthIsBounded(o, n.children, PathOf(directory, n), depth + 1, e);
      }
    } else {
      assert PlainNames(nodes[1..]) by { assert forall i | 0 <= i < |nodes[1..]| :: nodes[1..][i] == nodes[i + 1]; }
      DepthIsBounded(o, nodes[1..], directory, depth, e);
    }
  }

  // ---------- The whole listing is the preorder ----------

  /** The path of positions leads through directories that are entered to an entry that is
      listed, whose name joins the names on the way. */
  ghost predicate Leads(o: ListOptions, nodes: seq<Node>, directory: string, depth: int, path: seq<nat>, e: Entry)
    decreases |path|
  {
    && path != [] && path[0] < |nodes|
    && var n := nodes[path[0]];
       var name := if directory == "" then n.name else directory + "/" + n.name;
       && (o.includeHidden || n.name == "" || n.name[0] != '.')
       && if |path| == 1 then e == Entry(name, n.kind)
          else
            && o.recursive && n.kind == Directory && (o.maxDepth.None? || depth < o.maxDepth.value)
            && Leads(o, n.children, name, depth + 1, path[1..], e)
  }

  /** A directory comes before what is in it, and that before what comes after the directory. */
  predicate Before(a: seq<nat>, b: seq<nat>) {
    b != [] && (a == [] || a[0] < b[0] || (a[0] == b[0] && Before(a[1..], b[1..])))
  }

  ghost predicate Ascends(paths: seq<seq<nat>>) { forall i, j | 0 <= i < j < |paths| :: Before(paths[i], paths[j]) }

  /** The paths lead, one by one, to the entries. */
  ghost predicate LeadTo(o: ListOptions, nodes: seq<Node>, directory: string, depth: int, paths: seq<seq<nat>>, entries: seq<Entry>) {
    |paths| == |entries| && forall k | 0 <= k < |paths| :: Leads(o, nodes, directory, depth, paths[k], entries[k])
  }

  ghost predicate AllFrom(o: ListOptions, nodes: seq<Node>, directory: string, depth: int, paths: seq<seq<nat>>, i: nat) {
    && (forall path | path in paths :: path != [] && i <= path[0])
    && forall path, e | Leads(o, nodes, directory, depth, path, e) && i <= path[0] :: path in paths
  }

  lemma {:induction false} PathsFrom(o: ListOptions, nodes: seq<Node>, i: nat, directory: string, depth: int) returns (paths: seq<seq<nat>>)
    requires i <= |nodes|
    ensures LeadTo(o, nodes, directory, depth, paths, Listing(o, nodes[i..], directory, depth))
    ensures Ascends(paths) && AllFrom(o, nodes, directory, depth, paths, i)
    decreases nodes, |nodes| - i
  {
    hide Leads, Subtree, Listing, Ascends, AllOf, AllFrom;
    ListingSplits(o, nodes, i, directory, depth);
    if i == |nodes| {
      paths := [];
      NoneIsAll(o, nodes, directory, depth);
      return;
    }
    var rest := PathsFrom(o, nodes, i + 1, directory, depth);
    var first := PathsOfNode(o, nodes, i, directory, depth);
    paths := first + rest;
    AscendTogether(o, nodes, directory, depth, first, rest, i);
  }

  lemma ListingSplits(o: ListOptions, nodes: seq<Node>, i: nat, directory: string, depth: int)
    requires i <= |nodes|
    ensures Listing(o, nodes[i..], directory, depth)
         == if i == |nodes| then [] else Subtree(o, nodes[i], directory, depth) + Listing(o, nodes[i + 1..], directory, depth)
  {
    hide Subtree;
    if i < |nodes| { assert nodes[i..][0] == nodes[i] && nodes[i..][1..] == nodes[i + 1..]; }
  }

  lemma NoneIsAll(o: ListOptions, nodes: seq<Node>, directory: string, depth: int)
    ensures AllFrom(o, nodes, directory, depth, [], |nodes|) && Ascends([])
  {}

  ghost predicate AllOf(o: ListOptions, nodes: seq<Node>, directory: string, depth: int, paths: seq<seq<nat>>, i: nat) {
    && (forall path | path in paths :: path != [] && path[0] == i)
    && forall path, e | Leads(o, nodes, directory, depth, path, e) && path[0] == i :: path in paths
  }

  lemma AscendTogether(o: ListOptions, nodes: seq<Node>, directory: string, depth: int, first: seq<seq<nat>>, rest: seq<seq<nat>>, i: nat)
    requires Ascends(first) && Ascends(rest)
    requires AllOf(o, nodes, directory, depth, first, i) && AllFrom(o, nodes, directory, depth, rest, i + 1)
    ensures Ascends(first + rest) && AllFrom(o, nodes, directory, depth, first + rest, i)
  {
    hide Leads;
    var all := first + rest;
    forall j, k | 0 <= j < k < |all| ensures Before(all[j], all[k]) {
      if j < |first| <= k { assert first[j] in first && rest[k - |first|] in rest; }
    }
  }

  lemma {:induction false} PathsOfNode(o: ListOptions, nodes: seq<Node>, i: nat, directory: string, depth: int) returns (paths: seq<seq<nat>>)
    requires i < |nodes|
    ensures LeadTo(o, nodes, directory, depth, paths, Subtree(o, nodes[i], directory, depth))
    ensures Ascends(paths) && AllOf(o, nodes, directory, depth, paths, i)
    decreases nodes, 0
  {
    hide Leads, Listing, Ascends, AllOf, AllFrom;
    var n := nodes[i];
    if !IsListed(o, n) || !IsEntered(o, n, depth) {
      paths := if IsListed(o, n) then [[i]] else [];
      LeafLeads(o, nodes, i, directory, depth);
      return;
    }
    var name := PathOf(directory, n);
    var below := PathsFrom(o, n.children, 0, name, depth + 1);
    assert n.children[0..] == n.children;
    paths := Inside(below, i);
    InsideIsAll(o, nodes, i, directory, depth, below);
    InsideLeads(o, nodes, i, directory, depth, below, Listing(o, n.children, name, depth + 1));
    LeadingIsSome(o, n.children, name, depth + 1, below, Listing(o, n.children, name, depth + 1));
    InsideAscends(below, i);
  }

  lemma LeadingIsSome(o: ListOptions, nodes: seq<Node>, directory: string, depth: int, paths: seq<seq<nat>>, entries: seq<Entry>)
    requires LeadTo(o, nodes, directory, depth, paths, entries)
    ensures forall k | 0 <= k < |paths| :: paths[k] != []
  {
    forall k | 0 <= k < |paths| ensures paths[k] != [] { assert Leads(o, nodes, directory, depth, paths[k], entries[k]); }
  }

  ghost function Inside(below: seq<seq<nat>>, i: nat): seq<seq<nat>> {
    [[i]] + seq(|below|, k requires 0 <= k < |below| => [i] + below[k])
  }

  lemma LeafLeads(o: ListOptions, nodes: seq<Node>, i: nat, directory: string, depth: int)
    requires i < |nodes| && (!IsListed(o, nodes[i]) || !IsEntered(o, nodes[i], depth))
    ensures var paths := if IsListed(o, nodes[i]) then [[i]] else [];
            LeadTo(o, nodes, directory, depth, paths, Subtree(o, nodes[i], directory, depth)) && Ascends(paths) && AllOf(o, nodes, directory, depth, paths, i)
  {
    hide Listing;
    var paths := if IsListed(o, nodes[i]) then [[i]] else [];
    forall path, e | Leads(o, nodes, directory, depth, path, e) && path[0] == i ensures path in paths {
      assert path == [i];
    }
  }

  lemma InsideIsAll(o: ListOptions, nodes: seq<Node>, i: nat, directory: string, depth: int, below: seq<seq<nat>>)
    requires i < |nodes| && IsListed(o, nodes[i]) && IsEntered(o, nodes[i], depth)
    requires AllFrom(o, nodes[i].children, PathOf(directory, nodes[i]), depth + 1, below, 0)
    ensures AllOf(o, nodes, directory, depth, Inside(below, i), i)
  {
    var paths := Inside(below, i);
    forall path, e | Leads(o, nodes, directory, depth, path, e) && path[0] == i ensures path in paths {
      if |path| == 1 {
        assert path == [i] && paths[0] == [i];
      } else {
        assert Leads(o, nodes[i].children, PathOf(directory, nodes[i]), depth + 1, path[1..], e);
        var k :| 0 <= k < |below| && below[k] == path[1..];
        assert path == [i] + path[1..] && paths[k + 1] == path;
      }
    }
  }

  lemma InsideLeads(o: ListOptions, nodes: seq<Node>, i: nat, directory: string, depth: int, below: seq<seq<nat>>, entries: seq<Entry>)
    requires i < |nodes| && IsListed(o, nodes[i]) && IsEntered(o, nodes[i], depth)
    requires LeadTo(o, nodes[i].children, PathOf(directory, nodes[i]), depth + 1, below, entries)
    ensures LeadTo(o, nodes, directory, depth, Inside(below, i), [Entry(PathOf(directory, nodes[i]), nodes[i].kind)] + entries)
  {
    forall k | 0 <= k < |below| ensures Leads(o, nodes, directory, depth, [i] + below[k], entries[k]) {
      assert Leads(o, nodes[i].children, PathOf(directory, nodes[i]), depth + 1, below[k], entries[k]);
      assert ([i] + below[k])[1..] == below[k];
    }
  }

  lemma InsideAscends(below: seq<seq<nat>>, i: nat)
    requires Ascends(below) && forall k | 0 <= k < |below| :: below[k] != []
    ensures Ascends(Inside(below, i))
  {
    var all := Inside(below, i);
    forall j, k | 0 <= j < k < |all| ensures Before(all[j], all[k]) {
      assert all[k] == [i] + below[k - 1] && all[k][1..] == below[k - 1];
      if j > 0 { assert all[j] == [i] + below[j - 1] && all[j][1..] == below[j - 1]; } else { assert [i][1..] == []; }
    }
  }

  /** The whole listing holds one entry for each path that leads to one, in the order of the
      paths, and nothing else. */
  lemma ListingIsThePreorder(o: ListOptions, root: seq<Node>) returns (paths: seq<seq<nat>>)
    ensures LeadTo(o, root, "", 1, paths, Listing(o, root, "", 1)) && Ascends(paths)
    ensures forall path, e | Leads(o, root, "", 1, path, e) :: path in paths
  {
    paths := PathsFrom(o, root, 0, "", 1);
    assert root[0..] == root;
  }
}
