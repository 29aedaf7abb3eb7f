/** Betfair helpers: flattening a typed navigation tree, chunking lists, trade hash keys. */
module BetfairUtil {
  import opened Outcomes
  import opened Strings

  /** The JSON values found in a navigation tree or passed as filters. */
  datatype Value = Str(s: string) | Int(i: int) | List(items: seq<Value>) | Null

  /** A flattened record: a dict from prefixed keys to values. */
  type Record = map<string, Value>

  /** A tree node: its own dict entries, and its "children" entry, which may be absent. */
  datatype Node = Node(attrs: map<string, Value>, children: Children)

  datatype Children = Absent | Present(nodes: seq<Node>)

  const IgnoreKeys: set<string> := {"type", "children"}

  /** `dict_like["type"].lower()`: KeyError without a type, AttributeError when it is not a string. */
  function NodeType(n: Node): (r: Result<string>)
    ensures r.Err? <==> "type" !in n.attrs || !n.attrs["type"].Str?
    ensures r.Ok? ==> r.value == Lower(n.attrs["type"].s)
  {
    if "type" !in n.attrs then Err(KeyError)
    else match n.attrs["type"]
      case Str(s) => Ok(Lower(s))
      case _ => Err(AttributeError)
  }

  lemma PrefixInjective(prefix: string, a: string, b: string)
    requires prefix + a == prefix + b
    ensures a == b
  {
    assert a == (prefix + a)[|prefix|..];
    assert b == (prefix + b)[|prefix|..];
  }

  /** `{f"{node_type}_{k}": v for k, v in dict_like.items() if k not in ignore_keys}`. */
  function NodeData(nodeType: string, attrs: map<string, Value>): (r: Record)
    ensures forall k :: k in attrs && k !in IgnoreKeys ==> nodeType + "_" + k in r && r[nodeType + "_" + k] == attrs[k]
    ensures forall key :: key in r ==>
      exists k :: k in attrs && k !in IgnoreKeys && key == nodeType + "_" + k
  {
    forall a, b | a in attrs && b in attrs && nodeType + "_" + a == nodeType + "_" + b
      ensures a == b
    {
      PrefixInjective(nodeType + "_", a, b);
    }
    map k | k in attrs && k !in IgnoreKeys :: nodeType + "_" + k := attrs[k]
  }

  /** What a `flatten` generator produces: the records it yields before stopping, and the
      exception it stops with, if any. */
  datatype Yielded = Yielded(records: seq<Record>, error: Option<PyError>)

  /** `{**data, **child_data}` for every record: the child's entries win. */
  function MergeAll(data: Record, records: seq<Record>): (r: seq<Record>)
    ensures |r| == |records|
    ensures forall i :: 0 <= i < |r| ==> r[i] == data + records[i]
  {
    if records == [] then [] else [data + records[0]] + MergeAll(data, records[1..])
  }

  /** The inner `flatten` below the root (depth >= 1): a leaf yields its own data; a node
      with a "children" entry yields, child by child, its data merged under each record the
      child yields, and stops at the first exception. */
  function Flatten(n: Node): Yielded
    decreases n, 1
  {
    match NodeType(n)
    case Err(e) => Yielded([], Some(e))
    case Ok(t) =>
      if n.children.Absent? then Yielded([NodeData(t, n.attrs)], None)
      else FlattenChildren(n, NodeData(t, n.attrs), 0)
  }

  /** The records yielded for the children of `parent` from index i on. */
  function FlattenChildren(parent: Node, data: Record, i: nat): Yielded
    requires parent.children.Present?
    decreases parent, 0, |parent.children.nodes| - i
  {
    var cs := parent.children.nodes;
    if i >= |cs| then Yielded([], None)
    else
      var first := Flatten(cs[i]);
      var merged := MergeAll(data, first.records);
      if first.error.Some? then Yielded(merged, first.error)
      else
        var rest := FlattenChildren(parent, data, i + 1);
        Yielded(merged + rest.records, rest.error)
  }

  /** `_filter(record_value, filter_value)`: a string filter asks for equality, a tuple or
      list filter for membership, and any other filter raises TypeError. */
  function FilterMatch(actual: Value, wanted: Value): (r: Result<bool>)
    ensures r.Err? <==> !wanted.Str? && !wanted.List?
    ensures r.Err? ==> r.error == TypeError
    ensures wanted.Str? ==> r == Ok(actual == wanted)
    ensures wanted.List? ==> r == Ok(actual in wanted.items)
  {
    match wanted
    case Str(_) => Ok(actual == wanted)
    case List(items) => Ok(actual in items)
    case _ => Err(TypeError)
  }

  /** `all(_filter(child_data[k], v) for k, v in filters.items())`: filters are tried in
      order, stopping at the first that fails or raises; a missing key raises KeyError. */
  function Passes(record: Record, filters: seq<(string, Value)>): Result<bool>
  {
    if filters == [] then Ok(true)
    else
      var (k, v) := filters[0];
      if k !in record then Err(KeyError)
      else match FilterMatch(record[k], v)
        case Err(e) => Err(e)
        case Ok(b) => if b then Passes(record, filters[1..]) else Ok(false)
  }

  /** A record passes exactly when every filter key is present and every filter matches. */
  lemma {:induction false} PassesIff(record: Record, filters: seq<(string, Value)>)
    ensures Passes(record, filters) == Ok(true) <==>
      forall j :: 0 <= j < |filters| ==>
        filters[j].0 in record && FilterMatch(record[filters[j].0], filters[j].1) == Ok(true)
  {
    if filters != [] {
      PassesIff(record, filters[1..]);
      var (k, v) := filters[0];
      if k in record && FilterMatch(record[k], v) == Ok(true) {
        assert forall j :: 1 <= j < |filters| ==> filters[j] == filters[1..][j - 1];
      }
    }
  }

  /** The records the root keeps from a child's output, in order, or the first exception
      a filter raises. */
  function Keep(records: seq<Record>, filters: seq<(string, Value)>): Result<seq<Record>>
    decreases |records|
  {
    if records == [] then Ok([])
    else match Keep(records[..|records| - 1], filters)
      case Err(e) => Err(e)
      case Ok(kept) =>
        var last := records[|records| - 1];
        match Passes(last, filters)
        case Err(e) => Err(e)
        case Ok(b) => Ok(if b then kept + [last] else kept)
  }

  /** Joins the outcomes of two consecutive stretches of work: the first exception wins. */
  function Then(a: Result<seq<Record>>, b: Result<seq<Record>>): Result<seq<Record>>
  {
    match a
    case Err(e) => Err(e)
    case Ok(x) => match b
      case Err(e) => Err(e)
      case Ok(y) => Ok(x + y)
  }

  lemma {:induction false} KeepAppend(a: seq<Record>, b: seq<Record>, filters: seq<(string, Value)>)
    ensures Keep(a + b, filters) == Then(Keep(a, filters), Keep(b, filters))
    decreases |b|
  {
    if b == [] {
      assert a + b == a;
      if Keep(a, filters).Ok? {
        assert Keep(a, filters).value + [] == Keep(a, filters).value;
      }
    } else {
      var b' := b[..|b| - 1];
      assert (a + b)[..|a + b| - 1] == a + b';
      assert (a + b)[|a + b| - 1] == b[|b| - 1];
      KeepAppend(a, b', filters);
      var last := b[|b| - 1];
      if Keep(a, filters).Ok? && Keep(b', filters).Ok? && Passes(last, filters).Ok? {
        var x, y := Keep(a, filters).value, Keep(b', filters).value;
        assert (x + y) + [last] == x + (y + [last]);
      }
    }
  }

  /** With no filters every record is kept. */
  lemma {:induction false} KeepNoFilters(records: seq<Record>)
    ensures Keep(records, []) == Ok(records)
    decreases |records|
  {
    if records != [] {
      var init, last := records[..|records| - 1], records[|records| - 1];
      assert Keep(records, []) == Ok(init + [last]) by {
        KeepNoFilters(init);
        assert Passes(last, []) == Ok(true);
      }
      assert init + [last] == records;
    }
  }

  /** A kept record is one of the inputs that passes every filter, and every input that
      passes is kept. */
  lemma {:induction false} KeepSound(records: seq<Record>, filters: seq<(string, Value)>)
    requires Keep(records, filters).Ok?
    ensures forall r :: r in Keep(records, filters).value ==> r in records && Passes(r, filters) == Ok(true)
    ensures forall r :: r in records && Passes(r, filters) == Ok(true) ==> r in Keep(records, filters).value
    decreases |records|
  {
    if records != [] {
      var init := records[..|records| - 1];
      var last := records[|records| - 1];
      KeepSound(init, filters);
      assert records == init + [last];
    }
  }

  /** The root's loop over its children: each child's records are filtered as they are
      yielded; an exception from a filter or from the child's own flattening ends it all. */
  function CollectChildren(cs: seq<Node>, filters: seq<(string, Value)>): Result<seq<Record>>
    decreases |cs|
  {
    if cs == [] then Ok([])
    else
      var y := Flatten(cs[|cs| - 1]);
      var tail := match Keep(y.records, filters)
        case Err(e) => Err(e)
        case Ok(kept) => if y.error.Some? then Err(y.error.value) else Ok(kept);
      Then(CollectChildren(cs[..|cs| - 1], filters), tail)
  }

  /** `flatten_tree(y, **filters)`: the records collected at the root, or the exception raised. */
  function Flattened(root: Node, filters: seq<(string, Value)>): Result<seq<Record>>
  {
    match NodeType(root)
    case Err(e) => Err(e)
    case Ok(_) => if root.children.Absent? then Ok([]) else CollectChildren(root.children.nodes, filters)
  }

  lemma KeepErrPrefix(records: seq<Record>, j: nat, filters: seq<(string, Value)>)
    requires j <= |records| && Keep(records[..j], filters).Err?
    ensures Keep(records, filters) == Keep(records[..j], filters)
  {
    KeepAppend(records[..j], records[j..], filters);
    assert records[..j] + records[j..] == records;
  }

  lemma {:induction false} CollectErrPrefix(cs: seq<Node>, k: nat, filters: seq<(string, Value)>)
    requires k <= |cs| && CollectChildren(cs[..k], filters).Err?
    ensures CollectChildren(cs, filters) == CollectChildren(cs[..k], filters)
    decreases |cs| - k
  {
    if k < |cs| {
      assert cs[..k + 1][..k] == cs[..k];
      CollectErrPrefix(cs, k + 1, filters);
    } else {
      assert cs[..k] == cs;
    }
  }

  /** One more record through the root's filter. */
  lemma KeepSnoc(records: seq<Record>, j: nat, filters: seq<(string, Value)>)
    requires j < |records| && Keep(records[..j], filters).Ok?
    ensures Passes(records[j], filters).Err? ==> Keep(records[..j + 1], filters) == Err(Passes(records[j], filters).error)
    ensures Passes(records[j], filters).Ok? ==>
      (Keep(records[..j + 1], filters) ==
       Ok(if Passes(records[j], filters).value then Keep(records[..j], filters).value + [records[j]]
          else Keep(records[..j], filters).value))
  {
    var prefix := records[..j + 1];
    assert prefix[..|prefix| - 1] == records[..j];
    assert prefix[|prefix| - 1] == records[j];
  }

  /** One more child through the root's loop, given everything before it succeeded. */
  lemma CollectSnoc(cs: seq<Node>, i: nat, filters: seq<(string, Value)>)
    requires i < |cs| && CollectChildren(cs[..i], filters).Ok?
    ensures var y := Flatten(cs[i]);
      CollectChildren(cs[..i + 1], filters) ==
        match Keep(y.records, filters)
        case Err(e) => Err(e)
        case Ok(kept) => if y.error.Some? then Err(y.error.value) else Ok(CollectChildren(cs[..i], filters).value + kept)
  {
    assert cs[..i + 1][..i] == cs[..i];
  }

  /** The root's inner loop over one child's yielded records: each record that passes the
      filters is appended to `results`; the first filter that raises ends the loop. */
  method AppendPassing(results: seq<Record>, records: seq<Record>, filters: seq<(string, Value)>)
    returns (r: Result<seq<Record>>)
    ensures r == match Keep(records, filters)
      case Err(e) => Err(e)
      case Ok(kept) => Ok(results + kept)
  {
    var acc := results;
    var j := 0;
    while j < |records|
      invariant 0 <= j <= |records|
      invariant Keep(records[..j], filters).Ok?
      invariant acc == results + Keep(records[..j], filters).value
    {
      var passes := Passes(records[j], filters);
      KeepSnoc(records, j, filters);
      if passes.Err? {
        KeepErrPrefix(records, j + 1, filters);
        return Err(passes.error);
      }
      if passes.value {
        acc := acc + [records[j]];
      }
      j := j + 1;
    }
    assert records[..j] == records;
    return Ok(acc);
  }

  /** `flatten_tree` as the source runs it: a `results` list that the root's loop appends to
      while it walks each child's yielded records. */
  method FlattenTree(root: Node, filters: seq<(string, Value)>) returns (r: Result<seq<Record>>)
    ensures r == Flattened(root, filters)
  {
    var nodeType := NodeType(root);
    if nodeType.Err? {
      return Err(nodeType.error);
    }
    if root.children.Absent? {
      return Ok([]);
    }
    var cs := root.children.nodes;
    var results: seq<Record> := [];
    var i := 0;
    while i < |cs|
      invariant 0 <= i <= |cs|
      invariant CollectChildren(cs[..i], filters) == Ok(results)
    {
      var y := Flatten(cs[i]);
      var extended := AppendPassing(results, y.records, filters);
      CollectSnoc(cs, i, filters);
      if extended.Err? {
        CollectErrPrefix(cs, i + 1, filters);
        return Err(extended.error);
      }
      if y.error.Some? {
        CollectErrPrefix(cs, i + 1, filters);
        return Err(y.error.value);
      }
      results := extended.value;
      i := i + 1;
    }
    assert cs[..i] == cs;
    return Ok(results);
  }

  // A reference reading of flatten_tree: one record per root-to-leaf path.

  /** The entries a node contributes, or none when its type cannot be read. */
  function DataOf(n: Node): Record
  {
    match NodeType(n)
    case Ok(t) => NodeData(t, n.attrs)
    case Err(_) => map[]
  }

  /** Every node of the subtree has a string "type". */
  ghost predicate WellTyped(n: Node)
    decreases n
  {
    NodeType(n).Ok? && (n.children.Present? ==> forall c :: c in n.children.nodes ==> WellTyped(c))
  }

  /** The paths from n down to a leaf (a node without a "children" entry), depth first and
      left to right; a node whose "children" entry is an empty list ends no path. */
  function Paths(n: Node): seq<seq<Node>>
    decreases n, 1
  {
    if n.children.Absent? then [[n]] else PathsFrom(n, 0)
  }

  function PathsFrom(parent: Node, i: nat): seq<seq<Node>>
    requires parent.children.Present?
    decreases parent, 0, |parent.children.nodes| - i
  {
    var cs := parent.children.nodes;
    if i >= |cs| then [] else Extend(parent, Paths(cs[i])) + PathsFrom(parent, i + 1)
  }

  function Extend(n: Node, paths: seq<seq<Node>>): (r: seq<seq<Node>>)
    ensures |r| == |paths| && forall k :: 0 <= k < |r| ==> r[k] == [n] + paths[k]
  {
    if paths == [] then [] else [[n] + paths[0]] + Extend(n, paths[1..])
  }

  /** The record of one path: each node's entries laid over those of its ancestors. */
  function PathRecord(path: seq<Node>): Record
  {
    if path == [] then map[] else DataOf(path[0]) + PathRecord(path[1..])
  }

  function PathRecords(paths: seq<seq<Node>>): (r: seq<Record>)
    ensures |r| == |paths| && forall k :: 0 <= k < |r| ==> r[k] == PathRecord(paths[k])
  {
    if paths == [] then [] else [PathRecord(paths[0])] + PathRecords(paths[1..])
  }

  /** The paths below the root's children, child by child. */
  function ChildPaths(cs: seq<Node>): seq<seq<Node>>
    decreases |cs|
  {
    if cs == [] then [] else ChildPaths(cs[..|cs| - 1]) + Paths(cs[|cs| - 1])
  }

  lemma PathRecordsAppend(x: seq<seq<Node>>, y: seq<seq<Node>>)
    ensures PathRecords(x + y) == PathRecords(x) + PathRecords(y)
  {
    var l, r := PathRecords(x + y), PathRecords(x) + PathRecords(y);
    assert |l| == |r|;
    forall k | 0 <= k < |l| ensures l[k] == r[k] {
      if k < |x| { assert (x + y)[k] == x[k]; } else { assert (x + y)[k] == y[k - |x|]; }
    }
  }

  /** Below the root, flatten yields exactly one record per path, in path order. */
  lemma {:induction false} FlattenIsPathRecords(n: Node)
    requires WellTyped(n)
    ensures Flatten(n) == Yielded(PathRecords(Paths(n)), None)
    decreases n, 1
  {
    if n.children.Absent? {
      assert PathRecord([n]) == DataOf(n) + map[];
      assert DataOf(n) + map[] == DataOf(n);
    } else {
      FlattenChildrenIsPathRecords(n, 0);
    }
  }

  lemma {:induction false} FlattenChildrenIsPathRecords(parent: Node, i: nat)
    requires WellTyped(parent) && parent.children.Present?
    ensures FlattenChildren(parent, DataOf(parent), i) == Yielded(PathRecords(PathsFrom(parent, i)), None)
    decreases parent, 0, |parent.children.nodes| - i
  {
    var cs := parent.children.nodes;
    if i < |cs| {
      assert cs[i] in cs;
      FlattenIsPathRecords(cs[i]);
      FlattenChildrenIsPathRecords(parent, i + 1);
      var ps := Paths(cs[i]);
      var merged := MergeAll(DataOf(parent), PathRecords(ps));
      var extended := PathRecords(Extend(parent, ps));
      forall k | 0 <= k < |ps| ensures merged[k] == extended[k] {
        var path := [parent] + ps[k];
        assert path[0] == parent && path[1..] == ps[k];
      }
      assert merged == extended;
      PathRecordsAppend(Extend(parent, ps), PathsFrom(parent, i + 1));
    }
  }

  lemma {:induction false} CollectIsKeep(cs: seq<Node>, filters: seq<(string, Value)>)
    requires forall c :: c in cs ==> WellTyped(c)
    ensures CollectChildren(cs, filters) == Keep(PathRecords(ChildPaths(cs)), filters)
    decreases |cs|
  {
    if cs != [] {
      var init, last := cs[..|cs| - 1], cs[|cs| - 1];
      var a, b := PathRecords(ChildPaths(init)), PathRecords(Paths(last));
      assert CollectChildren(cs, filters) == Then(Keep(a, filters), Keep(b, filters)) by {
        assert forall c :: c in init ==> c in cs;
        CollectIsKeep(init, filters);
        FlattenIsPathRecords(last);
      }
      assert PathRecords(ChildPaths(cs)) == a + b by {
        PathRecordsAppend(ChildPaths(init), Paths(last));
      }
      KeepAppend(a, b, filters);
    }
  }

  /** flatten_tree keeps, in depth-first left-to-right order, the path records below the
      root's children that pass the filters; the root's own entries appear in none of them. */
  lemma FlattenedIsFilteredPaths(root: Node, filters: seq<(string, Value)>)
    requires WellTyped(root)
    ensures root.children.Absent? ==> Flattened(root, filters) == Ok([])
    ensures root.children.Present? ==>
      Flattened(root, filters) == Keep(PathRecords(ChildPaths(root.children.nodes)), filters)
  {
    if root.children.Present? {
      CollectIsKeep(root.children.nodes, filters);
    }
  }

  /** With no filters, every path record below the root's children is returned. */
  lemma FlattenedWithoutFilters(root: Node)
    requires WellTyped(root) && root.children.Present?
    ensures Flattened(root, []) == Ok(PathRecords(ChildPaths(root.children.nodes)))
  {
    FlattenedIsFilteredPaths(root, []);
    KeepNoFilters(PathRecords(ChildPaths(root.children.nodes)));
  }

  /** A path that starts at `top` and ends at a leaf. */
  ghost predicate Descends(p: seq<Node>, top: Node)
  {
    |p| >= 1 && p[0] == top && p[|p| - 1].children.Absent?
  }

  /** Every path starts at its own node and ends at a leaf. */
  lemma {:induction false} PathsShape(n: Node)
    ensures forall p: seq<Node> :: p in Paths(n) ==> Descends(p, n)
    decreases n, 1
  {
    if n.children.Present? {
      PathsFromShape(n, 0);
    }
  }

  /** A path through the children of `parent` goes on from `parent` to one of its children
      and then down to a leaf. */
  lemma {:induction false} PathsFromShape(parent: Node, i: nat)
    requires parent.children.Present?
    ensures forall p: seq<Node> :: p in PathsFrom(parent, i) ==>
      Descends(p, parent) && |p| >= 2 && p[1] in parent.children.nodes
    decreases parent, 0, |parent.children.nodes| - i
  {
    var cs := parent.children.nodes;
    if i < |cs| {
      var below := Paths(cs[i]);
      var ext := Extend(parent, below);
      assert PathsFrom(parent, i) == ext + PathsFrom(parent, i + 1);
      forall p: seq<Node> | p in ext
        ensures Descends(p, parent) && |p| >= 2 && p[1] in cs
      {
        var k :| 0 <= k < |ext| && ext[k] == p;
        assert Descends(below[k], cs[i]) by {
          PathsShape(cs[i]);
          assert below[k] in below;
        }
        assert p == [parent] + below[k];
      }
      PathsFromShape(parent, i + 1);
    }
  }

  /** On a path, an entry comes from the deepest node that has its key: child keys win. */
  lemma {:induction false} DeepestEntryWins(path: seq<Node>, k: nat, key: string)
    requires k < |path| && key in DataOf(path[k])
    requires forall j :: k < j < |path| ==> key !in DataOf(path[j])
    ensures key in PathRecord(path) && PathRecord(path)[key] == DataOf(path[k])[key]
  {
    if k == 0 {
      NotInPathRecord(path[1..], key);
    } else {
      DeepestEntryWins(path[1..], k - 1, key);
    }
  }

  lemma {:induction false} NotInPathRecord(path: seq<Node>, key: string)
    requires forall j :: 0 <= j < |path| ==> key !in DataOf(path[j])
    ensures key !in PathRecord(path)
  {
    if path != [] {
      NotInPathRecord(path[1..], key);
    }
  }

  /** The successive n-sized slices `xs[i:i + n]` for i = 0, n, 2n, ... */
  function Chunks<T>(xs: seq<T>, n: nat): seq<seq<T>>
    requires n > 0
    decreases |xs|
  {
    if |xs| == 0 then []
    else if |xs| <= n then [xs]
    else [xs[..n]] + Chunks(xs[n..], n)
  }

  /** `chunk(list_like, n)`: `range(0, len, 0)` raises ValueError; a negative step gives an
      empty range. */
  function Chunk<T>(xs: seq<T>, n: int): (r: Result<seq<seq<T>>>)
    ensures r.Err? <==> n == 0
    ensures r.Err? ==> r.error == ValueError
    ensures n < 0 ==> r == Ok([])
    ensures n > 0 ==> r.Ok? && Concat(r.value) == xs
    ensures n > 0 ==> forall k :: 0 <= k < |r.value| ==> 0 < |r.value[k]| <= n
  {
    if n == 0 then Err(ValueError)
    else if n < 0 then Ok([])
    else
      ChunksConcat(xs, n);
      ChunksShape(xs, n);
      Ok(Chunks(xs, n))
  }

  function Concat<T>(xss: seq<seq<T>>): seq<T>
  {
    if xss == [] then [] else xss[0] + Concat(xss[1..])
  }

  /** Joining the chunks in order gives the list back. */
  lemma {:induction false} ChunksConcat<T>(xs: seq<T>, n: nat)
    requires n > 0
    ensures Concat(Chunks(xs, n)) == xs
    decreases |xs|
  {
    if |xs| > n {
      ChunksConcat(xs[n..], n);
      assert xs[..n] + xs[n..] == xs;
    } else if |xs| > 0 {
      assert xs + [] == xs;
    }
  }

  /** There are ceil(len / n) chunks; all have length n except the last, which is non-empty
      and at most n long. */
  lemma {:induction false} ChunksShape<T>(xs: seq<T>, n: nat)
    requires n > 0
    ensures |Chunks(xs, n)| == (|xs| + n - 1) / n
    ensures forall k :: 0 <= k < |Chunks(xs, n)| - 1 ==> |Chunks(xs, n)[k]| == n
    ensures |Chunks(xs, n)| > 0 ==> 0 < |Chunks(xs, n)[|Chunks(xs, n)| - 1]| <= n
    decreases |xs|
  {
    if |xs| > n {
      ChunksShape(xs[n..], n);
      var rest := Chunks(xs[n..], n);
      assert (|xs| + n - 1) / n == (|xs| - n + n - 1) / n + 1 by {
        DivShift(|xs| - n + n - 1, n);
      }
      assert forall k :: 1 <= k < |Chunks(xs, n)| ==> Chunks(xs, n)[k] == rest[k - 1];
    } else if |xs| > 0 {
      assert (|xs| + n - 1) / n == 1 by {
        DivShift(|xs| - 1, n);
      }
    }
  }

  lemma DivShift(a: nat, n: nat)
    requires n > 0
    ensures (a + n) / n == a / n + 1
  {
    assert a + n == n * (a / n + 1) + a % n;
    DivUnique(a + n, n, a / n + 1, a % n);
  }

  /** `hash_market_trade`: the timestamp's decimal digits without the last six, then the
      price text, then the volume text. */
  function HashMarketTrade(timestamp: int, price: string, volume: string): string
  {
    DropLast(IntToString(timestamp), 6) + price + volume
  }

  /** For a timestamp in nanoseconds the key starts with the whole milliseconds; below a
      millisecond only the price and volume remain. */
  lemma HashMarketTradeMillis(timestamp: nat, price: string, volume: string)
    ensures timestamp >= 1000000 ==>
      HashMarketTrade(timestamp, price, volume) == Decimal(timestamp / 1000000) + price + volume
    ensures timestamp < 1000000 ==> HashMarketTrade(timestamp, price, volume) == price + volume
  {
    assert Pow10(6) == 1000000;
    if timestamp >= 1000000 {
      DecimalDropDigits(timestamp, 6);
    } else {
      DecimalShort(timestamp, 6);
    }
  }
}
