/**
 * Cross-file dependency tracking of the deep analyzer: the graph from each file name to the
 * module specifiers it imports, and the depth-first search for a circular import.
 */
module DependencyGraph {
  import opened Common

  /** `dependencyGraph`: file name to the `from` specifiers of its imports, in order. */
  type Graph = map<string, seq<string>>

  /** The graph keys not yet on the path; each descent removes one, so the search ends. */
  function Unvisited(g: Graph, visited: seq<string>): set<string> {
    set k | k in g && k !in visited
  }

  lemma UnvisitedShrinks(g: Graph, visited: seq<string>, f: string)
    requires f in g && f !in visited
    ensures |Unvisited(g, visited + [f])| < |Unvisited(g, visited)|
  {
    assert Unvisited(g, visited + [f]) == Unvisited(g, visited) - {f};
  }

  /**
   * `detectCircularDependency(fileName, graph, visited)`: a name already on the path closes
   * a cycle; a name that is not a key of the graph ends the search; otherwise the search
   * descends into the dependencies in order and returns the first cycle any of them closes.
   */
  function Detect(g: Graph, f: string, visited: seq<string>): seq<string>
    decreases |Unvisited(g, visited)|, 0
  {
    if f in visited then visited + [f]
    else if f !in g then []
    else
      UnvisitedShrinks(g, visited, f);
      DetectDeps(g, g[f], visited + [f])
  }

  /** The `for (const dep of node.dependencies)` loop with its early return. */
  function DetectDeps(g: Graph, deps: seq<string>, visited: seq<string>): seq<string>
    decreases |Unvisited(g, visited)|, 1, |deps|
  {
    if |deps| == 0 then []
    else
      var c := Detect(g, deps[0], visited);
      if |c| > 0 then c else DetectDeps(g, deps[1..], visited)
  }

  predicate Distinct(s: seq<string>) {
    forall i, j :: 0 <= i < j < |s| ==> s[i] != s[j]
  }

  /** Consecutive entries of `p` from index `from` on are joined by dependency edges. */
  predicate EdgesFrom(g: Graph, p: seq<string>, from: nat) {
    forall i :: from <= i < |p| - 1 ==> p[i] in g && p[i + 1] in g[p[i]]
  }

  /**
   * A chain returned for path `visited`: the path, then new nodes joined by edges, then a
   * node already on the chain; the chain before its last entry repeats nothing new.
   */
  predicate ChainFrom(g: Graph, visited: seq<string>, r: seq<string>) {
    |r| > |visited| && r[..|visited|] == visited
    && r[|r| - 1] in r[..|r| - 1]
    && EdgesFrom(g, r, |visited|)
    && (Distinct(visited) ==> Distinct(r[..|r| - 1]))
  }

  lemma {:induction false} DetectChain(g: Graph, f: string, visited: seq<string>)
    ensures var r := Detect(g, f, visited);
            |r| > 0 ==> ChainFrom(g, visited, r) && r[|visited|] == f
    decreases |Unvisited(g, visited)|, 0
  {
    var r := Detect(g, f, visited);
    if f in visited {
      assert r[..|visited|] == visited && r[..|r| - 1] == visited;
    } else if f in g {
      UnvisitedShrinks(g, visited, f);
      DetectDepsChain(g, g[f], visited + [f]);
      if |r| > 0 {
        ChainExtend(g, visited, f, r);
      }
    }
  }

  /** A chain for the path extended by `f` is one for the path, with `f` as its first new node. */
  lemma ChainExtend(g: Graph, visited: seq<string>, f: string, r: seq<string>)
    requires f !in visited && ChainFrom(g, visited + [f], r)
    requires f in g && r[|visited| + 1] in g[f]
    ensures ChainFrom(g, visited, r) && r[|visited|] == f
  {
    var v := visited + [f];
    assert r[..|v|][..|visited|] == visited;
    assert r[|visited|] == r[..|v|][|visited|] == f;
    if Distinct(visited) {
      assert Distinct(v);
    }
  }

  lemma {:induction false} DetectDepsChain(g: Graph, deps: seq<string>, visited: seq<string>)
    ensures var r := DetectDeps(g, deps, visited);
            |r| > 0 ==> ChainFrom(g, visited, r) && r[|visited|] in deps
    decreases |Unvisited(g, visited)|, 1, |deps|
  {
    if |deps| > 0 {
      DetectChain(g, deps[0], visited);
      DetectDepsChain(g, deps[1..], visited);
      var c := Detect(g, deps[0], visited);
      if |c| == 0 {
        var r := DetectDeps(g, deps[1..], visited);
        if |r| > 0 {
          assert r[|visited|] in deps[1..];
        }
      }
    }
  }

  /** A cycle search from a name that is not a key of the graph finds nothing. */
  lemma DetectMissing(g: Graph, f: string)
    requires f !in g
    ensures Detect(g, f, []) == []
  {
  }

  /**
   * A non-empty result of the top-level search from `f` starts at `f`, follows dependency
   * edges through distinct graph keys, and ends at a node already on the chain.
   */
  lemma DetectCycle(g: Graph, f: string)
    ensures var r := Detect(g, f, []);
            |r| > 0 ==>
              |r| >= 2 && r[0] == f && f in g
              && EdgesFrom(g, r, 0)
              && Distinct(r[..|r| - 1])
              && r[|r| - 1] in r[..|r| - 1]
  {
    DetectChain(g, f, []);
  }

  /** A file that imports itself is reported as the two-entry chain `[f, f]`. */
  lemma DetectSelfImport(g: Graph, f: string)
    requires f in g && |g[f]| > 0 && g[f][0] == f
    ensures Detect(g, f, []) == [f, f]
  {
    assert [] + [f] == [f];
    assert Detect(g, f, [f]) == [f, f];
    assert DetectDeps(g, g[f], [f]) == [f, f];
  }

  // ---------------------------------------------------------------- analyzeDependencies

  datatype SourceFile = SourceFile(fileName: string, content: string)

  /** An entry of `circularDependencies`; `severity` is always `high`. */
  datatype Circular = Circular(files: seq<string>)

  datatype DependencyReport = DependencyReport(
    graph: Graph,
    keys: seq<string>,
    circularDependencies: seq<Circular>,
    unusedImports: seq<string>)

  /**
   * The graph after the first `|files|` assignments `dependencyGraph[file.fileName] = …`;
   * a later file with the same name replaces the earlier entry.
   */
  function GraphOf(files: seq<SourceFile>, importsOf: string -> seq<string>): Graph
    decreases |files|
  {
    if |files| == 0 then map[]
    else
      var last := files[|files| - 1];
      GraphOf(files[..|files| - 1], importsOf)[last.fileName := importsOf(last.content)]
  }

  /** `Object.keys(dependencyGraph)`: the names in order of first assignment. */
  function KeysOf(files: seq<SourceFile>): seq<string>
    decreases |files|
  {
    if |files| == 0 then []
    else
      var front := KeysOf(files[..|files| - 1]);
      var name := files[|files| - 1].fileName;
      if name in front then front else front + [name]
  }

  /** The reported cycles: one per key whose search finds one, in key order. */
  function CircularsOf(g: Graph, keys: seq<string>): seq<Circular>
    decreases |keys|
  {
    if |keys| == 0 then []
    else
      var front := CircularsOf(g, keys[..|keys| - 1]);
      var c := Detect(g, keys[|keys| - 1], []);
      if |c| > 0 then front + [Circular(c)] else front
  }

  /**
   * `analyzeDependencies`: `importsOf` stands for the `from` specifiers `extractImports`
   * finds in a file's text.
   */
  method AnalyzeDependencies(files: seq<SourceFile>, importsOf: string -> seq<string>)
    returns (r: DependencyReport)
    ensures r.graph == GraphOf(files, importsOf)
    ensures r.keys == KeysOf(files)
    ensures r.circularDependencies == CircularsOf(r.graph, r.keys)
    ensures r.unusedImports == []
  {
    var graph: Graph := map[];
    var keys: seq<string> := [];
    for i := 0 to |files|
      invariant graph == GraphOf(files[..i], importsOf)
      invariant keys == KeysOf(files[..i])
    {
      assert files[..i + 1][..i] == files[..i];
      var file := files[i];
      if file.fileName !in keys {
        keys := keys + [file.fileName];
      }
      graph := graph[file.fileName := importsOf(file.content)];
    }
    assert files[..|files|] == files;
    var circular: seq<Circular> := [];
    for i := 0 to |keys|
      invariant circular == CircularsOf(graph, keys[..i])
    {
      assert keys[..i + 1][..i] == keys[..i];
      var c := Detect(graph, keys[i], []);
      if |c| > 0 {
        circular := circular + [Circular(c)];
      }
    }
    assert keys[..|keys|] == keys;
    r := DependencyReport(graph, keys, circular, []);
  }

  /** The key order lists every file name once, and exactly the names of the graph. */
  lemma {:induction false} KeysOfGraph(files: seq<SourceFile>, importsOf: string -> seq<string>)
    ensures Distinct(KeysOf(files))
    ensures forall k :: k in KeysOf(files) <==> k in GraphOf(files, importsOf)
    ensures forall i :: 0 <= i < |files| ==> files[i].fileName in KeysOf(files)
    decreases |files|
  {
    if |files| > 0 {
      KeysOfGraph(files[..|files| - 1], importsOf);
      forall i | 0 <= i < |files| - 1
        ensures files[i].fileName in KeysOf(files)
      {
        assert files[..|files| - 1][i] == files[i];
      }
    }
  }

  /** A name's dependencies are the imports of the last file with that name. */
  lemma {:induction false} GraphOfLast(files: seq<SourceFile>, importsOf: string -> seq<string>, i: nat)
    requires i < |files|
    requires forall j :: i < j < |files| ==> files[j].fileName != files[i].fileName
    ensures files[i].fileName in GraphOf(files, importsOf)
    ensures GraphOf(files, importsOf)[files[i].fileName] == importsOf(files[i].content)
    decreases |files|
  {
    if i < |files| - 1 {
      var front := files[..|files| - 1];
      assert front[i] == files[i];
      GraphOfLast(front, importsOf, i);
    }
  }

  /**
   * Every reported cycle belongs to a key, is a chain that search reports from it, and each
   * key whose search finds a cycle is reported.
   */
  lemma {:induction false} CircularsOfShape(g: Graph, keys: seq<string>)
    ensures forall c :: c in CircularsOf(g, keys) ==>
              |c.files| >= 2 && c.files[0] in keys && c.files == Detect(g, c.files[0], [])
    ensures forall k :: k in keys && |Detect(g, k, [])| > 0 ==> Circular(Detect(g, k, [])) in CircularsOf(g, keys)
    decreases |keys|
  {
    if |keys| > 0 {
      var front := keys[..|keys| - 1];
      CircularsOfShape(g, front);
      var k := keys[|keys| - 1];
      DetectCycle(g, k);
      assert keys == front + [k];
    }
  }
}
