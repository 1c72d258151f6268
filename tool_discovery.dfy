/**
 * `Agent._discover_tools`: import each listed module and collect, in
 * module order and then `dir()` order, every attribute that is callable
 * and carries `as_tool`.
 */
module ToolDiscovery {

  /** An attribute of an imported module, with the two tests the discovery applies to it. */
  datatype Attr = Attr(name: string, isCallable: bool, hasAsTool: bool)

  /**
   * What happens to one module path: `__import__` raises `ImportError`, the
   * module imports and yields its attributes in `dir()` order, or it imports
   * and a `getattr` raises `ImportError` after yielding the attributes in
   * `read` (the `try` covers the attribute loop too).
   */
  datatype Module = ImportFailed | Imported(attrs: seq<Attr>) | FailedPartway(read: seq<Attr>)

  /** The attributes the loop gets to see before the module is done or raises. */
  function Reached(m: Module): seq<Attr> {
    match m
    case ImportFailed => []
    case Imported(attrs) => attrs
    case FailedPartway(read) => read
  }

  predicate IsTool(a: Attr) {
    a.isCallable && a.hasAsTool
  }

  /** The tools among `attrs`, in order. */
  function ToolsOf(attrs: seq<Attr>): seq<Attr> {
    if attrs == [] then []
    else ToolsOf(attrs[..|attrs| - 1]) + (if IsTool(attrs[|attrs| - 1]) then [attrs[|attrs| - 1]] else [])
  }

  /** The tools of all modules that import, module by module. */
  function Discovered(modules: seq<Module>): seq<Attr> {
    if modules == [] then []
    else
      var last := modules[|modules| - 1];
      Discovered(modules[..|modules| - 1]) + ToolsOf(Reached(last))
  }

  /** `_discover_tools`, with its nested loops. */
  method DiscoverTools(modules: seq<Module>) returns (collected: seq<Attr>)
    ensures collected == Discovered(modules)
    ensures forall a :: a in collected ==> IsTool(a)
  {
    collected := [];
    for m := 0 to |modules|
      invariant collected == Discovered(modules[..m])
    {
      assert modules[..m + 1][..m] == modules[..m];
      // an ImportError ends the module's loop, keeping what it appended, and is logged
      var attrs := Reached(modules[m]);
      for j := 0 to |attrs|
        invariant collected == Discovered(modules[..m]) + ToolsOf(attrs[..j])
      {
        assert attrs[..j + 1][..j] == attrs[..j];
        var fn := attrs[j];
        if fn.isCallable && fn.hasAsTool {
          collected := collected + [fn];
        }
      }
      assert attrs[..|attrs|] == attrs;
    }
    assert modules[..|modules|] == modules;
    DiscoveredAreTools(modules);
  }

  /** The tools of a concatenation are the tools of each part, in order. */
  lemma {:induction false} ToolsOfAppend(a: seq<Attr>, b: seq<Attr>)
    ensures ToolsOf(a + b) == ToolsOf(a) + ToolsOf(b)
    decreases |b|
  {
    if b != [] {
      var b' := b[..|b| - 1];
      assert (a + b)[..|a + b| - 1] == a + b';
      ToolsOfAppend(a, b');
    } else {
      assert a + b == a;
    }
  }

  /** The tools of modules listed one after another are collected one after another. */
  lemma {:induction false} DiscoveredAppend(a: seq<Module>, b: seq<Module>)
    ensures Discovered(a + b) == Discovered(a) + Discovered(b)
    decreases |b|
  {
    if b != [] {
      var b' := b[..|b| - 1];
      assert (a + b)[..|a + b| - 1] == a + b';
      DiscoveredAppend(a, b');
    } else {
      assert a + b == a;
    }
  }

  /** A module that fails to import contributes nothing. */
  lemma FailedImportIgnored(a: seq<Module>, b: seq<Module>)
    ensures Discovered(a + [ImportFailed] + b) == Discovered(a + b)
  {
    DiscoveredAppend(a + [ImportFailed], b);
    DiscoveredAppend(a, [ImportFailed]);
    DiscoveredAppend(a, b);
  }

  /** An `ImportError` from a `getattr` keeps the tools already collected from that module. */
  lemma PartialImportKeepsTools(a: seq<Module>, read: seq<Attr>, b: seq<Module>)
    ensures Discovered(a + [FailedPartway(read)] + b) == Discovered(a) + ToolsOf(read) + Discovered(b)
  {
    DiscoveredAppend(a + [FailedPartway(read)], b);
    DiscoveredAppend(a, [FailedPartway(read)]);
    assert Discovered([FailedPartway(read)]) == ToolsOf(read) by {
      assert [FailedPartway(read)][..0] == [];
    }
  }

  /** An attribute is a discovered tool exactly when it passes both tests. */
  lemma {:induction false} ToolsOfMembers(attrs: seq<Attr>, x: Attr)
    ensures x in ToolsOf(attrs) <==> x in attrs && IsTool(x)
    decreases |attrs|
  {
    if attrs != [] {
      var init := attrs[..|attrs| - 1];
      ToolsOfMembers(init, x);
      assert attrs == init + [attrs[|attrs| - 1]];
    }
  }

  /** The loop reaches `x` among the attributes of some module of the list. */
  predicate ProvidedBy(modules: seq<Module>, x: Attr) {
    exists i :: 0 <= i < |modules| && x in Reached(modules[i])
  }

  /** A module list provides `x` when its front part does or its last module does. */
  lemma ProvidedBySplit(modules: seq<Module>, x: Attr)
    requires modules != []
    ensures var n := |modules| - 1;
      ProvidedBy(modules, x) <==>
      ProvidedBy(modules[..n], x) || x in Reached(modules[n])
  {
    var n := |modules| - 1;
    var init := modules[..n];
    if ProvidedBy(modules, x) {
      var i :| 0 <= i < |modules| && x in Reached(modules[i]);
      if i < n { assert init[i] == modules[i]; }
    }
    if ProvidedBy(init, x) {
      var i :| 0 <= i < n && x in Reached(init[i]);
      assert modules[i] == init[i];
    }
  }

  /** An attribute is collected exactly when it is a tool the loop reaches in some module. */
  lemma {:induction false} DiscoveredMembers(modules: seq<Module>, x: Attr)
    ensures x in Discovered(modules) <==> IsTool(x) && ProvidedBy(modules, x)
    decreases |modules|
  {
    if modules != [] {
      var n := |modules| - 1;
      DiscoveredMembers(modules[..n], x);
      ToolsOfMembers(Reached(modules[n]), x);
      ProvidedBySplit(modules, x);
    }
  }

  lemma DiscoveredAreTools(modules: seq<Module>)
    ensures forall a :: a in Discovered(modules) ==> IsTool(a)
  {
    forall a | a in Discovered(modules) ensures IsTool(a) {
      DiscoveredMembers(modules, a);
    }
  }

  /** `Agent.__init__` starts from no default tools and extends them with the discovered ones only when modules are listed; that is the same as discovering. */
  function InitialTools(toolModules: seq<Module>): (r: seq<Attr>)
    ensures r == Discovered(toolModules)
  {
    [] + (if toolModules != [] then Discovered(toolModules) else [])
  }
}
