/**
  The slice of the embedded Lua runtime that the loader touches: opaque state
  pointers, the native `lapi` functions it registers, and the global table of
  a state seen as a map from name to value.

  The Lua C API stack (`lua_pushcclosure` followed by `lua_setfield` on the
  globals index) is not modelled step by step; `MapFn` states its net effect
  on the global table.
 */
module Lua {

  /** A pointer-sized, opaque address (`lua_state*`, `void*`). */
  type Ptr = nat

  /** The null pointer. */
  const NULL: Ptr := 0

  /** The `lua_alloc` callback handed to `lua_newstate`, known only by its address. */
  datatype Allocator = Allocator(address: Ptr)

  /** The native extension functions of the `lapi` namespace. */
  datatype NativeFunction = Pcall | LoadFile | DoHttpReq | Log | Unzip

  /** A value stored in a global slot: a native C closure, or anything else a script put there. */
  datatype Value = CClosure(fn: NativeFunction) | ScriptValue(id: nat)

  /** The global table of one Lua state. */
  type Globals = map<string, Value>

  /** One `lua_mapfn(name, function)` line of the construction interceptor. */
  datatype Binding = Binding(name: string, fn: NativeFunction)

  /** The extensions bound into every new state, in the order they are bound. */
  const Extensions: seq<Binding> := [
    Binding("pcall", Pcall),
    Binding("dofile", LoadFile),
    Binding("dohttpreq", DoHttpReq),
    Binding("log", Log)
  ]

  /** The names a list of bindings writes to. */
  function Names(bindings: seq<Binding>): set<string>
  {
    set i | 0 <= i < |bindings| :: bindings[i].name
  }

  /** The global names the extensions occupy. */
  const ExtensionNames: set<string> := Names(Extensions)

  /** No name is bound twice. */
  predicate DistinctNames(bindings: seq<Binding>)
  {
    forall i, j :: 0 <= i < j < |bindings| ==> bindings[i].name != bindings[j].name
  }

  /** Push `fn` as a closure without upvalues and store it under `name` in the globals. */
  function MapFn(g: Globals, name: string, fn: NativeFunction): Globals
  {
    g[name := CClosure(fn)]
  }

  /** Apply the bindings one after the other, first to last. */
  function InstallExtensions(g: Globals, bindings: seq<Binding>): Globals
    decreases |bindings|
  {
    if |bindings| == 0 then g
    else InstallExtensions(MapFn(g, bindings[0].name, bindings[0].fn), bindings[1..])
  }

  /** The bound names are added to the table's names, and no others. */
  lemma {:induction false} InstallExtensionsBindsNames(g: Globals, bindings: seq<Binding>)
    ensures var r := InstallExtensions(g, bindings);
            r.Keys == g.Keys + Names(bindings)
    decreases |bindings|
  {
    if |bindings| > 0 {
      var g' := MapFn(g, bindings[0].name, bindings[0].fn);
      InstallExtensionsBindsNames(g', bindings[1..]);
      assert Names(bindings) == {bindings[0].name} + Names(bindings[1..]) by {
        forall n | n in Names(bindings)
          ensures n in {bindings[0].name} + Names(bindings[1..])
        {
          var i :| 0 <= i < |bindings| && bindings[i].name == n;
          if i > 0 {
            assert bindings[1..][i - 1].name == n;
          }
        }
        forall n | n in Names(bindings[1..])
          ensures n in Names(bindings)
        {
          var i :| 0 <= i < |bindings[1..]| && bindings[1..][i].name == n;
          assert bindings[i + 1].name == n;
        }
      }
    }
  }

  /** With distinct names, each name ends up holding exactly the function bound to it. */
  lemma {:induction false} InstallExtensionsBindsEach(g: Globals, bindings: seq<Binding>)
    requires DistinctNames(bindings)
    ensures var r := InstallExtensions(g, bindings);
            forall i :: 0 <= i < |bindings| ==>
              bindings[i].name in r && r[bindings[i].name] == CClosure(bindings[i].fn)
    decreases |bindings|
  {
    if |bindings| > 0 {
      var g' := MapFn(g, bindings[0].name, bindings[0].fn);
      var tail := bindings[1..];
      InstallExtensionsBindsEach(g', tail);
      InstallExtensionsKeepsOthers(g', tail);
      var r := InstallExtensions(g, bindings);
      assert bindings[0].name !in Names(tail);
      forall i | 0 <= i < |bindings|
        ensures bindings[i].name in r && r[bindings[i].name] == CClosure(bindings[i].fn)
      {
        if i > 0 {
          assert tail[i - 1] == bindings[i];
        }
      }
    }
  }

  /** Names no binding mentions keep whatever value they had, and stay absent if absent. */
  lemma {:induction false} InstallExtensionsKeepsOthers(g: Globals, bindings: seq<Binding>)
    ensures var r := InstallExtensions(g, bindings);
            forall k :: k !in Names(bindings) ==> (k in r <==> k in g) && (k in g ==> r[k] == g[k])
    decreases |bindings|
  {
    if |bindings| > 0 {
      var g' := MapFn(g, bindings[0].name, bindings[0].fn);
      InstallExtensionsKeepsOthers(g', bindings[1..]);
      forall k | k !in Names(bindings)
        ensures k !in Names(bindings[1..]) && k != bindings[0].name
      {
        assert bindings[0].name in Names(bindings);
      }
    }
  }

  /**
    The four extensions of the loader: `pcall`, `dofile`, `dohttpreq` and `log`
    are bound to their `lapi` natives (`dofile` to the file loader), `unzip`
    is left as it was, and every other global keeps its value.
   */
  lemma ExtensionTable(g: Globals)
    ensures var r := InstallExtensions(g, Extensions);
            && ExtensionNames == {"pcall", "dofile", "dohttpreq", "log"}
            && r.Keys == g.Keys + ExtensionNames
            && r["pcall"] == CClosure(Pcall)
            && r["dofile"] == CClosure(LoadFile)
            && r["dohttpreq"] == CClosure(DoHttpReq)
            && r["log"] == CClosure(Log)
            && ("unzip" in r <==> "unzip" in g)
            && ("unzip" in g ==> r["unzip"] == g["unzip"])
            && (forall k :: k in g && k !in ExtensionNames ==> r[k] == g[k])
  {
  }
}
