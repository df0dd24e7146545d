/**
 * `WysiiiPluginManager`: plugins kept under their names in registration order, and
 * the hook calls that `init` and `exec` make. A plugin is reduced to the set of hook
 * names it defines as functions; calling a hook is recorded as an event.
 */
module Plugins {

  /** An argument passed to a hook or to the browser's formatting command. */
  datatype Value = Null | Str(s: string) | EditorHandle

  /** A plugin, seen only through which of its properties are functions. */
  datatype Plugin = Plugin(hooks: set<string>)

  /** What the editor does, observably, while it dispatches a command. */
  datatype Event =
    | HookCall(plugin: string, hook: string, args: seq<Value>)
    | Format(command: string, value: Value)   // document.execCommand(command, false, value)
    | Focus                                   // editor.focus()

  type Entry = (string, Plugin)

  const INIT: string := "init"

  function Names(es: seq<Entry>): (r: seq<string>)
  {
    seq(|es|, i requires 0 <= i < |es| => es[i].0)
  }

  lemma NamesCons(e: Entry, es: seq<Entry>)
    ensures Names([e] + es) == [e.0] + Names(es)
  {
  }

  predicate Distinct(names: seq<string>)
  {
    forall i, j :: 0 <= i < j < |names| ==> names[i] != names[j]
  }

  /**
   * `plugins[name] = plugin` on an object whose keys are `es`'s names in insertion
   * order: an existing key keeps its place and takes the new value, a new key goes last.
   */
  function Put(es: seq<Entry>, name: string, p: Plugin): (r: seq<Entry>)
    ensures (name, p) in r
    ensures Names(r) == if name in Names(es) then Names(es) else Names(es) + [name]
    ensures forall e :: e in r && e.0 != name ==> e in es
    decreases |es|
  {
    if es == [] then [(name, p)]
    else
      assert es == [es[0]] + es[1..];
      NamesCons(es[0], es[1..]);
      if es[0].0 == name then
        NamesCons((name, p), es[1..]);
        [(name, p)] + es[1..]
      else
        NamesCons(es[0], Put(es[1..], name, p));
        [es[0]] + Put(es[1..], name, p)
  }

  /** Registering a new name appends it. */
  lemma {:induction false} PutFresh(es: seq<Entry>, name: string, p: Plugin)
    requires name !in Names(es)
    ensures Put(es, name, p) == es + [(name, p)]
    decreases |es|
  {
    if es != [] {
      assert es[0].0 == Names(es)[0];
      assert Names(es[1..]) == Names(es)[1..];
      PutFresh(es[1..], name, p);
      assert es == [es[0]] + es[1..];
    }
  }

  /** With distinct names, the names after the first stay distinct and differ from it. */
  lemma DistinctTail(es: seq<Entry>, i: nat)
    requires Distinct(Names(es))
    requires 0 < i < |es|
    ensures es[0].0 != es[i].0
    ensures Distinct(Names(es[1..]))
  {
    assert Names(es)[0] != Names(es)[i];
    assert Names(es[1..]) == Names(es)[1..];
  }

  /** Registering a known name replaces that one entry, in place. */
  lemma {:induction false} PutExisting(es: seq<Entry>, i: nat, name: string, p: Plugin)
    requires Distinct(Names(es))
    requires i < |es| && es[i].0 == name
    ensures Put(es, name, p) == es[i := (name, p)]
    decreases |es|
  {
    var rest := es[1..];
    assert es == [es[0]] + rest;
    if i > 0 {
      DistinctTail(es, i);
      PutExisting(rest, i - 1, name, p);
      assert es[i := (name, p)] == [es[0]] + rest[i - 1 := (name, p)];
    } else {
      assert es[i := (name, p)] == [(name, p)] + rest;
    }
  }

  /**
   * The calls `exec(hook, ...args)` makes over `es`: one per plugin that defines
   * `hook`, in order. Written from the back, as the loop builds it.
   */
  function HookCalls(es: seq<Entry>, hook: string, args: seq<Value>): (r: seq<Event>)
    ensures |r| <= |es|
    ensures forall j :: 0 <= j < |r| ==> r[j].HookCall? && r[j].hook == hook && r[j].args == args
    ensures forall j :: 0 <= j < |r| ==> r[j].plugin in Names(es)
    decreases |es|
  {
    if es == [] then []
    else
      var n := |es| - 1;
      assert Names(es[..n]) == Names(es)[..n];
      assert Names(es)[n] == es[n].0;
      HookCalls(es[..n], hook, args) + (if hook in es[n].1.hooks then [HookCall(es[n].0, hook, args)] else [])
  }

  /** How many of `events` call a hook of the plugin `name`. */
  function Occurrences(events: seq<Event>, name: string): (r: nat)
    decreases |events|
  {
    if events == [] then 0
    else
      var n := |events| - 1;
      Occurrences(events[..n], name) + (if events[n].HookCall? && events[n].plugin == name then 1 else 0)
  }

  lemma {:induction false} OccurrencesAppend(a: seq<Event>, b: seq<Event>, name: string)
    ensures Occurrences(a + b, name) == Occurrences(a, name) + Occurrences(b, name)
    decreases |b|
  {
    if b != [] {
      var n := |b| - 1;
      assert (a + b)[..|a| + n] == a + b[..n];
      OccurrencesAppend(a, b[..n], name);
    } else {
      assert a + b == a;
    }
  }

  lemma {:induction false} OccurrencesAbsent(events: seq<Event>, name: string)
    requires forall j :: 0 <= j < |events| ==> events[j].HookCall? && events[j].plugin != name
    ensures Occurrences(events, name) == 0
    decreases |events|
  {
    if events != [] {
      OccurrencesAbsent(events[..|events| - 1], name);
    }
  }

  /** Position of `name` in `names`, or -1. */
  function IndexOf(names: seq<string>, name: string): (r: int)
    ensures name in names ==> 0 <= r < |names| && names[r] == name
    ensures name !in names ==> r == -1
    decreases |names|
  {
    if names == [] then -1
    else
      var n := |names| - 1;
      if name in names[..n] then IndexOf(names[..n], name)
      else if names[n] == name then n
      else -1
  }

  /** Every plugin that defines `hook` is called exactly once; every other one, never. */
  lemma {:induction false} HookCalledOnce(es: seq<Entry>, hook: string, args: seq<Value>, i: nat)
    requires Distinct(Names(es))
    requires i < |es|
    ensures Occurrences(HookCalls(es, hook, args), es[i].0) == if hook in es[i].1.hooks then 1 else 0
    decreases |es|
  {
    var n := |es| - 1;
    var prefix := es[..n];
    var tail := if hook in es[n].1.hooks then [HookCall(es[n].0, hook, args)] else [];
    assert HookCalls(es, hook, args) == HookCalls(prefix, hook, args) + tail;
    OccurrencesAppend(HookCalls(prefix, hook, args), tail, es[i].0);
    assert Names(prefix) == Names(es)[..n];
    if i == n {
      assert es[n].0 !in Names(prefix) by {
        forall k | 0 <= k < n ensures Names(prefix)[k] != es[n].0 {
          assert Names(es)[k] != Names(es)[n];
        }
      }
      OccurrencesAbsent(HookCalls(prefix, hook, args), es[n].0);
      if tail != [] {
        assert tail[..0] == [];
      }
    } else {
      assert Distinct(Names(prefix));
      HookCalledOnce(prefix, hook, args, i);
      assert prefix[i] == es[i];
      assert Names(es)[i] != Names(es)[n];
      if tail != [] {
        assert tail[..0] == [];
      }
    }
  }

  /** The calls follow registration order. */
  lemma {:induction false} HookCallsInOrder(es: seq<Entry>, hook: string, args: seq<Value>)
    requires Distinct(Names(es))
    ensures forall j1, j2 :: 0 <= j1 < j2 < |HookCalls(es, hook, args)| ==>
      IndexOf(Names(es), HookCalls(es, hook, args)[j1].plugin) < IndexOf(Names(es), HookCalls(es, hook, args)[j2].plugin)
    decreases |es|
  {
    if es != [] {
      var n := |es| - 1;
      var prefix := es[..n];
      var before := HookCalls(prefix, hook, args);
      var r := HookCalls(es, hook, args);
      assert Names(prefix) == Names(es)[..n];
      assert Distinct(Names(prefix));
      HookCallsInOrder(prefix, hook, args);
      assert r[..|before|] == before;
      forall j | 0 <= j < |before|
        ensures IndexOf(Names(es), before[j].plugin) == IndexOf(Names(prefix), before[j].plugin) < n
      {
        assert Names(es)[..n] == Names(prefix);
      }
      assert es[n].0 !in Names(prefix) by {
        forall k | 0 <= k < n ensures Names(prefix)[k] != es[n].0 {
          assert Names(es)[k] != Names(es)[n];
        }
      }
      assert IndexOf(Names(es), es[n].0) == n by {
        assert Names(es)[..n] == Names(prefix);
      }
      forall j1, j2 | 0 <= j1 < j2 < |r|
        ensures IndexOf(Names(es), r[j1].plugin) < IndexOf(Names(es), r[j2].plugin)
      {
        assert r[j1] == before[j1];
        assert IndexOf(Names(es), before[j1].plugin) == IndexOf(Names(prefix), before[j1].plugin) < n;
        if j2 < |before| {
          assert r[j2] == before[j2];
          assert IndexOf(Names(es), before[j2].plugin) == IndexOf(Names(prefix), before[j2].plugin);
          assert IndexOf(Names(prefix), before[j1].plugin) < IndexOf(Names(prefix), before[j2].plugin);
        } else {
          assert r[j2] == HookCall(es[n].0, hook, args);
        }
      }
    }
  }

  /** One more plugin walked: its call, if it defines the hook, goes after the earlier ones. */
  lemma HookCallsStep(es: seq<Entry>, k: nat, hook: string, args: seq<Value>)
    requires k < |es|
    ensures HookCalls(es[..k + 1], hook, args) == HookCalls(es[..k], hook, args)
      + (if hook in es[k].1.hooks then [HookCall(es[k].0, hook, args)] else [])
  {
    assert es[..k + 1][..k] == es[..k];
  }

  /** A registry whose key order lists each of its keys exactly once. */
  predicate Keyed(o: seq<string>, m: map<string, Plugin>)
  {
    Distinct(o) && m.Keys == set n | n in o
  }

  /** The entries `Object.values` walks: each key of `o`, in order, with what `m` holds for it. */
  function EntriesOf(o: seq<string>, m: map<string, Plugin>): (es: seq<Entry>)
    requires Keyed(o, m)
    ensures Names(es) == o
  {
    var es := seq(|o|, i requires 0 <= i < |o| => (o[i], m[o[i]]));
    assert Names(es) == o;
    es
  }

  /** Storing under a known key: that entry takes the new value, every other one is kept. */
  lemma EntriesReplace(o: seq<string>, m: map<string, Plugin>, name: string, p: Plugin)
    requires Keyed(o, m) && name in m
    ensures Keyed(o, m[name := p])
    ensures EntriesOf(o, m[name := p]) == Put(EntriesOf(o, m), name, p)
    ensures |EntriesOf(o, m[name := p])| == |EntriesOf(o, m)|
    ensures forall k :: 0 <= k < |o| ==>
      EntriesOf(o, m[name := p])[k] == if o[k] == name then (name, p) else EntriesOf(o, m)[k]
  {
    var i :| 0 <= i < |o| && o[i] == name;
    EntriesReplaceAt(o, m, i, p);
    PutExisting(EntriesOf(o, m), i, name, p);
  }

  lemma EntriesReplaceAt(o: seq<string>, m: map<string, Plugin>, i: nat, p: Plugin)
    requires Keyed(o, m) && i < |o|
    ensures Keyed(o, m[o[i] := p])
    ensures EntriesOf(o, m[o[i] := p]) == EntriesOf(o, m)[i := (o[i], p)]
    ensures forall k :: 0 <= k < |o| ==>
      EntriesOf(o, m[o[i] := p])[k] == if o[k] == o[i] then (o[i], p) else EntriesOf(o, m)[k]
  {
    var es, now := EntriesOf(o, m), EntriesOf(o, m[o[i] := p]);
    forall k | 0 <= k < |o|
      ensures now[k] == es[i := (o[i], p)][k]
    {
      if k != i {
        assert o[k] != o[i];
      }
    }
    assert now == es[i := (o[i], p)];
  }

  /** Storing under a new key appends its entry. */
  lemma EntriesAppend(o: seq<string>, m: map<string, Plugin>, name: string, p: Plugin)
    requires Keyed(o, m) && name !in m
    ensures Keyed(o + [name], m[name := p])
    ensures EntriesOf(o + [name], m[name := p]) == EntriesOf(o, m) + [(name, p)]
    ensures EntriesOf(o + [name], m[name := p]) == Put(EntriesOf(o, m), name, p)
  {
    var es := EntriesOf(o, m);
    assert Keyed(o + [name], m[name := p]) by {
      assert (set n | n in o + [name]) == (set n | n in o) + {name};
    }
    var now := EntriesOf(o + [name], m[name := p]);
    assert now == es + [(name, p)] by {
      forall k | 0 <= k < |o| ensures now[k] == es[k] {
        assert o[k] != name;
      }
    }
    PutFresh(es, name, p);
  }

  /** The registry: plugin names in insertion order, and what each name holds. */
  class PluginManager {
    var order: seq<string>
    var plugins: map<string, Plugin>

    ghost predicate Valid()
      reads this
    {
      Keyed(order, plugins)
    }

    /** The registry as `Object.values` would walk it, with each value's key. */
    function Entries(): (es: seq<Entry>)
      reads this
      requires Valid()
      ensures Names(es) == order
    {
      EntriesOf(order, plugins)
    }

    constructor ()
      ensures Valid() && Entries() == []
    {
      order := [];
      plugins := map[];
    }

    /** `register(name, plugin)`. */
    method Register(name: string, p: Plugin)
      requires Valid()
      modifies this
      ensures Valid()
      ensures Entries() == Put(old(Entries()), name, p)
      ensures name !in old(order) ==> Entries() == old(Entries()) + [(name, p)]
      ensures name in old(order) ==>
        (|Entries()| == |old(Entries())| &&
         forall i :: 0 <= i < |order| ==>
           Entries()[i] == if order[i] == name then (name, p) else old(Entries())[i])
    {
      if name in plugins {
        EntriesReplace(order, plugins, name, p);
        plugins := plugins[name := p];
      } else {
        EntriesAppend(order, plugins, name, p);
        order := order + [name];
        plugins := plugins[name := p];
      }
    }

    /** `exec(hook, ...args)`: call `hook` on each plugin that defines it. */
    method Exec(hook: string, args: seq<Value>) returns (calls: seq<Event>)
      requires Valid()
      ensures calls == HookCalls(Entries(), hook, args)
    {
      calls := [];
      for k := 0 to |order|
        invariant calls == HookCalls(Entries()[..k], hook, args)
      {
        var p := plugins[order[k]];
        HookCallsStep(Entries(), k, hook, args);
        if hook in p.hooks {
          calls := calls + [HookCall(order[k], hook, args)];
        }
      }
      assert Entries()[..|order|] == Entries();
    }

    /** `init()`: call `init(editor)` on each plugin that defines it. */
    method Init() returns (calls: seq<Event>)
      requires Valid()
      ensures calls == HookCalls(Entries(), INIT, [EditorHandle])
    {
      calls := [];
      for k := 0 to |order|
        invariant calls == HookCalls(Entries()[..k], INIT, [EditorHandle])
      {
        var p := plugins[order[k]];
        HookCallsStep(Entries(), k, INIT, [EditorHandle]);
        if INIT in p.hooks {
          calls := calls + [HookCall(order[k], INIT, [EditorHandle])];
        }
      }
      assert Entries()[..|order|] == Entries();
    }
  }
}
