/** The checkpoint serializer's allow-list (src/agents/state_serde.py): every model and
    enum reachable from a root class through field annotations. */
module TypeClosure {
  import opened Wrappers

  /** An annotation as `typing` takes it apart. `origin` is the class a parametrised type
      is built on; unions and other special forms have none. */
  datatype Annotation =
    | Nothing
    | Leaf(name: string)
    | Annotated(inner: Annotation)
    | Parametrised(origin: Option<string>, args: seq<Annotation>)

  datatype Class = Model(fields: seq<Annotation>) | Enumeration | Other

  type Classes = map<string, Class>

  // ----- one annotation -----------------------------------------------------------------

  function Expand(a: Annotation): seq<string> {
    match a
    case Nothing => []
    case Leaf(name) => [name]
    case Annotated(inner) => Expand(inner)
    case Parametrised(origin, args) => ExpandAll(args) + (if origin.Some? then [origin.value] else [])
  }

  function ExpandAll(args: seq<Annotation>): seq<string> {
    if args == [] then [] else ExpandAll(args[..|args| - 1]) + Expand(args[|args| - 1])
  }

  method ExpandAnnotation(a: Annotation) returns (names: seq<string>)
    ensures names == Expand(a)
  {
    match a {
      case Nothing => names := [];
      case Leaf(name) => names := [name];
      case Annotated(inner) => names := ExpandAnnotation(inner);
      case Parametrised(origin, args) =>
        names := [];
        for i := 0 to |args|
          invariant names == ExpandAll(args[..i])
        {
          assert args[..i + 1][..i] == args[..i];
          var nested := ExpandAnnotation(args[i]);
          names := names + nested;
        }
        assert args[..|args|] == args;
        if origin.Some? {
          names := names + [origin.value];
        }
    }
  }

  /** The name occurs in the annotation, as a class or as the class a type is built on. */
  predicate Mentions(a: Annotation, name: string) {
    match a
    case Nothing => false
    case Leaf(n) => n == name
    case Annotated(inner) => Mentions(inner, name)
    case Parametrised(origin, args) => origin == Some(name) || exists i :: 0 <= i < |args| && Mentions(args[i], name)
  }

  lemma {:induction false} ExpandsToMentions(a: Annotation, name: string)
    ensures name in Expand(a) <==> Mentions(a, name)
    decreases a, if a.Parametrised? then |a.args| + 1 else 0
  {
    match a
    case Nothing =>
    case Leaf(_) =>
    case Annotated(inner) => ExpandsToMentions(inner, name);
    case Parametrised(origin, args) => ArgsMention(a, args, name);
  }

  lemma {:induction false} ArgsMention(a: Annotation, args: seq<Annotation>, name: string)
    requires a.Parametrised? && args <= a.args
    ensures name in ExpandAll(args) <==> exists i :: 0 <= i < |args| && Mentions(args[i], name)
    decreases a, |args|
  {
    if args != [] {
      var n := |args| - 1;
      assert args[n] == a.args[n];
      ExpandsToMentions(args[n], name);
      ArgsMention(a, args[..n], name);
      if exists i :: 0 <= i < |args| && Mentions(args[i], name) {
        var i :| 0 <= i < |args| && Mentions(args[i], name);
        assert i < n ==> Mentions(args[..n][i], name);
      }
    }
  }

  // ----- reachability ------------------------------------------------------------------------

  /** What the allow-list is about. */
  predicate Listed(g: Classes, name: string) {
    name in g && g[name] != Other
  }

  /** A field of model `from` mentions `to`. */
  predicate Refers(g: Classes, from: string, to: string) {
    from in g && g[from].Model? && exists i :: 0 <= i < |g[from].fields| && Mentions(g[from].fields[i], to)
  }

  /** `path` leads from the root through field annotations, along models, to a listed class. */
  ghost predicate Path(g: Classes, root: string, path: seq<string>) {
    && path != [] && path[0] == root
    && (forall i :: 0 <= i < |path| ==> Listed(g, path[i]))
    && (forall i :: 0 <= i < |path| - 1 ==> Refers(g, path[i], path[i + 1]))
  }

  ghost predicate Reachable(g: Classes, root: string, name: string) {
    exists path :: Path(g, root, path) && path[|path| - 1] == name
  }

  lemma ReachFurther(g: Classes, root: string, from: string, to: string)
    requires Reachable(g, root, from) && Refers(g, from, to) && Listed(g, to)
    ensures Reachable(g, root, to)
  {
    var path :| Path(g, root, path) && path[|path| - 1] == from;
    assert Path(g, root, path + [to]);
    assert (path + [to])[|path + [to]| - 1] == to;
  }

  /** Everything listed that the annotation mentions has been found. */
  ghost predicate Done(g: Classes, a: Annotation, found: set<string>) {
    forall name :: Mentions(a, name) && Listed(g, name) ==> name in found
  }

  /** Each field of each found model is done with, on the stack, or the one in hand. */
  ghost predicate Covered(g: Classes, found: set<string>, stack: seq<Annotation>, inHand: Option<Annotation>) {
    forall m, i :: m in found && m in g && g[m].Model? && 0 <= i < |g[m].fields| ==>
      Done(g, g[m].fields[i], found) || g[m].fields[i] in stack || inHand == Some(g[m].fields[i])
  }

  /** Whatever the annotation mentions can be reached. */
  ghost predicate Grounded(g: Classes, root: string, a: Annotation) {
    forall name :: Mentions(a, name) && Listed(g, name) ==> Reachable(g, root, name)
  }

  /** The worklist's invariant; `inHand` is the annotation being worked on. */
  ghost predicate Progress(
      g: Classes, root: string, found: set<string>, stack: seq<Annotation>, inHand: Option<Annotation>) {
    && (forall name :: name in found ==> Listed(g, name) && Reachable(g, root, name))
    && (forall i :: 0 <= i < |stack| ==> Grounded(g, root, stack[i]))
    && (inHand.Some? ==> Grounded(g, root, inHand.value))
    && (Done(g, Leaf(root), found) || Leaf(root) in stack || inHand == Some(Leaf(root)))
    && Covered(g, found, stack, inHand)
  }

  lemma Starts(g: Classes, root: string)
    ensures Progress(g, root, {}, [Leaf(root)], None)
  {
    if Listed(g, root) {
      assert Path(g, root, [root]) && [root][|[root]| - 1] == root;
    }
  }

  lemma Pops(g: Classes, root: string, found: set<string>, stack: seq<Annotation>, item: Annotation)
    requires Progress(g, root, found, stack + [item], None)
    ensures Progress(g, root, found, stack, Some(item))
  {
    hide Done, Grounded;
    var all := stack + [item];
    assert forall i :: 0 <= i < |stack| ==> all[i] == stack[i];
    assert all[|stack|] == item && Grounded(g, root, all[|stack|]);
    assert forall a :: a in all ==> a in stack || a == item;
  }

  lemma DoneStays(g: Classes, a: Annotation, found: set<string>, more: set<string>)
    requires Done(g, a, found) && found <= more
    ensures Done(g, a, more)
  {
  }

  /** A listed class the item mentions is found, its fields put on the stack. */
  lemma Finds(g: Classes, root: string, found: set<string>, stack: seq<Annotation>, item: Annotation, name: string)
    requires Progress(g, root, found, stack, Some(item)) && Mentions(item, name) && Listed(g, name)
    ensures Progress(g, root, found + {name}, if g[name].Model? then stack + g[name].fields else stack, Some(item))
  {
    assert Reachable(g, root, name);
    var more := found + {name};
    var fields := if g[name].Model? then g[name].fields else [];
    var longer := stack + fields;
    assert longer == if g[name].Model? then stack + g[name].fields else stack;
    forall i | 0 <= i < |fields| ensures Grounded(g, root, fields[i]) {
      forall to | Mentions(fields[i], to) && Listed(g, to) ensures Reachable(g, root, to) {
        ReachFurther(g, root, name, to);
      }
    }
    forall a | Done(g, a, found) ensures Done(g, a, more) {
      DoneStays(g, a, found, more);
    }
    hide Done, Grounded, Reachable;
    assert forall i :: 0 <= i < |longer| ==> longer[i] == if i < |stack| then stack[i] else fields[i - |stack|];
    assert forall a :: a in stack ==> a in longer;
    forall m, i | m in more && m in g && g[m].Model? && 0 <= i < |g[m].fields|
      ensures Done(g, g[m].fields[i], more) || g[m].fields[i] in longer || Some(item) == Some(g[m].fields[i])
    {
      if m == name {
        assert longer[|stack| + i] == g[m].fields[i];
      }
    }
  }

  lemma PutsDown(g: Classes, root: string, found: set<string>, stack: seq<Annotation>, item: Annotation)
    requires Progress(g, root, found, stack, Some(item)) && Done(g, item, found)
    ensures Progress(g, root, found, stack, None)
  {
    hide Grounded;
  }

  lemma {:induction false} PathIsFound(g: Classes, root: string, found: set<string>, path: seq<string>, n: nat)
    requires Progress(g, root, found, [], None) && Path(g, root, path) && n < |path|
    ensures path[n] in found
  {
    if n == 0 {
      assert Mentions(Leaf(root), root);
    } else {
      PathIsFound(g, root, found, path, n - 1);
      var m := path[n - 1];
      assert Refers(g, m, path[n - 1 + 1]);
      var i :| 0 <= i < |g[m].fields| && Mentions(g[m].fields[i], path[n]);
      assert Done(g, g[m].fields[i], found);
    }
  }

  lemma Ends(g: Classes, root: string, found: set<string>)
    requires Progress(g, root, found, [], None)
    ensures forall name :: name in found <==> Reachable(g, root, name)
  {
    forall name | Reachable(g, root, name) ensures name in found {
      var path :| Path(g, root, path) && path[|path| - 1] == name;
      PathIsFound(g, root, found, path, |path| - 1);
    }
  }

  function Models(g: Classes): set<string> {
    set m | m in g && g[m].Model?
  }

  lemma NoMoreLeft(g: Classes, found: set<string>, more: set<string>)
    requires found <= more
    ensures |Models(g) - more| <= |Models(g) - found|
    ensures (exists m :: m in Models(g) && m in more && m !in found) ==> |Models(g) - more| < |Models(g) - found|
  {
    var left, before := Models(g) - more, Models(g) - found;
    assert before == left + (before - left);
    if m :| m in Models(g) && m in more && m !in found {
      assert m in before - left;
    }
  }

  /** The worklist: it ends on every finite class graph, cyclic or not, with exactly the
      models and enums reachable from the root. */
  method ReachableTypes(g: Classes, root: string) returns (found: set<string>)
    ensures forall name :: name in found <==> Reachable(g, root, name)
  {
    hide Progress;
    found := {};
    var stack: seq<Annotation> := [Leaf(root)];
    Starts(g, root);
    while stack != []
      invariant Progress(g, root, found, stack, None)
      decreases |Models(g) - found|, |stack|
    {
      var item := stack[|stack| - 1];
      assert stack == stack[..|stack| - 1] + [item];
      stack := stack[..|stack| - 1];
      Pops(g, root, found, stack, item);
      found, stack := Visit(g, root, item, found, stack);
    }
    Ends(g, root, found);
  }

  /** Works one annotation off. */
  method Visit(g: Classes, root: string, item: Annotation, found: set<string>, stack: seq<Annotation>)
    returns (found': set<string>, stack': seq<Annotation>)
    requires Progress(g, root, found, stack, Some(item))
    ensures Progress(g, root, found', stack', None)
    ensures var left, left' := Models(g) - found, Models(g) - found';
      |left'| < |left| || (|left'| == |left| && stack' == stack)
  {
    hide Progress;
    found', stack' := found, stack;
    var candidates := ExpandAnnotation(item);
    for i := 0 to |candidates|
      invariant Progress(g, root, found', stack', Some(item)) && found <= found'
      invariant forall k :: 0 <= k < i && Listed(g, candidates[k]) ==> candidates[k] in found'
      invariant stack' == stack || exists m :: m in Models(g) && m in found' && m !in found
    {
      var candidate := candidates[i];
      if candidate in found' {
        continue;
      }
      ExpandsToMentions(item, candidate);
      if candidate in g && g[candidate].Model? {
        Finds(g, root, found', stack', item, candidate);
        assert candidate in Models(g);
        found' := found' + {candidate};
        stack' := stack' + g[candidate].fields;
      } else if candidate in g && g[candidate].Enumeration? {
        Finds(g, root, found', stack', item, candidate);
        found' := found' + {candidate};
      }
    }
    forall name | Mentions(item, name) && Listed(g, name) ensures name in found' {
      ExpandsToMentions(item, name);
      var k :| 0 <= k < |candidates| && candidates[k] == name;
    }
    PutsDown(g, root, found', stack', item);
    NoMoreLeft(g, found, found');
  }
}
