/**
 * The structural visitor over a driver's source value: `wrapSource` rebuilds an
 * object key by key, and an accessor wrapper decides, from what the wrapped
 * accessor returns, whether to pass it through, wrap it again with a longer
 * scope, or record it as a leaf channel.
 */
module SourceTree {
  import opened Common
  import opened Identifier

  /** An own property key: a string name or a symbol. */
  datatype Key = Named(name: string) | Symbol(id: nat)

  /** A property of a source object: a plain value or a function (identified, not interpreted). */
  datatype Prop = Value(v: Payload) | Function(fid: nat)

  /** Any JavaScript value a driver or an accessor can return, as far as `typeof` tells them apart. */
  datatype Returned =
    | Undefined
    | Null
    | Primitive(v: Payload)
    | FunctionValue(fid: nat)
    | Object(props: map<Key, Prop>)

  const DisposeKey: Key := Named("dispose")
  const LogKey: Key := Named("log$")
  const SubscribeKey: Key := Named("subscribe")

  /** `typeof value.subscribe === 'function'`: the object is a stream. */
  predicate IsStream(props: map<Key, Prop>)
  {
    SubscribeKey in props && props[SubscribeKey].Function?
  }

  /**
   * The stream test is duck typing on `subscribe` alone: no other property
   * of the object changes whether it is recorded as a stream or wrapped.
   */
  lemma StreamTestOnlySubscribe(props: map<Key, Prop>, k: Key, p: Prop)
    requires k != SubscribeKey
    ensures IsStream(props[k := p]) == IsStream(props)
    ensures IsStream(props - {k}) == IsStream(props)
    ensures IsStream(props[SubscribeKey := p]) <==> p.Function?
  {
  }

  /** `typeof value === 'object'` (which holds for `null` too). */
  predicate IsObjectType(r: Returned)
  {
    r.Null? || r.Object?
  }

  /** A property of a wrapped source object. */
  datatype WrappedProp =
    | Copied(original: Prop)                                  // a plain value, copied unchanged
    | DisposeWrapper(original: Prop)                          // `makeDispose`: original dispose, then the registry
    | AccessorWrapper(name: string, fid: nat, scope: seq<string>) // `wrapSourceFunction`
    | FinalDispose(inner: Option<WrappedProp>)                // the driver-level `dispose`
    | LogView                                                 // `log$`

  /** What `wrapSource` puts under one own key of the source object. */
  function WrapProp(key: Key, p: Prop, scope: seq<string>): (w: WrappedProp)
    ensures w.DisposeWrapper? <==> key == DisposeKey
    ensures w.AccessorWrapper? <==> key != DisposeKey && key.Named? && p.Function?
    ensures w.DisposeWrapper? || w.Copied? ==> w.original == p
    ensures w.AccessorWrapper? ==> w.name == key.name && w.fid == p.fid && w.scope == scope
    ensures w.Copied? || w.DisposeWrapper? || w.AccessorWrapper?
  {
    if key == DisposeKey then DisposeWrapper(p)
    else if p.Function? && key.Named? then AccessorWrapper(key.name, p.fid, scope)
    else Copied(p)
  }

  /**
   * `wrapSource` as written: it walks `Object.keys`, which lists string keys
   * only, so a symbol-keyed property is lost.
   */
  function WrapSourceAsWritten(source: map<Key, Prop>, scope: seq<string>): (r: map<Key, WrappedProp>)
    ensures r.Keys == set k | k in source && k.Named?
    ensures forall k :: k in r ==> r[k] == WrapProp(k, source[k], scope)
  {
    map k | k in source && k.Named? :: WrapProp(k, source[k], scope)
  }

  /** A source object with a symbol key loses it when wrapped as written. */
  lemma SymbolKeyDropped()
    ensures var source := map[Symbol(0) := Value(1)];
            Symbol(0) !in WrapSourceAsWritten(source, [])
            && WrapProp(Symbol(0), source[Symbol(0)], []) == Copied(Value(1))
  {
  }

  /**
   * `wrapSource` over every own key, symbols included: the result has exactly
   * the source's keys, each wrapped by `WrapProp`.
   */
  method WrapSource(source: map<Key, Prop>, scope: seq<string>) returns (r: map<Key, WrappedProp>)
    ensures r.Keys == source.Keys
    ensures forall k :: k in r ==> r[k] == WrapProp(k, source[k], scope)
  {
    r := map[];
    var remaining := source.Keys;
    while remaining != {}
      invariant remaining <= source.Keys
      invariant r.Keys == source.Keys - remaining
      invariant forall k :: k in r ==> r[k] == WrapProp(k, source[k], scope)
      decreases remaining
    {
      var k :| k in remaining;
      r := r[k := WrapProp(k, source[k], scope)];
      remaining := remaining - {k};
    }
  }

  /** What an accessor wrapper does with what the wrapped accessor returned. */
  datatype CallKind =
    | ReturnRaw                        // an `isolate` helper, or a non-object result
    | NullTypeError                    // `null.subscribe` throws
    | WrapNested(scope: seq<string>)   // a plain object: wrapped again with the longer scope
    | RecordLeaf(identifier: string)   // a stream: recorded under the joined scope

  /** The branch `wrapSourceFunction`'s wrapper takes when called with `args`. */
  function ClassifyCall(name: string, scope: seq<string>, args: seq<string>, returned: Returned): (k: CallKind)
    ensures k.ReturnRaw? <==> Contains(name, "isolate") || !IsObjectType(returned)
    ensures k.NullTypeError? <==> !Contains(name, "isolate") && returned.Null?
    ensures k.WrapNested? <==> !Contains(name, "isolate") && returned.Object? && !IsStream(returned.props)
    ensures k.RecordLeaf? <==> !Contains(name, "isolate") && returned.Object? && IsStream(returned.props)
    ensures k.WrapNested? ==> k.scope == scope + args
    ensures k.RecordLeaf? ==> k.identifier == Join(scope + args)
  {
    var newScope := Extend(scope, args);
    if Contains(name, "isolate") || !IsObjectType(returned) then ReturnRaw
    else if returned.Null? then NullTypeError
    else if !IsStream(returned.props) then WrapNested(newScope)
    else RecordLeaf(Join(newScope))
  }

  /**
   * Navigating through a nested accessor: the leaf's identifier is the parent
   * call's arguments and the child call's arguments, joined; accessor names
   * take no part in it.
   */
  lemma NestedIdentifier(outer: string, inner: string, args1: seq<string>, args2: seq<string>,
                         mid: map<Key, Prop>, leaf: map<Key, Prop>)
    requires |args1| > 0 && |args2| > 0
    requires ClassifyCall(outer, [], args1, Object(mid)).WrapNested?
    requires ClassifyCall(inner, ClassifyCall(outer, [], args1, Object(mid)).scope, args2, Object(leaf)).RecordLeaf?
    ensures ClassifyCall(inner, args1, args2, Object(leaf)).identifier == Join(args1) + [Separator] + Join(args2)
  {
    assert [] + args1 == args1;
    JoinAppend(args1, args2);
  }

  /** How `restartableDriver` treats what the real driver returned. */
  datatype RootKind =
    | PassThrough                        // `undefined` or `null`: returned as is
    | SingleChannel                      // a stream: recorded under `':root'`
    | Tree(props: map<Key, Prop>)        // anything else: its own keys are wrapped

  /** The branch `restartableDriver` takes on the driver's return value. */
  function ClassifyRoot(returned: Returned): (k: RootKind)
    ensures k.PassThrough? <==> returned.Undefined? || returned.Null?
    ensures k.SingleChannel? <==> returned.Object? && IsStream(returned.props)
    ensures k.Tree? && returned.Object? ==> k.props == returned.props
    ensures k.Tree? && !returned.Object? ==> k.props == map[]
  {
    match returned
    case Undefined => PassThrough
    case Null => PassThrough
    case Object(props) => if IsStream(props) then SingleChannel else Tree(props)
    case _ => Tree(map[])   // a number or a function has no own enumerable keys
  }
}
