/**
  The propagation context that ctxdb relies on: Go's context.Context, reduced
  to what a value lookup can see. A context is an immutable chain of nodes; a
  new node points to its parent and never changes it.
 */
module Contexts {
  import opened Wrappers

  datatype Context<K, V> =
    | Background                                       // context.Background(): the root
    | WithValue(parent: Context<K, V>, key: K, val: V) // context.WithValue(parent, key, val)
    | WithCancel(parent: Context<K, V>)                // a cancelable or deadline node: it binds no value

  /** Context.Value: the value of the nearest binding of `key`, walking from the node to the root. */
  function Value<K(==), V>(ctx: Context<K, V>, key: K): Option<V>
  {
    match ctx
    case Background => None
    case WithValue(p, k, v) => if k == key then Some(v) else Value(p, key)
    case WithCancel(p) => Value(p, key)
  }

  /** Every key/value binding of the chain, nearest first: the reference view of a context. */
  function Bindings<K, V>(ctx: Context<K, V>): seq<(K, V)>
  {
    match ctx
    case Background => []
    case WithValue(p, k, v) => [(k, v)] + Bindings(p)
    case WithCancel(p) => Bindings(p)
  }

  /** Binding `i` of `bs` is for `key`, and no binding before it is. */
  predicate NearestAt<K(==), V>(bs: seq<(K, V)>, key: K, i: nat)
  {
    i < |bs| && bs[i].0 == key && forall j :: 0 <= j < i ==> bs[j].0 != key
  }

  /** `child` extends `ancestor` through nodes none of which binds `key` (other keys, cancel nodes). */
  predicate DerivedWithout<K(==), V(==)>(child: Context<K, V>, ancestor: Context<K, V>, key: K)
  {
    child == ancestor ||
    match child
    case Background => false
    case WithValue(p, k, _) => k != key && DerivedWithout(p, ancestor, key)
    case WithCancel(p) => DerivedWithout(p, ancestor, key)
  }

  /** A lookup answers with the nearest binding of the key in the chain. */
  lemma {:induction false} ValueIsNearest<K, V>(ctx: Context<K, V>, key: K, i: nat)
    requires NearestAt(Bindings(ctx), key, i)
    ensures Value(ctx, key) == Some(Bindings(ctx)[i].1)
  {
    match ctx
    case WithValue(p, k, v) =>
      if i > 0 {
        assert Bindings(ctx)[0].0 == k;
        forall j | 0 <= j < i - 1 ensures Bindings(p)[j].0 != key {
          assert Bindings(p)[j] == Bindings(ctx)[j + 1];
        }
        assert Bindings(p)[i - 1] == Bindings(ctx)[i];
        ValueIsNearest(p, key, i - 1);
      }
    case WithCancel(p) =>
      ValueIsNearest(p, key, i);
  }

  /** A lookup of a key that no node binds finds nothing. */
  lemma {:induction false} ValueUnbound<K, V>(ctx: Context<K, V>, key: K)
    requires forall i :: 0 <= i < |Bindings(ctx)| ==> Bindings(ctx)[i].0 != key
    ensures Value(ctx, key) == None
  {
    match ctx
    case Background =>
    case WithValue(p, k, v) =>
      assert Bindings(ctx)[0].0 == k;
      forall i | 0 <= i < |Bindings(p)| ensures Bindings(p)[i].0 != key {
        assert Bindings(p)[i] == Bindings(ctx)[i + 1];
      }
      ValueUnbound(p, key);
    case WithCancel(p) =>
      assert Bindings(ctx) == Bindings(p);
      ValueUnbound(p, key);
  }

  /** Nodes that do not bind `key` are transparent to a lookup of `key`. */
  lemma {:induction false} ValueThroughDerived<K, V>(child: Context<K, V>, ancestor: Context<K, V>, key: K)
    requires DerivedWithout(child, ancestor, key)
    ensures Value(child, key) == Value(ancestor, key)
  {
    if child != ancestor {
      match child
      case WithValue(p, k, _) => ValueThroughDerived(p, ancestor, key);
      case WithCancel(p) => ValueThroughDerived(p, ancestor, key);
    }
  }
}
