/** The denormalized document the walk runs over, as an arena of composite
    nodes. After `$ref` resolution the document is a graph that may share
    nodes and contain cycles; the identity of a JavaScript object or array is
    its node id here, so two structurally equal nodes with different ids are
    different values. */
module JsonGraph {

  type NodeId = nat

  /** JavaScript symbols: the library's private origins key, or one the caller made. */
  datatype Symbol = OriginsMetaKey | CallerSymbol(id: nat)

  /** A property key as the crawler offers it: a string property, an array
      index, or a symbol (used for metadata that the normalizer attaches). */
  datatype Key = Prop(name: string) | Index(i: nat) | SymbolKey(symbol: Symbol)

  /** A value: a reference to a composite node, or a primitive. */
  datatype Value = Ref(id: NodeId) | BoolVal(b: bool) | NumVal(n: int) | StrVal(s: string) | NullVal

  /** A composite node: an object with its entries in enumeration order, or an array. */
  datatype Composite = Obj(entries: seq<(Key, Value)>) | Arr(items: seq<Value>)

  type Document = map<NodeId, Composite>

  /** `isObject` of the crawler library: objects and arrays, not null. */
  predicate IsObject(v: Value) {
    v.Ref?
  }

  /** `Array.isArray`. */
  predicate IsArray(doc: Document, v: Value) {
    v.Ref? && v.id in doc && doc[v.id].Arr?
  }

  /** `typeof v === 'boolean'`. */
  predicate IsBoolean(v: Value) {
    v.BoolVal?
  }

  /** The (key, value) pairs the crawler enumerates below a node: object
      entries in order, array elements under their indices. */
  function Children(doc: Document, id: NodeId): (cs: seq<(Key, Value)>)
    ensures id !in doc ==> cs == []
    ensures id in doc && doc[id].Obj? ==> cs == doc[id].entries
    ensures id in doc && doc[id].Arr? ==>
              |cs| == |doc[id].items| &&
              forall i :: 0 <= i < |cs| ==> cs[i] == (Index(i), doc[id].items[i])
  {
    if id !in doc then []
    else match doc[id]
      case Obj(es) => es
      case Arr(xs) => seq(|xs|, i requires 0 <= i < |xs| => (Index(i), xs[i]))
  }

  /** An optional member of an object literal. JavaScript tells apart a key
      that is missing from one that is present with the value `undefined`,
      and object spread copies the latter. */
  datatype Member<T> = Missing | Undefined | Present(value: T)

  /** The member after `{ k: base, ...{ k: over } }`: a key that the spread
      object carries wins, even when its value is `undefined`. */
  function Spread<T>(base: Member<T>, over: Member<T>): (r: Member<T>)
    ensures over.Missing? ==> r == base
    ensures !over.Missing? ==> r == over
  {
    if over.Missing? then base else over
  }
}
