/**
  The annotation processor's choice of how to deserialize a common property
  (one not annotated `@Root` or `@Composable` and not a deserialization
  context). The code each strategy emits is not modelled: a strategy is a
  tag naming the writer the processor hands the property to.
*/
module CommonProperty {
  import opened Options

  /** A custom deserializer found for the property's type. */
  datatype Deserializer = Deserializer(name: string)

  /** What the processor's type predicates answer about a property's type. */
  datatype TypeTraits = TypeTraits(
    isPrimitive: bool,
    isEnum: bool,
    isFunctionType: bool,
    isList: bool,
    isMap: bool)

  /** A declared property: its name and its type. */
  datatype Property = Property(name: string, typ: TypeTraits)

  /** The function-writer context of one property, together with what the
      deserializer lookup returns for it. */
  datatype WriterContext = WriterContext(
    functionName: string,
    property: Property,
    deserializer: Option<Deserializer>)

  /** The writer a property is handed to. */
  datatype Strategy =
    | CustomDeserialized(deserializer: Deserializer)
    | PrimitiveType
    | EnumType
    | EventType
    | ListType
    | MapType
    | AutoDeserialized

  /** `CommonProperty.write`: the first branch of the `when` whose condition
      holds picks the writer. */
  function Write(ctx: WriterContext): (r: Strategy)
    ensures Chosen(ctx, r)
    ensures r.CustomDeserialized? <==> ctx.deserializer.Some?
    ensures r.CustomDeserialized? ==> ctx.deserializer == Some(r.deserializer)
    ensures r == AutoDeserialized <==> ctx.deserializer.None? && !AnyTypePredicate(ctx.property.typ)
  {
    var t := ctx.property.typ;
    match ctx.deserializer
    case Some(d) => CustomDeserialized(d)
    case None =>
      if t.isPrimitive then PrimitiveType
      else if t.isEnum then EnumType
      else if t.isFunctionType then EventType
      else if t.isList then ListType
      else if t.isMap then MapType
      else AutoDeserialized
  }

  /** One of the five type predicates holds. */
  predicate AnyTypePredicate(t: TypeTraits) {
    t.isPrimitive || t.isEnum || t.isFunctionType || t.isList || t.isMap
  }

  /** The position of a strategy's branch in the `when`. */
  function Rank(s: Strategy): nat {
    match s
    case CustomDeserialized(_) => 0
    case PrimitiveType => 1
    case EnumType => 2
    case EventType => 3
    case ListType => 4
    case MapType => 5
    case AutoDeserialized => 6
  }

  /** The condition of a strategy's branch, taken on its own. */
  predicate Guard(ctx: WriterContext, s: Strategy) {
    match s
    case CustomDeserialized(d) => ctx.deserializer == Some(d)
    case PrimitiveType => ctx.property.typ.isPrimitive
    case EnumType => ctx.property.typ.isEnum
    case EventType => ctx.property.typ.isFunctionType
    case ListType => ctx.property.typ.isList
    case MapType => ctx.property.typ.isMap
    case AutoDeserialized => true
  }

  /** `s` is the strategy a priority-ordered dispatch must pick: its own
      condition holds and every earlier branch's condition fails. */
  ghost predicate Chosen(ctx: WriterContext, s: Strategy) {
    Guard(ctx, s) && forall t :: Rank(t) < Rank(s) ==> !Guard(ctx, t)
  }

  /** Exactly one strategy is the chosen one: any two are the same. */
  lemma ChosenIsUnique(ctx: WriterContext, s: Strategy, t: Strategy)
    requires Chosen(ctx, s) && Chosen(ctx, t)
    ensures s == t
  {
  }

  /** `Write` picks `s` if and only if `s` is the chosen strategy. */
  lemma WriteIsTheChosenStrategy(ctx: WriterContext, s: Strategy)
    ensures Write(ctx) == s <==> Chosen(ctx, s)
  {
  }

  /** The branch conditions in `when` order; the last, `else`, always holds. */
  function Branches(ctx: WriterContext): seq<Strategy> {
    var d := match ctx.deserializer case Some(d) => d case None => Deserializer("");
    [CustomDeserialized(d), PrimitiveType, EnumType, EventType, ListType, MapType, AutoDeserialized]
  }

  /** The dispatch run as a table: scan the branches in order and stop at
      the first whose condition holds. */
  method DispatchInOrder(ctx: WriterContext) returns (r: Strategy)
    ensures Chosen(ctx, r)
    ensures r == Write(ctx)
  {
    var branches := Branches(ctx);
    var i := 0;
    while !Guard(ctx, branches[i])
      invariant 0 <= i < |branches|
      invariant forall j :: 0 <= j < i ==> !Guard(ctx, branches[j])
      invariant forall j :: 0 <= j < |branches| ==> Rank(branches[j]) == j
      decreases |branches| - i
    {
      i := i + 1;
    }
    r := branches[i];
    forall t | Rank(t) < Rank(r)
      ensures !Guard(ctx, t)
    {
      if t.CustomDeserialized? {
        assert !Guard(ctx, branches[0]);
      } else {
        assert t == branches[Rank(t)];
      }
    }
    WriteIsTheChosenStrategy(ctx, r);
  }

  /** A custom deserializer wins whatever the property's type. */
  lemma CustomDeserializerWins(ctx: WriterContext, d: Deserializer)
    requires ctx.deserializer == Some(d)
    ensures Write(ctx) == CustomDeserialized(d)
  {
  }

  /** A type that is both list-like and map-like, and nothing earlier, is
      written as a list. */
  lemma ListBeforeMap(ctx: WriterContext)
    requires ctx.deserializer.None?
    requires !ctx.property.typ.isPrimitive && !ctx.property.typ.isEnum && !ctx.property.typ.isFunctionType
    requires ctx.property.typ.isList && ctx.property.typ.isMap
    ensures Write(ctx) == ListType
  {
  }

  /** The choice reads nothing but the deserializer lookup and the type
      predicates: the property's name and the function being written do not
      matter. */
  lemma WriteDependsOnlyOnClassification(a: WriterContext, b: WriterContext)
    requires a.deserializer == b.deserializer
    requires a.property.typ == b.property.typ
    ensures Write(a) == Write(b)
  {
  }
}
