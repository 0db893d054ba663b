/**
 * Coffee decorator.
 *
 * A coffee is a simple coffee wrapped in any number of milk, whip and
 * vanilla layers. Each layer adds a fixed amount to the price of the coffee
 * it wraps and appends its own suffix to that coffee's description.
 */
module CoffeeDecorator {

  datatype Coffee =
    | SimpleCoffee
    | MilkCoffee(coffee: Coffee)
    | WhipCoffee(coffee: Coffee)
    | VanillaCoffee(coffee: Coffee)

  function Price(c: Coffee): (p: real)
    ensures p >= 3.0
  {
    match c
    case SimpleCoffee => 3.0
    case MilkCoffee(inner) => Price(inner) + 0.5
    case WhipCoffee(inner) => Price(inner) + 2.0
    case VanillaCoffee(inner) => Price(inner) + 1.0
  }

  function Description(c: Coffee): (d: string)
    ensures |d| >= |"Simple coffee"| && d[..|"Simple coffee"|] == "Simple coffee"
  {
    match c
    case SimpleCoffee => "Simple coffee"
    case MilkCoffee(inner) => Description(inner) + ", milk"
    case WhipCoffee(inner) => Description(inner) + ", whip"
    case VanillaCoffee(inner) => Description(inner) + ", vanilla"
  }

  /** One decoration, without the coffee it wraps. */
  datatype Layer = Milk | Whip | Vanilla

  function Increment(l: Layer): real
  {
    match l
    case Milk => 0.5
    case Whip => 2.0
    case Vanilla => 1.0
  }

  function Suffix(l: Layer): string
  {
    match l
    case Milk => ", milk"
    case Whip => ", whip"
    case Vanilla => ", vanilla"
  }

  /** The layers of `c`, innermost first (the order in which they were wrapped). */
  function Layers(c: Coffee): seq<Layer>
  {
    match c
    case SimpleCoffee => []
    case MilkCoffee(inner) => Layers(inner) + [Milk]
    case WhipCoffee(inner) => Layers(inner) + [Whip]
    case VanillaCoffee(inner) => Layers(inner) + [Vanilla]
  }

  /** A simple coffee wrapped in `ls`, first layer innermost. */
  function Wrap(ls: seq<Layer>): Coffee
  {
    if ls == [] then SimpleCoffee
    else
      var inner := Wrap(ls[..|ls| - 1]);
      match ls[|ls| - 1]
      case Milk => MilkCoffee(inner)
      case Whip => WhipCoffee(inner)
      case Vanilla => VanillaCoffee(inner)
  }

  /** A coffee is exactly its stack of layers. */
  lemma {:induction false} WrapLayers(c: Coffee)
    ensures Wrap(Layers(c)) == c
  {
    match c
    case SimpleCoffee =>
    case MilkCoffee(inner) => WrapLayers(inner); assert Layers(c)[..|Layers(c)| - 1] == Layers(inner);
    case WhipCoffee(inner) => WrapLayers(inner); assert Layers(c)[..|Layers(c)| - 1] == Layers(inner);
    case VanillaCoffee(inner) => WrapLayers(inner); assert Layers(c)[..|Layers(c)| - 1] == Layers(inner);
  }

  lemma {:induction false} LayersWrap(ls: seq<Layer>)
    ensures Layers(Wrap(ls)) == ls
  {
    if ls != [] {
      LayersWrap(ls[..|ls| - 1]);
      assert ls == ls[..|ls| - 1] + [ls[|ls| - 1]];
    }
  }

  function SumIncrements(ls: seq<Layer>): real
  {
    if ls == [] then 0.0 else SumIncrements(ls[..|ls| - 1]) + Increment(ls[|ls| - 1])
  }

  function ConcatSuffixes(ls: seq<Layer>): string
  {
    if ls == [] then "" else ConcatSuffixes(ls[..|ls| - 1]) + Suffix(ls[|ls| - 1])
  }

  /** The price is 3 plus the increments of all layers. */
  lemma {:induction false} PriceIsBasePlusIncrements(c: Coffee)
    ensures Price(c) == 3.0 + SumIncrements(Layers(c))
  {
    match c
    case SimpleCoffee =>
    case MilkCoffee(inner) =>
      PriceIsBasePlusIncrements(inner); assert Layers(c)[..|Layers(c)| - 1] == Layers(inner);
    case WhipCoffee(inner) =>
      PriceIsBasePlusIncrements(inner); assert Layers(c)[..|Layers(c)| - 1] == Layers(inner);
    case VanillaCoffee(inner) =>
      PriceIsBasePlusIncrements(inner); assert Layers(c)[..|Layers(c)| - 1] == Layers(inner);
  }

  /** The description is "Simple coffee" and then each layer's suffix, innermost first. */
  lemma {:induction false} DescriptionIsBasePlusSuffixes(c: Coffee)
    ensures Description(c) == "Simple coffee" + ConcatSuffixes(Layers(c))
  {
    if c != SimpleCoffee {
      var inner, ls := c.coffee, Layers(c);
      DescriptionIsBasePlusSuffixes(inner);
      assert ls[..|ls| - 1] == Layers(inner);
      var top := match c case MilkCoffee(_) => Milk case WhipCoffee(_) => Whip case VanillaCoffee(_) => Vanilla;
      assert ls[|ls| - 1] == top;
      assert Description(c) == Description(inner) + Suffix(top);
      Regroup("Simple coffee", ConcatSuffixes(Layers(inner)), Suffix(top));
    }
  }

  lemma Regroup(a: string, b: string, c: string)
    ensures a + b + c == a + (b + c)
  {
  }

  /** The increments depend only on how many layers of each kind there are. */
  lemma {:induction false} SumIncrementsByCount(ls: seq<Layer>)
    ensures SumIncrements(ls)
         == 0.5 * (multiset(ls)[Milk] as real)
          + 2.0 * (multiset(ls)[Whip] as real)
          + 1.0 * (multiset(ls)[Vanilla] as real)
  {
    if ls != [] {
      var init := ls[..|ls| - 1];
      SumIncrementsByCount(init);
      assert ls == init + [ls[|ls| - 1]];
      assert multiset(ls) == multiset(init) + multiset{ls[|ls| - 1]};
    }
  }

  /** Wrapping the same layers in another order gives the same price. */
  lemma PriceIgnoresWrappingOrder(c: Coffee, d: Coffee)
    requires multiset(Layers(c)) == multiset(Layers(d))
    ensures Price(c) == Price(d)
  {
    PriceIsBasePlusIncrements(c);
    PriceIsBasePlusIncrements(d);
    SumIncrementsByCount(Layers(c));
    SumIncrementsByCount(Layers(d));
  }

  /** The demonstration: vanilla over whip over milk over a simple coffee. */
  lemma FullyDecorated()
    ensures Price(VanillaCoffee(WhipCoffee(MilkCoffee(SimpleCoffee)))) == 6.5
    ensures Description(VanillaCoffee(WhipCoffee(MilkCoffee(SimpleCoffee))))
         == "Simple coffee, milk, whip, vanilla"
  {
  }
}
