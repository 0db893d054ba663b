/**
 * Burger builder.
 *
 * A BurgerBuilder is a mutable record of a patty count and four topping
 * flags; each `AddX` sets one flag and hands back the same builder so that
 * calls can be chained, and `Build` takes a snapshot of the five fields as
 * an immutable Burger. A Burger's description names the patty count and
 * then the toppings it has, always in the order cheese, pepperoni,
 * lettuce, tomato.
 */
module BurgerBuilding {

  datatype Burger = Burger(patties: int, cheese: bool, pepperoni: bool, lettuce: bool, tomato: bool)

  datatype Topping = Cheese | Pepperoni | Lettuce | Tomato

  /** The order in which a description lists toppings. */
  const MenuOrder: seq<Topping> := [Cheese, Pepperoni, Lettuce, Tomato]

  predicate Has(b: Burger, t: Topping)
  {
    match t
    case Cheese => b.cheese
    case Pepperoni => b.pepperoni
    case Lettuce => b.lettuce
    case Tomato => b.tomato
  }

  /** `b` with topping `t` added and every other field as it was. */
  function With(b: Burger, t: Topping): (r: Burger)
    ensures r.patties == b.patties
    ensures forall u :: Has(r, u) <==> u == t || Has(b, u)
  {
    match t
    case Cheese => b.(cheese := true)
    case Pepperoni => b.(pepperoni := true)
    case Lettuce => b.(lettuce := true)
    case Tomato => b.(tomato := true)
  }

  /** Adding a topping twice is the same as adding it once. */
  lemma WithIdempotent(b: Burger, t: Topping)
    ensures With(With(b, t), t) == With(b, t)
  {
  }

  /** Two additions give the same burger in either order. */
  lemma WithCommutes(b: Burger, t: Topping, u: Topping)
    ensures With(With(b, t), u) == With(With(b, u), t)
  {
  }

  class BurgerBuilder {
    var patties: int
    var cheese: bool
    var pepperoni: bool
    var lettuce: bool
    var tomato: bool

    /** The builder's fields, read as a burger. */
    function State(): Burger
      reads this
    {
      Burger(patties, cheese, pepperoni, lettuce, tomato)
    }

    constructor (patties: int)
      ensures State() == Burger(patties, false, false, false, false)
    {
      this.patties := patties;
      cheese, pepperoni, lettuce, tomato := false, false, false, false;
    }

    method AddCheese() returns (self: BurgerBuilder)
      modifies this
      ensures self == this
      ensures State() == With(old(State()), Cheese)
    {
      cheese := true;
      self := this;
    }

    method AddPepperoni() returns (self: BurgerBuilder)
      modifies this
      ensures self == this
      ensures State() == With(old(State()), Pepperoni)
    {
      pepperoni := true;
      self := this;
    }

    method AddLettuce() returns (self: BurgerBuilder)
      modifies this
      ensures self == this
      ensures State() == With(old(State()), Lettuce)
    {
      lettuce := true;
      self := this;
    }

    method AddTomato() returns (self: BurgerBuilder)
      modifies this
      ensures self == this
      ensures State() == With(old(State()), Tomato)
    {
      tomato := true;
      self := this;
    }

    /** A burger whose five fields are the builder's current fields. */
    method Build() returns (burger: Burger)
      ensures burger == State()
    {
      burger := Burger(patties, cheese, pepperoni, lettuce, tomato);
    }
  }

  /** The builder state after the given additions, applied in order. */
  function AddAll(b: Burger, ts: seq<Topping>): Burger
    decreases |ts|
  {
    if ts == [] then b else AddAll(With(b, ts[0]), ts[1..])
  }

  /** After a run of additions, exactly the added toppings and the earlier ones are present. */
  lemma {:induction false} AddAllHas(b: Burger, ts: seq<Topping>)
    ensures AddAll(b, ts).patties == b.patties
    ensures forall u :: Has(AddAll(b, ts), u) <==> Has(b, u) || u in ts
    decreases |ts|
  {
    if ts != [] {
      AddAllHas(With(b, ts[0]), ts[1..]);
      assert forall u :: u in ts <==> u == ts[0] || u in ts[1..];
    }
  }

  /** Decimal text of an integer, with a leading '-' when negative. */
  function DecimalText(n: int): (s: string)
    ensures |s| > 0
  {
    if n < 0 then "-" + Digits(-n) else Digits(n)
  }

  function Digits(n: nat): (s: string)
    ensures |s| > 0
    ensures forall i :: 0 <= i < |s| ==> '0' <= s[i] <= '9'
    ensures s[0] == '0' ==> n == 0
  {
    var d := ('0' as int + n % 10) as char;
    if n < 10 then [d] else Digits(n / 10) + [d]
  }

  /** The number a string of decimal digits stands for. */
  function Value(s: string): int
  {
    if s == [] then 0 else 10 * Value(s[..|s| - 1]) + (s[|s| - 1] as int - '0' as int)
  }

  lemma {:induction false} DigitsValue(n: nat)
    ensures Value(Digits(n)) == n
  {
    var s := Digits(n);
    if n >= 10 {
      DigitsValue(n / 10);
      assert s[..|s| - 1] == Digits(n / 10);
    }
  }

  /**
   * The text of a non-negative `n` is its canonical decimal form: digits
   * only, no leading zero except for 0 itself, and it reads back as `n`.
   */
  lemma DecimalTextNonNegative(n: int)
    requires n >= 0
    ensures forall i :: 0 <= i < |DecimalText(n)| ==> '0' <= DecimalText(n)[i] <= '9'
    ensures DecimalText(n)[0] == '0' ==> n == 0
    ensures Value(DecimalText(n)) == n
  {
    DigitsValue(n);
  }

  /**
   * The text of a negative `n` is a '-' followed by the canonical decimal
   * form of `-n`, with no leading zero.
   */
  lemma DecimalTextNegative(n: int)
    requires n < 0
    ensures |DecimalText(n)| > 1 && DecimalText(n)[0] == '-'
    ensures forall i :: 1 <= i < |DecimalText(n)| ==> '0' <= DecimalText(n)[i] <= '9'
    ensures DecimalText(n)[1] != '0'
    ensures Value(DecimalText(n)[1..]) == -n
  {
    var d := Digits(-n);
    DigitsValue(-n);
    assert DecimalText(n)[1..] == d;
  }

  /** The text a description adds for a topping. */
  function Suffix(t: Topping): string
  {
    match t
    case Cheese => ", cheese"
    case Pepperoni => ", pepperoni"
    case Lettuce => ", lettuce"
    case Tomato => ", tomato"
  }

  /** The suffixes of the toppings of `ts`, in the order of `ts`. */
  function ListToppings(ts: seq<Topping>): string
  {
    if ts == [] then "" else Suffix(ts[0]) + ListToppings(ts[1..])
  }

  /** The toppings of `menu` that `b` has, in the order of `menu`. */
  function Present(b: Burger, menu: seq<Topping>): seq<Topping>
  {
    if menu == [] then []
    else if Has(b, menu[0]) then [menu[0]] + Present(b, menu[1..])
    else Present(b, menu[1..])
  }

  /** The text the burger describes itself with: its patty count, then its toppings. */
  function Description(b: Burger): (d: string)
    ensures |d| >= |DecimalText(b.patties) + " patties"|
    ensures d[..|DecimalText(b.patties) + " patties"|] == DecimalText(b.patties) + " patties"
  {
    DecimalText(b.patties) + " patties"
      + (if b.cheese then ", cheese" else "")
      + (if b.pepperoni then ", pepperoni" else "")
      + (if b.lettuce then ", lettuce" else "")
      + (if b.tomato then ", tomato" else "")
  }

  lemma Regroup(h: string, c: string, p: string, l: string, t: string)
    ensures h + c + p + l + t == h + (c + (p + (l + t)))
  {
  }

  /** What a description shows for topping `t`: its suffix when present, nothing otherwise. */
  function Part(present: bool, t: Topping): string
  {
    if present then Suffix(t) else ""
  }

  lemma ListPresentStep(b: Burger, menu: seq<Topping>)
    requires menu != []
    ensures ListToppings(Present(b, menu)) == Part(Has(b, menu[0]), menu[0]) + ListToppings(Present(b, menu[1..]))
  {
  }

  lemma ListPresentMenu(b: Burger)
    ensures ListToppings(Present(b, MenuOrder))
         == Part(b.cheese, Cheese) + (Part(b.pepperoni, Pepperoni) + (Part(b.lettuce, Lettuce) + Part(b.tomato, Tomato)))
  {
    var m1 := MenuOrder[1..];
    var m2 := m1[1..];
    var m3 := m2[1..];
    ListPresentStep(b, MenuOrder);
    ListPresentStep(b, m1);
    ListPresentStep(b, m2);
    ListPresentStep(b, m3);
    assert m3[1..] == [];
    assert Part(b.tomato, Tomato) + "" == Part(b.tomato, Tomato);
  }

  /**
   * The description is "N patties" followed by the toppings the burger has,
   * in menu order.
   */
  lemma DescriptionListsPresentToppings(b: Burger)
    ensures Description(b) == DecimalText(b.patties) + " patties" + ListToppings(Present(b, MenuOrder))
  {
    var head := DecimalText(b.patties) + " patties";
    var c, p := Part(b.cheese, Cheese), Part(b.pepperoni, Pepperoni);
    var l, t := Part(b.lettuce, Lettuce), Part(b.tomato, Tomato);
    assert Description(b) == head + c + p + l + t;
    ListPresentMenu(b);
    Regroup(head, c, p, l, t);
  }

  /**
   * The description depends only on which toppings were added, never on the
   * order of the additions.
   */
  lemma {:induction false} DescriptionIgnoresAddOrder(n: int, ts: seq<Topping>, us: seq<Topping>)
    requires forall t :: t in ts <==> t in us
    ensures Description(AddAll(Burger(n, false, false, false, false), ts))
         == Description(AddAll(Burger(n, false, false, false, false), us))
  {
    var empty := Burger(n, false, false, false, false);
    AddAllHas(empty, ts);
    AddAllHas(empty, us);
    var x, y := AddAll(empty, ts), AddAll(empty, us);
    assert Has(x, Cheese) == Has(y, Cheese);
    assert Has(x, Pepperoni) == Has(y, Pepperoni);
    assert Has(x, Lettuce) == Has(y, Lettuce);
    assert Has(x, Tomato) == Has(y, Tomato);
    assert x == y;
  }

  /** The double-patty burger with no dairy, built by chained additions. */
  method NoDairyDouble() returns (description: string)
    ensures description == "2 patties, pepperoni, lettuce, tomato"
  {
    var builder := new BurgerBuilder(2);
    builder := builder.AddPepperoni();
    builder := builder.AddLettuce();
    builder := builder.AddTomato();
    var burger := builder.Build();
    assert burger == Burger(2, false, true, true, true);
    description := Description(burger);
    SpellOutNoDairy();
  }

  /** The triple-patty burger with everything; cheese is added second yet listed first. */
  method TripleWithEverything() returns (description: string)
    ensures description == "3 patties, cheese, pepperoni, lettuce, tomato"
  {
    var builder := new BurgerBuilder(3);
    builder := builder.AddPepperoni();
    builder := builder.AddCheese();
    builder := builder.AddLettuce();
    builder := builder.AddTomato();
    var burger := builder.Build();
    assert burger == Burger(3, true, true, true, true);
    description := Description(burger);
    SpellOutEverything();
  }

  /** The description of the double-patty burger, spelled out. */
  lemma SpellOutNoDairy()
    ensures Description(Burger(2, false, true, true, true)) == "2 patties, pepperoni, lettuce, tomato"
  {
  }

  /** The description of the triple-patty burger, spelled out. */
  lemma SpellOutEverything()
    ensures Description(Burger(3, true, true, true, true)) == "3 patties, cheese, pepperoni, lettuce, tomato"
  {
    assert DecimalText(3) == "3";
    assert "3" + " patties" == "3 patties";
    assert "3 patties" + ", cheese" == "3 patties, cheese";
    assert "3 patties, cheese" + ", pepperoni" == "3 patties, cheese, pepperoni";
    assert "3 patties, cheese, pepperoni" + ", lettuce" == "3 patties, cheese, pepperoni, lettuce";
    assert "3 patties, cheese, pepperoni, lettuce" + ", tomato" == "3 patties, cheese, pepperoni, lettuce, tomato";
  }
}
