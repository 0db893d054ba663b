# Design-pattern demos: stateful cores, modelled and proved in Dafny

The repository is a set of small C++ demos of the classic design patterns.
Most of them only print. This project models the five that keep state or
compute values. Each source file is one Dafny file and one module:

- `chain_of_responsibility.dfy` (`PaymentChain`): a fallback payment chain.
  Each `Account` has a balance and a nullable `successor`. `Pay` debits the
  first account along the successor chain whose balance covers the amount.
  The accounts before it forward the same amount untouched. When no account
  can pay, nothing changes. `Pay` is recursive, like the source. It is proved
  against two specification functions on the list of balances:
  `FirstPayer` (which account pays) and `Settle` (the balances afterwards).
- `flyweight.dfy` (`TeaFlyweight`): a memoising keyed factory. `TeaMaker.Make`
  gets or creates one shared `Tea` per preference. `TeaShop.TakeOrder` records,
  per table, the `Tea` its maker handed out. A `Tea` has no state, so it is an
  object whose identity is all that matters. A ghost set `requested` records
  every preference ever passed to `Make`.
- `builder.dfy` (`BurgerBuilding`): a `BurgerBuilder` class with a patty count
  and four topping flags. Each `AddX` sets one flag and returns the same
  builder. `Build` snapshots the fields into an immutable `Burger` value.
  `Description` is the text the burger prints, as a pure string function.
- `composite.dfy` (`SalaryComposite`): an `Employee` class (developer or
  designer) whose name and role are constants and whose salary can change. An
  `Organization` has an append-only list of employees. `GetNetSalaries` loops
  over that list and sums the current salaries.
- `decorator.dfy` (`CoffeeDecorator`): a recursive `Coffee` datatype. Each
  milk, whip or vanilla layer wraps a coffee. It adds a fixed amount to the
  inner coffee's price and appends a suffix to its description.

Money, balances and salaries are `real` (the source uses `float`). Integers
are unbounded.

## Model

| member | source | states |
|---|---|---|
| `PaymentChain.Account.constructor` | examples/behavioral/chain_of_responsibility.cpp:8-11 | a default account is named "empty account", has balance 0 and no successor |
| `PaymentChain.Account.Bank` | examples/behavioral/chain_of_responsibility.cpp:47-51 | a bank account has the given balance, is named "bank" and has no successor |
| `PaymentChain.Account.Paypal` | examples/behavioral/chain_of_responsibility.cpp:57-61 | a paypal account has the given balance, is named "paypal" and has no successor |
| `PaymentChain.Account.Bitcoin` | examples/behavioral/chain_of_responsibility.cpp:67-71 | a bitcoin account has the given balance, is named "bitcoin" and has no successor |
| `PaymentChain.Account.SetNext` | examples/behavioral/chain_of_responsibility.cpp:13-16 | the successor is replaced by the argument; nothing else changes |
| `PaymentChain.Account.CanPay` | examples/behavioral/chain_of_responsibility.cpp:33-36 | holds exactly when balance >= amount |
| `PaymentChain.CanPayIsHeadPaying` | examples/behavioral/chain_of_responsibility.cpp:20-27 | the account heading a chain can pay exactly when it is the chain's first payer, so `pay` stops at it |
| `PaymentChain.Account.Pay` | examples/behavioral/chain_of_responsibility.cpp:18-36 | the payer is `FirstPayer` of the balances before the call (the first account with balance >= amount, as `CanPay` tests); the new balances are `Settle` of the old ones; no successor link changes |
| `PaymentChain.FirstPayer` | examples/behavioral/chain_of_responsibility.cpp:20-30 | the result is an account whose balance covers the amount, and every earlier account's balance is below it; the result is None exactly when no balance covers the amount |
| `PaymentChain.Settle` | examples/behavioral/chain_of_responsibility.cpp:20-30 | when nobody can pay, every balance is unchanged; otherwise only the payer's balance changes, it drops by exactly the amount and stays >= 0 |
| `PaymentChain.SettleForward` | examples/behavioral/chain_of_responsibility.cpp:24-27 | an account that cannot pay keeps its balance and the rest of the chain settles the same amount |
| `PaymentChain.PayerIgnoresLaterAccounts` | examples/behavioral/chain_of_responsibility.cpp:18-31 | accounts after the payer are never examined: replacing everything after the payer by any balances leaves the same payer |
| `PaymentChain.ScenarioOutcome` | examples/behavioral/chain_of_responsibility.cpp:79-92 | balances 100, 200, 300 paying 250: the third account pays and the balances become 100, 200, 50 |
| `PaymentChain.BankPaypalBitcoin` | examples/behavioral/chain_of_responsibility.cpp:74-95 | building bank -> paypal -> bitcoin with `SetNext` and paying 250 from the bank: bitcoin (position 2) pays, and the balances are 100, 200, 50 |
| `TeaFlyweight.TeaMaker.constructor` | examples/structural/flyweight.cpp:31-32 | a new maker has no teas and no requested preferences |
| `TeaFlyweight.TeaMaker.Make` | examples/structural/flyweight.cpp:16-24 | a seen preference returns the identical Tea and leaves the table unchanged; an unseen one inserts exactly one fresh Tea; the requested set gains the preference; the count grows by 1 exactly when the preference is new; no Tea is shared by two preferences |
| `TeaFlyweight.TeaMaker.PreferenceCount` | examples/structural/flyweight.cpp:26-29 | the count is the number of distinct preferences ever requested |
| `TeaFlyweight.TeaShop.constructor` | examples/structural/flyweight.cpp:38-41 | a new shop uses the given maker and has no orders |
| `TeaFlyweight.TeaShop.TakeOrder` | examples/structural/flyweight.cpp:43-46 | the table's order becomes the maker's Tea for the preference, replacing any earlier order of that table; other tables keep theirs; a known preference gets its existing Tea and an unknown one a fresh Tea; every ordered Tea is one of the maker's |
| `TeaFlyweight.TeaShop.PreferenceCount` | examples/structural/flyweight.cpp:55-58 | the shop's count is its maker's count of distinct requested preferences |
| `TeaFlyweight.CountsOverADay` | examples/structural/flyweight.cpp:70-86 | for any three distinct preferences the count is 0 before any order, 3 after three orders, and still 3 after repeating the first |
| `TeaFlyweight.RepeatSharesTea` | examples/structural/flyweight.cpp:74-86 | the table that repeats the first preference gets the very Tea of the first table |
| `TeaFlyweight.TeaShopDemo` | examples/structural/flyweight.cpp:65-92 | with "half sugar", "with milk", "with boba" the counts are 0, 3, 3 and the repeated order shares its Tea |
| `BurgerBuilding.BurgerBuilder.constructor` | examples/creational/builder.cpp:23-27 | a new builder has the given patty count and all four toppings off |
| `BurgerBuilding.BurgerBuilder.AddCheese` | examples/creational/builder.cpp:29-33 | returns the same builder; cheese is set, patties and the other flags are unchanged |
| `BurgerBuilding.BurgerBuilder.AddPepperoni` | examples/creational/builder.cpp:35-39 | returns the same builder; pepperoni is set, patties and the other flags are unchanged |
| `BurgerBuilding.BurgerBuilder.AddLettuce` | examples/creational/builder.cpp:41-45 | returns the same builder; lettuce is set, patties and the other flags are unchanged |
| `BurgerBuilding.BurgerBuilder.AddTomato` | examples/creational/builder.cpp:47-51 | returns the same builder; tomato is set, patties and the other flags are unchanged |
| `BurgerBuilding.BurgerBuilder.Build` | examples/creational/builder.cpp:53-70 | the burger's five fields equal the builder's five fields |
| `BurgerBuilding.With` | examples/creational/builder.cpp:29-51 | adding a topping keeps the patty count and turns on exactly that topping |
| `BurgerBuilding.WithIdempotent` | examples/creational/builder.cpp:29-51 | adding the same topping twice gives the same state as adding it once |
| `BurgerBuilding.WithCommutes` | examples/creational/builder.cpp:29-51 | two additions give the same state in either order |
| `BurgerBuilding.AddAllHas` | examples/creational/builder.cpp:29-51 | after any run of additions the patty count is unchanged and the toppings present are exactly the earlier ones plus the added ones |
| `BurgerBuilding.Description` | examples/creational/builder.cpp:72-88 | the text `getDescription` prints, without the newline; it starts with the patty count followed by " patties" |
| `BurgerBuilding.DigitsValue` | examples/creational/builder.cpp:74 | the digits written for a non-negative patty count read back as that count |
| `BurgerBuilding.DecimalTextNonNegative` | examples/creational/builder.cpp:74 | a non-negative patty count is written as digits only, with no '-' and no leading zero except for 0 itself, and the digits read back as the count |
| `BurgerBuilding.DecimalTextNegative` | examples/creational/builder.cpp:74 | a negative patty count is written as '-' followed by digits only, with no leading zero, and the digits read back as its absolute value |
| `BurgerBuilding.DescriptionListsPresentToppings` | examples/creational/builder.cpp:72-88 | the description is "N patties" followed by ", name" for each topping present, in the order cheese, pepperoni, lettuce, tomato |
| `BurgerBuilding.DescriptionIgnoresAddOrder` | examples/creational/builder.cpp:72-88 | two runs of additions with the same toppings, in any order and with any repeats, give the same description |
| `BurgerBuilding.SpellOutNoDairy` | examples/creational/builder.cpp:93-99 | the burger with 2 patties, pepperoni, lettuce and tomato is described as "2 patties, pepperoni, lettuce, tomato" |
| `BurgerBuilding.SpellOutEverything` | examples/creational/builder.cpp:102-109 | the burger with 3 patties and all toppings is described as "3 patties, cheese, pepperoni, lettuce, tomato" |
| `BurgerBuilding.NoDairyDouble` | examples/creational/builder.cpp:93-99 | building 2 patties, then pepperoni, lettuce, tomato, gives "2 patties, pepperoni, lettuce, tomato" |
| `BurgerBuilding.TripleWithEverything` | examples/creational/builder.cpp:102-109 | adding pepperoni before cheese still gives "3 patties, cheese, pepperoni, lettuce, tomato" |
| `SalaryComposite.Employee.Developer` | examples/structural/composite.cpp:19-22 | a developer has the given name and salary and the role "Developer" |
| `SalaryComposite.Employee.Designer` | examples/structural/composite.cpp:53-56 | a designer has the given name and salary and the role "Designer" |
| `SalaryComposite.Employee.SetSalary` | examples/structural/composite.cpp:29-32 | the salary becomes the argument; name and role are constants and cannot change |
| `SalaryComposite.Organization.constructor` | examples/structural/composite.cpp:102-103 | a new organization has no employees |
| `SalaryComposite.Organization.AddEmployee` | examples/structural/composite.cpp:87-90 | exactly one employee is appended at the end, earlier ones stay in place, and the total salary grows by that employee's salary |
| `SalaryComposite.Organization.GetNetSalaries` | examples/structural/composite.cpp:92-100 | the result is the sum of the current salaries of all employees added, 0 when there are none |
| `SalaryComposite.TotalSalaryConcat` | examples/structural/composite.cpp:92-100 | the total of two lists of employees together is the sum of their totals |
| `SalaryComposite.JaneAndJohn` | examples/structural/composite.cpp:106-121 | a developer paid 50000 and a designer paid 45000, both added to an organization, give a net of 95000 |
| `SalaryComposite.RaiseShowsInNextTotal` | examples/structural/composite.cpp:29-32 | the organization shares its employees: after the developer's salary is set to 55000 the next net is 100000 (the demonstration does not do this; it exercises `setSalary`) |
| `CoffeeDecorator.Price` | examples/structural/decorator.cpp:16-19 | every coffee costs at least the simple coffee's 3 |
| `CoffeeDecorator.Description` | examples/structural/decorator.cpp:21-24 | every description starts with "Simple coffee" |
| `CoffeeDecorator.WrapLayers` | examples/structural/decorator.cpp:27-91 | a coffee is exactly a simple coffee wrapped in its list of layers |
| `CoffeeDecorator.LayersWrap` | examples/structural/decorator.cpp:27-91 | wrapping any list of layers and reading the layers back gives the same list |
| `CoffeeDecorator.PriceIsBasePlusIncrements` | examples/structural/decorator.cpp:35-38 | the price is 3 plus the increments of its layers: 0.5 for milk, 2 for whip, 1 for vanilla |
| `CoffeeDecorator.DescriptionIsBasePlusSuffixes` | examples/structural/decorator.cpp:40-43 | the description is "Simple coffee" followed by each layer's suffix (", milk", ", whip", ", vanilla") in wrapping order |
| `CoffeeDecorator.SumIncrementsByCount` | examples/structural/decorator.cpp:16-82 | the sum of increments is 0.5 per milk, 2 per whip and 1 per vanilla layer |
| `CoffeeDecorator.PriceIgnoresWrappingOrder` | examples/structural/decorator.cpp:16-82 | two coffees with the same layers in any order have the same price |
| `CoffeeDecorator.FullyDecorated` | examples/structural/decorator.cpp:113-117 | vanilla over whip over milk over simple costs 6.5 and is described as "Simple coffee, milk, whip, vanilla" |

## Left out

- Console output is not modelled: the messages of `pay`, `serve` and every `main`. `Pay` returns the position of the paying account instead (the code returns nothing). `getDescription` prints its text; here `Description` returns it.
- There is no operation that appends to a chain; `SetNext` replaces one account's successor.
- `TeaMaker::make` can throw `std::bad_alloc` from `make_shared`; allocation failure is not modelled.
- `TeaShop::serve` only prints, in the unspecified iteration order of an `unordered_map`, so it is not modelled.
- Floating-point rounding of balances, prices and salaries: they are exact `real`s.
- `shared_ptr` reference counting and lifetimes: sharing is object identity.
- PaymentChain.Account.Pay: requires the successor links from the receiver to form a finite list without repeats, ending in an account without a successor. `setNext` can build a cycle. In the code, paying on a cycle where no account can pay recurses without end; such chains are not modelled.
- TeaFlyweight.TeaShop.constructor: requires its maker to satisfy the maker's invariant. Every maker built by its constructor and changed only through `Make` does.
- The `Employee` interface with its two implementations is one class with two named constructors. `getName`, `getSalary` and `getRole` are read as the fields `name`, `salary` and `role`.
- An account's `name` is kept but only the messages use it.
- Integer widths (`int` patties and table numbers, the `int` preference count) are unbounded; no overflow is modelled.
- The other demos (facade, adapter, command, proxy, bridge, the factories, prototype, singleton) are not part of this model. They only print, or rest on C++ copy and static-initialisation semantics.
