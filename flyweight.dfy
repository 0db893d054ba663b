/**
 * Memoising keyed factory (flyweight).
 *
 * A TeaMaker keeps one shared Tea per preference and hands out that same
 * Tea on every later request for the preference; a TeaShop records, per
 * table, the Tea it was given by its maker. A Tea has no state of its own:
 * only its identity matters, so it is modelled as an object reference.
 */
module TeaFlyweight {

  class Tea {
    constructor ()
    {
    }
  }

  class TeaMaker {
    var availableTea: map<string, Tea>
    /** Every preference ever passed to Make. */
    ghost var requested: set<string>

    /**
     * The table holds exactly the preferences requested so far, and no Tea
     * is shared between two preferences.
     */
    ghost predicate Valid()
      reads this
    {
      && availableTea.Keys == requested
      && forall p, q :: p in availableTea && q in availableTea && p != q ==> availableTea[p] != availableTea[q]
    }

    constructor ()
      ensures Valid() && availableTea == map[] && requested == {}
    {
      availableTea := map[];
      requested := {};
    }

    /**
     * Get-or-create: an already-seen preference returns its existing Tea
     * and leaves the table alone; an unseen one gets a new Tea.
     */
    method Make(preference: string) returns (tea: Tea)
      requires Valid()
      modifies this
      ensures Valid()
      ensures requested == old(requested) + {preference}
      ensures preference in availableTea && availableTea[preference] == tea
      ensures preference in old(availableTea) ==>
                tea == old(availableTea)[preference] && availableTea == old(availableTea)
      ensures preference !in old(availableTea) ==>
                fresh(tea) && availableTea == old(availableTea)[preference := tea]
      ensures |requested| == old(|requested|) + (if preference in old(requested) then 0 else 1)
    {
      if preference !in availableTea {
        var brewed := new Tea();
        availableTea := availableTea[preference := brewed];
      }
      requested := requested + {preference};
      tea := availableTea[preference];
    }

    /** The number of distinct preferences requested so far. */
    function PreferenceCount(): (n: nat)
      reads this
      requires Valid()
      ensures n == |requested|
    {
      |availableTea|
    }
  }

  class TeaShop {
    const maker: TeaMaker
    var orders: map<int, Tea>

    /** Every Tea on a table is one of the maker's shared Teas. */
    ghost predicate Valid()
      reads this, maker
    {
      && maker.Valid()
      && forall t :: t in orders ==> orders[t] in maker.availableTea.Values
    }

    constructor (maker: TeaMaker)
      requires maker.Valid()
      ensures Valid() && this.maker == maker && orders == map[]
    {
      this.maker := maker;
      orders := map[];
    }

    /**
     * Gives table `table` the maker's Tea for `preference`, replacing any
     * earlier order of that table; other tables keep theirs.
     */
    method TakeOrder(preference: string, table: int)
      requires Valid()
      modifies this, maker
      ensures Valid()
      ensures preference in maker.availableTea
      ensures orders == old(orders)[table := maker.availableTea[preference]]
      ensures maker.requested == old(maker.requested) + {preference}
      ensures |maker.requested| == old(|maker.requested|) + (if preference in old(maker.requested) then 0 else 1)
      ensures maker.availableTea == old(maker.availableTea)[preference := orders[table]]
      ensures preference in old(maker.availableTea) ==> orders[table] == old(maker.availableTea)[preference]
      ensures preference !in old(maker.availableTea) ==> fresh(orders[table])
    {
      var tea := maker.Make(preference);
      orders := orders[table := tea];
    }

    /** The shop's count is its maker's count. */
    function PreferenceCount(): (n: nat)
      reads this, maker
      requires Valid()
      ensures n == |maker.requested|
    {
      maker.PreferenceCount()
    }
  }

  lemma DistinctPreferences()
    ensures "half sugar" != "with milk" && "half sugar" != "with boba" && "with milk" != "with boba"
  {
  }

  /**
   * The preference count over a day of orders with three distinct
   * preferences: none before any order, three after the three orders, and
   * still three after a fourth order repeating the first preference.
   */
  method CountsOverADay(first: string, second: string, third: string)
    returns (initial: nat, afterThree: nat, afterRepeat: nat)
    requires first != second && first != third && second != third
    ensures initial == 0 && afterThree == 3 && afterRepeat == 3
  {
    var maker := new TeaMaker();
    var shop := new TeaShop(maker);
    initial := shop.PreferenceCount();
    shop.TakeOrder(first, 1);
    shop.TakeOrder(second, 2);
    shop.TakeOrder(third, 5);
    afterThree := shop.PreferenceCount();
    shop.TakeOrder(first, 4);
    afterRepeat := shop.PreferenceCount();
  }

  /**
   * Over the same day, the table that repeats the first preference is
   * served the very Tea of the first table.
   */
  method RepeatSharesTea(first: string, second: string, third: string) returns (shared: bool)
    requires first != second && first != third && second != third
    ensures shared
  {
    var maker := new TeaMaker();
    var shop := new TeaShop(maker);
    shop.TakeOrder(first, 1);
    shop.TakeOrder(second, 2);
    shop.TakeOrder(third, 5);
    shop.TakeOrder(first, 4);
    shared := shop.orders[1] == shop.orders[4];
  }

  /** The demonstration, with the preferences "half sugar", "with milk" and "with boba". */
  method TeaShopDemo() returns (initial: nat, afterThree: nat, afterRepeat: nat, shared: bool)
    ensures initial == 0 && afterThree == 3 && afterRepeat == 3
    ensures shared
  {
    DistinctPreferences();
    initial, afterThree, afterRepeat := CountsOverADay("half sugar", "with milk", "with boba");
    shared := RepeatSharesTea("half sugar", "with milk", "with boba");
  }
}
