/** The cashier's transaction state: the cart, the stored bill, and the payment fields, with the
    three actions the clerk can take (add an item, process a payment, clear the cart). Text the
    clerk types into the entry fields arrives as string parameters. */
module Register {
  import opened Text
  import opened Catalog
  import opened Billing

  /** Why `add_item_to_cart_gui` refused to add a line. */
  datatype AddError =
    | EmptyQuery
    | EmptyQuantity
    | InvalidQuantity
    | NonPositiveQuantity
    | ProductNotFound(query: string)
    | AmbiguousProduct(query: string)

  datatype AddOutcome = Added(line: Line) | Rejected(error: AddError)

  /** A line built from an entry of catalog `c`. */
  predicate ListedLine(c: Listing, l: Line) {
    PricedLine(l) && exists i :: 0 <= i < |c| && c[i].1 == Entry(l.productName, l.price)
  }

  /** What `add_item_to_cart_gui` decides for the typed product query and quantity, checked in
      the source's order: a blank query, a blank quantity, a quantity `int` rejects, a quantity
      of zero or less, then the lookup. */
  function ResolveLine(c: Listing, rawQuery: string, rawQuantity: string): AddOutcome {
    var query, quantityText := Strip(rawQuery), Strip(rawQuantity);
    var parsed := ParseInt(quantityText);
    if query == [] then Rejected(EmptyQuery)
    else if quantityText == [] then Rejected(EmptyQuantity)
    else if parsed.None? then Rejected(InvalidQuantity)
    else if parsed.value <= 0 then Rejected(NonPositiveQuantity)
    else
      var found := FindProduct(c, query);
      if found.NotFound? then Rejected(ProductNotFound(query))
      else if found.Ambiguous? then Rejected(AmbiguousProduct(found.query))
      else
        var e := found.entry;
        Added(Line(e.name, e.price, parsed.value, e.price * parsed.value as real))
  }

  /** A line is produced exactly when the stripped query is non-blank, the stripped quantity
      is a positive integer and the query resolves; the line carries the product's name and
      price, the quantity and their product. */
  lemma ResolveLineAdds(c: Listing, rawQuery: string, rawQuantity: string)
    ensures var r := ResolveLine(c, rawQuery, rawQuantity);
      r.Added? <==>
        && Strip(rawQuery) != []
        && ParseInt(Strip(rawQuantity)).Some? && ParseInt(Strip(rawQuantity)).value > 0
        && FindProduct(c, Strip(rawQuery)).Found?
    ensures var r := ResolveLine(c, rawQuery, rawQuantity);
      r.Added? ==>
        var e, n := FindProduct(c, Strip(rawQuery)).entry, ParseInt(Strip(rawQuantity)).value;
        r.line == Line(e.name, e.price, n, e.price * n as real)
  {
  }

  /** Each refusal names the first check that failed: a blank query, then a blank quantity,
      then a quantity `int` rejects, then a quantity below one, then a query that matches no
      product or several (reporting the stripped query). */
  lemma ResolveLineRejects(c: Listing, rawQuery: string, rawQuantity: string)
    ensures var r, q, n := ResolveLine(c, rawQuery, rawQuantity), Strip(rawQuery), ParseInt(Strip(rawQuantity));
      && (r == Rejected(EmptyQuery) <==> q == [])
      && (r == Rejected(EmptyQuantity) <==> q != [] && Strip(rawQuantity) == [])
      && (r == Rejected(InvalidQuantity) <==> q != [] && Strip(rawQuantity) != [] && n.None?)
      && (r == Rejected(NonPositiveQuantity) <==> q != [] && n.Some? && n.value <= 0)
      && (r == Rejected(ProductNotFound(q)) <==>
            q != [] && n.Some? && n.value > 0 && FindProduct(c, q) == NotFound)
      && (r == Rejected(AmbiguousProduct(q)) <==>
            q != [] && n.Some? && n.value > 0 && FindProduct(c, q).Ambiguous?)
      && (r.Rejected? && (r.error.ProductNotFound? || r.error.AmbiguousProduct?) ==> r.error.query == q)
  {
    var q := Strip(rawQuery);
    FoundIsListed(c, q);
  }

  /** A positive quantity of a listed product with a non-negative price is a listed line. */
  lemma EntryLineListed(c: Listing, i: int, e: Entry, quantity: int)
    requires 0 <= i < |c| && c[i].1 == e && e.price >= 0.0 && quantity > 0
    ensures ListedLine(c, Line(e.name, e.price, quantity, e.price * quantity as real))
  {
    assert c[i].1 == Entry(e.name, e.price);
  }

  /** Over a catalog with non-negative prices, every line produced is a priced line of one
      of its entries. */
  lemma AddedLineListed(c: Listing, rawQuery: string, rawQuantity: string)
    requires PricesNonNegative(c)
    requires ResolveLine(c, rawQuery, rawQuantity).Added?
    ensures ListedLine(c, ResolveLine(c, rawQuery, rawQuantity).line)
  {
    ResolveLineAdds(c, rawQuery, rawQuantity);
    FoundLineListed(c, Strip(rawQuery), ParseInt(Strip(rawQuantity)).value);
  }

  /** A positive quantity of what a successful lookup returns is a listed line. */
  lemma FoundLineListed(c: Listing, query: string, quantity: int)
    requires PricesNonNegative(c)
    requires FindProduct(c, query).Found? && quantity > 0
    ensures var e := FindProduct(c, query).entry;
      ListedLine(c, Line(e.name, e.price, quantity, e.price * quantity as real))
  {
    var i := FoundIndex(c, query);
    EntryLineListed(c, i, FindProduct(c, query).entry, quantity);
  }

  /** The index of the catalog entry a successful lookup returns. */
  lemma FoundIndex(c: Listing, query: string) returns (i: int)
    requires FindProduct(c, query).Found?
    ensures 0 <= i < |c| && c[i].1 == FindProduct(c, query).entry
  {
    FoundIsListed(c, query);
    i :| 0 <= i < |c| && c[i].1 == FindProduct(c, query).entry;
  }

  /** Adding by identifier with a typed positive quantity gives the product's line. */
  lemma AddByIdentifier(c: Listing, i: int, quantity: int)
    requires UniqueIds(c)
    requires 0 <= i < |c|
    requires c[i].0 != [] && !IsSpace(c[i].0[0]) && !IsSpace(c[i].0[|c[i].0| - 1])
    requires quantity > 0
    ensures ResolveLine(c, c[i].0, IntText(quantity))
         == Added(Line(c[i].1.name, c[i].1.price, quantity, c[i].1.price * quantity as real))
  {
    StripTrimmed(c[i].0);
    IntTextTrimmed(quantity);
    ParseIntRoundTrip(quantity);
    FindById(c, i);
  }

  /** A typed quantity of zero or less is refused as non-positive, whatever the product. */
  lemma NonPositiveQuantityRejected(c: Listing, rawQuery: string, quantity: int)
    requires Strip(rawQuery) != []
    requires quantity <= 0
    ensures ResolveLine(c, rawQuery, IntText(quantity)) == Rejected(NonPositiveQuantity)
  {
    IntTextTrimmed(quantity);
    ParseIntRoundTrip(quantity);
  }

  /** What `process_payment_gui` does with a typed amount. */
  datatype PaymentOutcome =
    | Paid(amount: real, change: real)
    | EmptyCart
    | EmptyAmount
    | InvalidAmount
    | Insufficient(amount: real)

  /** The decision of `process_payment_gui` for a cart and the typed amount, in the source's
      order: an empty cart, a blank amount, an amount `float` rejects, an amount below the
      total. It succeeds exactly when the cart has lines and the amount covers the total; the
      change is the amount less the total, never negative. */
  function AssessPayment(cart: seq<Line>, rawPaid: string): (r: PaymentOutcome)
    ensures r.Paid? <==>
      cart != [] && ParseAmount(Strip(rawPaid)).Some?
      && ParseAmount(Strip(rawPaid)).value >= BillOf(cart).total
    ensures r.Paid? ==>
      && r.amount == ParseAmount(Strip(rawPaid)).value
      && r.change == r.amount - BillOf(cart).total
      && r.change >= 0.0
    ensures r.Insufficient? ==>
      cart != [] && ParseAmount(Strip(rawPaid)) == Some(r.amount) && r.amount < BillOf(cart).total
    ensures r == EmptyCart <==> cart == []
    ensures r == EmptyAmount <==> cart != [] && Strip(rawPaid) == []
    ensures r == InvalidAmount <==>
      cart != [] && Strip(rawPaid) != [] && ParseAmount(Strip(rawPaid)).None?
  {
    var paidText := Strip(rawPaid);
    if cart == [] then EmptyCart
    else if paidText == [] then EmptyAmount
    else match ParseAmount(paidText)
      case None => InvalidAmount
      case Some(amount) =>
        var total := BillOf(cart).total;
        if amount < total then Insufficient(amount) else Paid(amount, amount - total)
  }

  /** Paying an amount typed with two decimals: it is accepted exactly when it covers the
      total, and then the change is that amount less the total. */
  lemma PayInCents(cart: seq<Line>, cents: nat)
    requires cart != []
    ensures var amount, total := cents as real / 100.0, BillOf(cart).total;
      AssessPayment(cart, CentsText(cents))
        == if amount < total then Insufficient(amount) else Paid(amount, amount - total)
  {
    CentsTextTrimmed(cents);
    CentsRoundTrip(cents);
  }

  /** The cashier application's transaction state, over the catalog it is given (the
      application gives it `PRODUCTS`). */
  class Cashier {
    const catalog: Listing
    var cart: seq<Line>
    var subtotal: real
    var taxAmount: real
    var discountAmount: real
    var totalBill: real
    var amountPaid: real
    var change: real

    /** The stored amounts as a bill. */
    function Totals(): Bill
      reads this
    {
      Bill(subtotal, discountAmount, taxAmount, totalBill)
    }

    /** Between actions: the catalog is a dictionary with non-negative prices, every line comes
        from it, the stored bill is the bill of the cart, and no change is outstanding. */
    ghost predicate Valid()
      reads this
    {
      && UniqueIds(catalog) && PricesNonNegative(catalog)
      && (forall i :: 0 <= i < |cart| ==> ListedLine(catalog, cart[i]))
      && Totals() == BillOf(cart)
      && change == 0.0
    }

    /** `__init__`: an empty cart, every amount 0. */
    constructor (products: Listing)
      requires UniqueIds(products) && PricesNonNegative(products)
      ensures Valid() && catalog == products
      ensures cart == [] && Totals() == Bill(0.0, 0.0, 0.0, 0.0) && amountPaid == 0.0
    {
      catalog := products;
      cart := [];
      subtotal, taxAmount, discountAmount, totalBill := 0.0, 0.0, 0.0, 0.0;
      amountPaid, change := 0.0, 0.0;
      new;
      CalculateBill();
    }

    /** `calculate_bill`: stores the bill of the current cart, touching nothing else. */
    method CalculateBill()
      modifies this
      ensures cart == old(cart) && amountPaid == old(amountPaid) && change == old(change)
      ensures Totals() == BillOf(cart)
    {
      subtotal := SumLineTotals(cart);
      discountAmount := 0.0;
      if subtotal >= 20.00 {
        discountAmount := subtotal * DISCOUNT_PERCENTAGE;
      }
      var taxable := subtotal - discountAmount;
      taxAmount := taxable * TAX_RATE;
      totalBill := taxable + taxAmount;
    }

    /** `add_item_to_cart_gui`: on success appends exactly one line at the end of the cart and
        stores the new bill; on any refusal nothing changes. */
    method AddItem(rawQuery: string, rawQuantity: string) returns (outcome: AddOutcome)
      requires Valid()
      modifies this
      ensures Valid()
      ensures outcome == ResolveLine(catalog, rawQuery, rawQuantity)
      ensures outcome.Added? ==> cart == old(cart) + [outcome.line] && amountPaid == old(amountPaid)
      ensures outcome.Rejected? ==> unchanged(this)
    {
      outcome := ResolveLine(catalog, rawQuery, rawQuantity);
      if outcome.Added? {
        AddedLineListed(catalog, rawQuery, rawQuantity);
        cart := cart + [outcome.line];
        CalculateBill();
      }
    }

    /** `process_payment_gui`. A successful payment computes the change and then clears the
        cart and every amount; an amount below the total is recorded as the amount paid and
        changes nothing else; every other refusal changes nothing. */
    method ProcessPayment(rawPaid: string) returns (outcome: PaymentOutcome)
      requires Valid()
      modifies this
      ensures Valid()
      ensures outcome == AssessPayment(old(cart), rawPaid)
      ensures outcome.Paid? ==>
        cart == [] && Totals() == Bill(0.0, 0.0, 0.0, 0.0) && amountPaid == 0.0
      ensures outcome.Insufficient? ==>
        cart == old(cart) && Totals() == old(Totals()) && amountPaid == outcome.amount
      ensures !outcome.Paid? && !outcome.Insufficient? ==> unchanged(this)
    {
      outcome := AssessPayment(cart, rawPaid);
      match outcome
      case Insufficient(amount) =>
        amountPaid := amount;
      case Paid(amount, owed) =>
        amountPaid := amount;
        change := owed;
        ClearCart();
      case _ =>
    }

    /** `clear_cart`: whatever the cart and the amounts were, an empty cart with every amount 0. */
    method ClearCart()
      requires UniqueIds(catalog) && PricesNonNegative(catalog)
      modifies this
      ensures Valid()
      ensures cart == [] && Totals() == Bill(0.0, 0.0, 0.0, 0.0) && amountPaid == 0.0
    {
      cart := [];
      subtotal := 0.0;
      taxAmount := 0.0;
      discountAmount := 0.0;
      totalBill := 0.0;
      amountPaid := 0.0;
      change := 0.0;
      CalculateBill();
    }
  }

  /** Between actions the stored amounts are never negative and the total never exceeds the
      subtotal plus tax: every cart line comes from the catalog, whose prices are not negative. */
  lemma ValidAmountsNonNegative(r: Cashier)
    requires r.Valid()
    ensures r.subtotal >= 0.0 && r.discountAmount >= 0.0 && r.taxAmount >= 0.0
    ensures r.totalBill >= 0.0 && r.totalBill <= r.subtotal * 1.08
  {
    CartBillNonNegative(r.cart);
  }

  /** The lines of the example transaction below, each typed by identifier. */
  lemma ExampleApples()
    ensures ResolveLine(Products(), "101", "2") == Added(Line("Apple", 1.50, 2, 3.00))
  {
    ProductsWellFormed();
    AddByIdentifier(Products(), 0, 2);
    assert IntText(2) == "2";
  }

  lemma ExampleMilk()
    ensures ResolveLine(Products(), "201", "5") == Added(Line("Milk (1L)", 3.00, 5, 15.00))
  {
    ProductsWellFormed();
    AddByIdentifier(Products(), 3, 5);
    assert IntText(5) == "5";
  }

  lemma ExampleBanana()
    ensures ResolveLine(Products(), "102", "1") == Added(Line("Banana", 0.75, 1, 0.75))
  {
    ProductsWellFormed();
    AddByIdentifier(Products(), 1, 1);
    assert IntText(1) == "1";
  }

  lemma ExampleCoffee()
    ensures ResolveLine(Products(), "501", "1") == Added(Line("Coffee (Instant)", 5.00, 1, 5.00))
  {
    ProductsWellFormed();
    AddByIdentifier(Products(), 8, 1);
    assert IntText(1) == "1";
  }

  /** The bills of the example cart as it grows: two apples and five bottles of milk stay
      below the threshold (18.00); a banana brings 18.75, still undiscounted; instant coffee
      brings 23.75, which earns a discount of 2.375, tax of 1.71 and a total of 23.085. */
  lemma ExampleBills()
    ensures var apples, milk := Line("Apple", 1.50, 2, 3.00), Line("Milk (1L)", 3.00, 5, 15.00);
      var banana, coffee := Line("Banana", 0.75, 1, 0.75), Line("Coffee (Instant)", 5.00, 1, 5.00);
      && BillOf([apples, milk]) == Bill(18.00, 0.0, 1.44, 19.44)
      && BillOf([apples, milk, banana]) == Bill(18.75, 0.0, 1.50, 20.25)
      && BillOf([apples, milk, banana, coffee]) == Bill(23.75, 2.375, 1.71, 23.085)
  {
    var apples, milk := Line("Apple", 1.50, 2, 3.00), Line("Milk (1L)", 3.00, 5, 15.00);
    var banana, coffee := Line("Banana", 0.75, 1, 0.75), Line("Coffee (Instant)", 5.00, 1, 5.00);
    SubtotalAppend([], apples);
    assert [] + [apples] == [apples];
    SubtotalAppend([apples], milk);
    assert [apples] + [milk] == [apples, milk];
    assert Subtotal([apples, milk]) == 18.00;
    SubtotalAppend([apples, milk], banana);
    assert [apples, milk] + [banana] == [apples, milk, banana];
    assert Subtotal([apples, milk, banana]) == 18.75;
    SubtotalAppend([apples, milk, banana], coffee);
    assert [apples, milk, banana] + [coffee] == [apples, milk, banana, coffee];
    assert Subtotal([apples, milk, banana, coffee]) == 23.75;
  }

  /** A register on the shipped catalog after the four lines of `ExampleBills` are added by
      identifier. */
  method ExampleCart() returns (register: Cashier)
    ensures fresh(register) && register.Valid() && register.catalog == Products()
    ensures register.cart == [Line("Apple", 1.50, 2, 3.00)] + [Line("Milk (1L)", 3.00, 5, 15.00)]
                             + [Line("Banana", 0.75, 1, 0.75)] + [Line("Coffee (Instant)", 5.00, 1, 5.00)]
    ensures register.amountPaid == 0.0
  {
    var apples, milk := Line("Apple", 1.50, 2, 3.00), Line("Milk (1L)", 3.00, 5, 15.00);
    var banana, coffee := Line("Banana", 0.75, 1, 0.75), Line("Coffee (Instant)", 5.00, 1, 5.00);
    ProductsWellFormed();
    register := new Cashier(Products());
    ExampleApples();
    var added := register.AddItem("101", "2");
    ExampleMilk();
    added := register.AddItem("201", "5");
    ExampleBanana();
    added := register.AddItem("102", "1");
    ExampleCoffee();
    added := register.AddItem("501", "1");
  }

  /** A whole transaction: the example cart is billed 23.085 after a discount of 2.375 and
      tax of 1.71; paying 25.00 gives 1.915 change and leaves an empty cart. */
  method ExampleTransaction() {
    var register := ExampleCart();
    var apples, milk := Line("Apple", 1.50, 2, 3.00), Line("Milk (1L)", 3.00, 5, 15.00);
    var banana, coffee := Line("Banana", 0.75, 1, 0.75), Line("Coffee (Instant)", 5.00, 1, 5.00);
    assert register.cart == [apples, milk, banana, coffee];
    ExampleBills();
    assert register.subtotal == 23.75 && register.discountAmount == 2.375;
    assert register.taxAmount == 1.71 && register.totalBill == 23.085;
    PayInCents(register.cart, 2500);
    var paid := register.ProcessPayment(CentsText(2500));
    assert paid == Paid(25.00, 1.915);
    assert register.cart == [] && register.totalBill == 0.0;
  }
}
