/**
  The checkout component: the form it holds, the gate that keeps an invalid
  form from being submitted, the assembly of the Purchase from the form and
  the cart, the reset after a successful order, and the helpers that fill the
  billing address, the state lists and the expiry months.

  The network calls (placing the order, fetching countries and states) are
  not modelled; their outcomes are parameters. So are the current year and
  month, which the source reads from the clock.
 */
module Checkout {
  import opened Wrappers
  import opened Common
  import opened CartLines
  import opened CartStore
  import opened ShopFormService
  import opened ShopValidators

  // ---------------------------------------------------------------------
  // Form values. A field holding '' or null is `None` for the selections
  // (state, country, expiry) and `Some("")` or `None` for the text fields.

  datatype CustomerGroup = CustomerGroup(firstName: Option<string>, lastName: Option<string>, email: Option<string>)

  datatype AddressGroup = AddressGroup(
    street: Option<string>,
    city: Option<string>,
    state: Option<State>,
    country: Option<Country>,
    zipCode: Option<string>)

  datatype CreditCardGroup = CreditCardGroup(
    cardType: Option<string>,
    nameOnCard: Option<string>,
    cardNumber: Option<string>,
    securityCode: Option<string>,
    expirationMonth: Option<int>,
    expirationYear: Option<int>)

  datatype CheckoutForm = CheckoutForm(
    customer: CustomerGroup,
    shippingAddress: AddressGroup,
    billingAddress: AddressGroup,
    creditCard: CreditCardGroup)

  /** The form as `ngOnInit` builds it: every text field '', nothing selected. */
  function InitialForm(): CheckoutForm {
    var blank := Some("");
    var address := AddressGroup(blank, blank, None, None, blank);
    CheckoutForm(
      CustomerGroup(blank, blank, blank),
      address,
      address,
      CreditCardGroup(blank, blank, blank, blank, None, None))
  }

  /** An address group after `reset()`: every control null. */
  function ClearedAddress(): AddressGroup {
    AddressGroup(None, None, None, None, None)
  }

  /** The form after `reset()`: every control null. */
  function ClearedForm(): CheckoutForm {
    CheckoutForm(
      CustomerGroup(None, None, None),
      ClearedAddress(),
      ClearedAddress(),
      CreditCardGroup(None, None, None, None, None, None))
  }

  /** The outcome of `placeOrder`. */
  datatype PlaceOrderResponse = Received(orderTrackingNumber: string) | Failed(message: string)

  // ---------------------------------------------------------------------
  // Form validity, with the framework validators as this model reads them:
  // `required` rejects null and '', `minLength` and `pattern` pass null and ''
  // (leaving those to `required`), and a pattern must match the whole value.

  predicate Required(value: Option<string>) {
    value.Some? && |value.value| > 0
  }

  predicate MinLength(value: Option<string>, n: nat) {
    value.None? || |value.value| == 0 || |value.value| >= n
  }

  /** required, minLength(2) and notOnlyWhitespace, as on every name-like field. */
  predicate TextFieldValid(value: Option<string>) {
    Required(value) && MinLength(value, 2) && NotOnlyWhitespace(value).None?
  }

  predicate IsDigit(c: char) {
    '0' <= c <= '9'
  }

  predicate IsLetter(c: char) {
    ('a' <= c <= 'z') || ('A' <= c <= 'Z')
  }

  /** required and pattern '[0-9]{n}'. */
  predicate DigitsFieldValid(value: Option<string>, n: nat) {
    Required(value) && |value.value| == n && forall i :: 0 <= i < |value.value| ==> IsDigit(value.value[i])
  }

  /**
    The email pattern '^[a-zA-Z0-9._%+-]+@[a-zA-Z0-9.-]+\.[a-zA-Z]{2,4}$':
    a non-empty local part, '@', a non-empty domain, '.', two to four letters.
   */
  predicate EmailShaped(s: string) {
    exists at | 0 < at < |s| :: exists dot | at + 1 < dot < |s| ::
      && s[at] == '@' && s[dot] == '.'
      && 2 <= |s| - dot - 1 <= 4
      && (forall i :: 0 <= i < at ==> IsLetter(s[i]) || IsDigit(s[i]) || s[i] in "._%+-")
      && (forall i :: at < i < dot ==> IsLetter(s[i]) || IsDigit(s[i]) || s[i] in ".-")
      && (forall i :: dot < i < |s| ==> IsLetter(s[i]))
  }

  predicate CustomerValid(c: CustomerGroup) {
    TextFieldValid(c.firstName) && TextFieldValid(c.lastName) && Required(c.email) && EmailShaped(c.email.value)
  }

  predicate AddressValid(a: AddressGroup) {
    TextFieldValid(a.street) && TextFieldValid(a.city) && a.state.Some? && a.country.Some? && TextFieldValid(a.zipCode)
  }

  predicate CreditCardValid(c: CreditCardGroup) {
    Required(c.cardType) && TextFieldValid(c.nameOnCard)
    && DigitsFieldValid(c.cardNumber, 16) && DigitsFieldValid(c.securityCode, 3)
  }

  /**
    The negation of `checkoutFormGroup.invalid`. The form as first shown and
    the form after a reset are both invalid, so neither can be submitted.
   */
  predicate FormValid(f: CheckoutForm)
    ensures FormValid(f) ==> f != InitialForm() && f != ClearedForm()
  {
    CustomerValid(f.customer) && AddressValid(f.shippingAddress) && AddressValid(f.billingAddress)
    && CreditCardValid(f.creditCard)
  }

  // ---------------------------------------------------------------------
  // Assembling the purchase

  /**
    The customer as entered. The names sent are at least two characters and
    not all white space, and the email has the shape the pattern demands.
   */
  function CustomerOf(c: CustomerGroup): (r: Customer)
    requires CustomerValid(c)
    ensures Some(r.firstName) == c.firstName && Some(r.lastName) == c.lastName && Some(r.email) == c.email
    ensures |r.firstName| >= 2 && NotOnlyWhitespace(Some(r.firstName)).None?
    ensures |r.lastName| >= 2 && NotOnlyWhitespace(Some(r.lastName)).None?
    ensures EmailShaped(r.email)
  {
    Customer(c.firstName.value, c.lastName.value, c.email.value)
  }

  /**
    An address group as submitted: the state and country selections replaced
    by their names, and street, city and zip code as entered, each at least
    two characters and not all white space.
   */
  function ResolveAddress(a: AddressGroup): (r: Address)
    requires AddressValid(a)
    ensures r.state == a.state.value.name && r.country == a.country.value.name
    ensures Some(r.street) == a.street && Some(r.city) == a.city && Some(r.zipCode) == a.zipCode
    ensures |r.street| >= 2 && NotOnlyWhitespace(Some(r.street)).None?
    ensures |r.city| >= 2 && NotOnlyWhitespace(Some(r.city)).None?
    ensures |r.zipCode| >= 2 && NotOnlyWhitespace(Some(r.zipCode)).None?
  {
    Address(a.street.value, a.city.value, a.state.value.name, a.country.value.name, a.zipCode.value)
  }

  /** One order line per cart line, in cart order. */
  function OrderItemsOf(lines: seq<CartItem>): seq<OrderItem> {
    seq(|lines|, i requires 0 <= i < |lines| => ToOrderItem(lines[i]))
  }

  /**
    The Purchase `onSubmit` hands to `placeOrder` for a valid form: one order
    line per cart line, and an Order with the given totals; when those totals
    are the cart's sums (as the cart's published totals are), the Order's
    totals are the sums over the Purchase's own order lines.
   */
  function AssemblePurchase(form: CheckoutForm, lines: seq<CartItem>, totalPrice: int, totalQuantity: int): (r: Purchase)
    requires FormValid(form)
    ensures |r.orderItems| == |lines|
    ensures r.order.totalPrice == totalPrice && r.order.totalQuantity == totalQuantity
    ensures totalPrice == SumPrice(lines) && totalQuantity == SumQuantity(lines) ==>
              r.order.totalPrice == OrderSumPrice(r.orderItems) && r.order.totalQuantity == OrderSumQuantity(r.orderItems)
  {
    OrderLinesSumLikeCart(lines);
    Purchase(
      CustomerOf(form.customer),
      ResolveAddress(form.shippingAddress),
      ResolveAddress(form.billingAddress),
      Order(totalQuantity, totalPrice),
      OrderItemsOf(lines))
  }

  /** The loop of `onSubmit` that turns the cart lines into order lines. */
  method BuildOrderItems(cartItems: seq<CartItem>) returns (orderItems: seq<OrderItem>)
    ensures |orderItems| == |cartItems|
    ensures forall i :: 0 <= i < |cartItems| ==> orderItems[i] == ToOrderItem(cartItems[i])
    ensures orderItems == OrderItemsOf(cartItems)
  {
    orderItems := [];
    for i := 0 to |cartItems|
      invariant |orderItems| == i
      invariant forall k :: 0 <= k < i ==> orderItems[k] == ToOrderItem(cartItems[k])
    {
      orderItems := orderItems + [ToOrderItem(cartItems[i])];
    }
  }

  function OrderSumQuantity(items: seq<OrderItem>): int {
    if |items| == 0 then 0 else OrderSumQuantity(items[..|items| - 1]) + items[|items| - 1].quantity
  }

  function OrderSumPrice(items: seq<OrderItem>): int {
    if |items| == 0 then 0 else OrderSumPrice(items[..|items| - 1]) + OrderSubtotal(items[|items| - 1])
  }

  /** The order lines add up to the same totals as the cart lines they copy. */
  lemma {:induction false} OrderLinesSumLikeCart(lines: seq<CartItem>)
    ensures OrderSumQuantity(OrderItemsOf(lines)) == SumQuantity(lines)
    ensures OrderSumPrice(OrderItemsOf(lines)) == SumPrice(lines)
  {
    if |lines| > 0 {
      var init := lines[..|lines| - 1];
      assert OrderItemsOf(lines)[..|lines| - 1] == OrderItemsOf(init);
      OrderLinesSumLikeCart(init);
    }
  }

  /**
    What the submitted Purchase holds: the customer as entered; both addresses
    with the state and country names in place of the selections and the
    other fields as entered; the Order carrying the given totals; and one
    order line per cart line, in order, with the line's product id.
   */
  lemma PurchaseContents(form: CheckoutForm, lines: seq<CartItem>, totalPrice: int, totalQuantity: int)
    requires FormValid(form)
    ensures var p := AssemblePurchase(form, lines, totalPrice, totalQuantity);
            && p.customer == Customer(form.customer.firstName.value, form.customer.lastName.value, form.customer.email.value)
            && p.order.totalPrice == totalPrice && p.order.totalQuantity == totalQuantity
            && |p.orderItems| == |lines|
            && (forall i :: 0 <= i < |lines| ==>
                  p.orderItems[i] == ToOrderItem(lines[i]) && p.orderItems[i].productId == lines[i].id)
  {
  }

  lemma ResolvedAddresses(form: CheckoutForm, lines: seq<CartItem>, totalPrice: int, totalQuantity: int)
    requires FormValid(form)
    ensures var p := AssemblePurchase(form, lines, totalPrice, totalQuantity);
            var s, b := form.shippingAddress, form.billingAddress;
            && p.shippingAddress == Address(s.street.value, s.city.value, s.state.value.name, s.country.value.name, s.zipCode.value)
            && p.billingAddress == Address(b.street.value, b.city.value, b.state.value.name, b.country.value.name, b.zipCode.value)
  {
  }

  // ---------------------------------------------------------------------
  // Expiry months

  /**
    The start of the month list: the current month when the selected expiry
    year is the current year, otherwise January.
   */
  function StartMonth(selectedYear: Option<int>, currentYear: int, currentMonth: int): (r: int)
    ensures 1 <= currentMonth <= 12 ==> 1 <= r <= currentMonth
    ensures r != 1 ==> selectedYear == Some(currentYear)
  {
    if selectedYear == Some(currentYear) then currentMonth else 1
  }

  /** The expiry year of the form group with this name; a missing group gives none. */
  function GroupExpirationYear(form: CheckoutForm, groupName: string): Option<int> {
    if groupName == "creditCard" then form.creditCard.expirationYear else None
  }

  /**
    The start month as `handleMonthsAndYears` computes it, looking up the
    group 'creitCard': no such group exists, the selected year is never
    found, and the list always starts in January.
   */
  function StartMonthAsWritten(form: CheckoutForm, currentYear: int, currentMonth: int): (r: int)
    ensures r == 1
  {
    assert "creitCard"[3] != "creditCard"[3];
    StartMonth(GroupExpirationYear(form, "creitCard"), currentYear, currentMonth)
  }

  /**
    In October 2026 with 2026 selected, the source offers January to
    September, which are already past; the intended start is October.
   */
  lemma StartMonthTypoCounterexample()
    ensures var form := InitialForm().(creditCard := InitialForm().creditCard.(expirationYear := Some(2026)));
            && StartMonthAsWritten(form, 2026, 10) == 1
            && 9 in ExpiryMonths(StartMonthAsWritten(form, 2026, 10))
            && StartMonth(form.creditCard.expirationYear, 2026, 10) == 10
  {
    var form := InitialForm().(creditCard := InitialForm().creditCard.(expirationYear := Some(2026)));
    assert ExpiryMonths(1)[8] == 9;
  }

  /**
    The months offered: for the current year exactly the current month to
    December, so no past month; for any other year all twelve months.
   */
  lemma StartMonthOffersNoPastMonth(selectedYear: Option<int>, currentYear: int, currentMonth: int)
    requires 1 <= currentMonth <= 12
    ensures selectedYear == Some(currentYear) ==>
              forall m :: m in ExpiryMonths(StartMonth(selectedYear, currentYear, currentMonth)) <==> currentMonth <= m <= 12
    ensures selectedYear != Some(currentYear) ==>
              forall m :: m in ExpiryMonths(StartMonth(selectedYear, currentYear, currentMonth)) <==> 1 <= m <= 12
  {
    var months := ExpiryMonths(StartMonth(selectedYear, currentYear, currentMonth));
    var start := StartMonth(selectedYear, currentYear, currentMonth);
    forall m | start <= m <= 12 ensures m in months {
      assert months[m - start] == m;
    }
  }

  // ---------------------------------------------------------------------
  // The component

  class CheckoutComponent {
    const cart: Cart
    var form: CheckoutForm
    /** Set by `markAllAsTouched`, cleared by `reset`. */
    var touched: bool
    var creditCardYears: seq<int>
    var creditCardMonths: seq<int>
    var countries: seq<Country>
    var shippingAddressStates: seq<State>
    var billingAddressStates: seq<State>
    /** Every Purchase handed to `placeOrder`, oldest first. */
    var placedOrders: seq<Purchase>

    /** The component's `totalPrice`: its subscription mirrors the cart's channel. */
    function TotalPrice(): int
      reads this, cart
      requires |cart.publishedPrices| > 0
    {
      cart.TotalPrice()
    }

    /** The component's `totalQuantity`, mirroring the cart's channel. */
    function TotalQuantity(): int
      reads this, cart
      requires |cart.publishedQuantities| > 0
    {
      cart.TotalQuantity()
    }

    /**
      Construction and `ngOnInit`: the blank form, the expiry months from the
      current month, the expiry years from the current year, and the country
      list the service returned.
     */
    constructor (cart: Cart, currentYear: int, currentMonth: int, countries: seq<Country>)
      ensures this.cart == cart
      ensures form == InitialForm() && !touched
      ensures creditCardMonths == ExpiryMonths(currentMonth)
      ensures creditCardYears == ExpiryYears(currentYear)
      ensures this.countries == countries
      ensures shippingAddressStates == [] && billingAddressStates == []
      ensures placedOrders == []
    {
      var months := GetCreditCardMonths(currentMonth);
      var years := GetCreditCardYears(currentYear);
      this.cart := cart;
      form := InitialForm();
      touched := false;
      creditCardMonths := months;
      creditCardYears := years;
      this.countries := countries;
      shippingAddressStates := [];
      billingAddressStates := [];
      placedOrders := [];
    }

    /**
      `onSubmit`. An invalid form is only marked touched: no Purchase is
      built, nothing is placed and the cart is untouched. A valid form gives
      the Purchase of `AssemblePurchase`, which is placed; when the order is
      received the cart and form are reset, and on an error nothing is.
     */
    method OnSubmit(response: PlaceOrderResponse) returns (sent: Option<Purchase>)
      requires cart.Valid()
      modifies this, cart
      ensures !FormValid(old(form)) ==>
                && sent == None
                && touched
                && form == old(form)
                && placedOrders == old(placedOrders)
                && unchanged(cart)
      ensures FormValid(old(form)) ==>
                && sent == Some(AssemblePurchase(old(form), old(cart.lines), old(TotalPrice()), old(TotalQuantity())))
                && placedOrders == old(placedOrders) + [sent.value]
      ensures FormValid(old(form)) && response.Received? ==>
                && cart.lines == []
                && cart.publishedPrices == old(cart.publishedPrices) + [0]
                && cart.publishedQuantities == old(cart.publishedQuantities) + [0]
                && cart.stored == old(cart.stored)
                && form == ClearedForm() && !touched
      ensures FormValid(old(form)) && response.Failed? ==>
                && unchanged(cart)
                && form == old(form) && touched == old(touched)
      ensures cart.Valid()
      ensures creditCardYears == old(creditCardYears) && creditCardMonths == old(creditCardMonths)
      ensures countries == old(countries)
      ensures shippingAddressStates == old(shippingAddressStates)
      ensures billingAddressStates == old(billingAddressStates)
    {
      if !FormValid(form) {
        touched := true;
        return None;
      }

      var order := Order(TotalQuantity(), TotalPrice());
      var cartItems := cart.lines;
      var orderItems := BuildOrderItems(cartItems);

      var shippingAddress := ResolveAddress(form.shippingAddress);
      var billingAddress := ResolveAddress(form.billingAddress);
      var purchase := Purchase(CustomerOf(form.customer), shippingAddress, billingAddress, order, orderItems);

      placedOrders := placedOrders + [purchase];
      match response {
        case Received(_) =>
          ResetCart();
        case Failed(_) =>
      }
      sent := Some(purchase);
    }

    /**
      `resetCart`: empties the cart's lines, publishes 0 on both channels and
      resets the form. It does not write storage, so the stored list stays.
     */
    method ResetCart()
      modifies this, cart
      ensures cart.lines == []
      ensures cart.publishedPrices == old(cart.publishedPrices) + [0]
      ensures cart.publishedQuantities == old(cart.publishedQuantities) + [0]
      ensures cart.stored == old(cart.stored)
      ensures cart.Valid()
      ensures form == ClearedForm() && !touched
      ensures placedOrders == old(placedOrders)
      ensures creditCardYears == old(creditCardYears) && creditCardMonths == old(creditCardMonths)
      ensures countries == old(countries)
      ensures shippingAddressStates == old(shippingAddressStates)
      ensures billingAddressStates == old(billingAddressStates)
    {
      cart.lines := [];
      cart.publishedPrices := cart.publishedPrices + [0];
      cart.publishedQuantities := cart.publishedQuantities + [0];
      form := ClearedForm();
      touched := false;
    }

    /**
      `copyShippingAddressToBillingAddress`: when checked, the billing group
      takes the shipping group's value and the billing state list becomes the
      shipping one; when unchecked, the billing group is cleared and its state
      list emptied. Nothing else changes.
     */
    method CopyShippingAddressToBillingAddress(checked: bool)
      modifies this
      ensures checked ==> form == old(form).(billingAddress := old(form).shippingAddress)
      ensures checked ==> billingAddressStates == old(shippingAddressStates)
      ensures !checked ==> form == old(form).(billingAddress := ClearedAddress())
      ensures !checked ==> billingAddressStates == []
      ensures shippingAddressStates == old(shippingAddressStates)
      ensures touched == old(touched) && placedOrders == old(placedOrders)
      ensures creditCardYears == old(creditCardYears) && creditCardMonths == old(creditCardMonths)
      ensures countries == old(countries)
    {
      if checked {
        form := form.(billingAddress := form.shippingAddress);
        billingAddressStates := shippingAddressStates;
      } else {
        form := form.(billingAddress := ClearedAddress());
        billingAddressStates := [];
      }
    }

    /**
      The callback of `getStates` with the states the service returned for
      the group's country: the named group's state list is replaced and its
      state set to the first state (none when the list is empty); the other
      group is left alone.
     */
    method GetStates(formGroupName: string, data: seq<State>)
      requires formGroupName == "shippingAddress" || formGroupName == "billingAddress"
      modifies this
      ensures var first := if |data| > 0 then Some(data[0]) else None;
              if formGroupName == "shippingAddress" then
                && shippingAddressStates == data
                && billingAddressStates == old(billingAddressStates)
                && form == old(form).(shippingAddress := old(form).shippingAddress.(state := first))
              else
                && billingAddressStates == data
                && shippingAddressStates == old(shippingAddressStates)
                && form == old(form).(billingAddress := old(form).billingAddress.(state := first))
      ensures touched == old(touched) && placedOrders == old(placedOrders)
      ensures creditCardYears == old(creditCardYears) && creditCardMonths == old(creditCardMonths)
      ensures countries == old(countries)
    {
      if formGroupName == "shippingAddress" {
        shippingAddressStates := data;
      } else {
        billingAddressStates := data;
      }
      var first := if |data| > 0 then Some(data[0]) else None;
      if formGroupName == "shippingAddress" {
        form := form.(shippingAddress := form.shippingAddress.(state := first));
      } else {
        form := form.(billingAddress := form.billingAddress.(state := first));
      }
    }

    /**
      `handleMonthsAndYears`, with the credit-card group looked up under its
      own name: the month list restarts at `StartMonth` for the selected year.
     */
    method HandleMonthsAndYears(currentYear: int, currentMonth: int)
      modifies this
      ensures creditCardMonths == ExpiryMonths(StartMonth(form.creditCard.expirationYear, currentYear, currentMonth))
      ensures form == old(form) && touched == old(touched) && placedOrders == old(placedOrders)
      ensures creditCardYears == old(creditCardYears) && countries == old(countries)
      ensures shippingAddressStates == old(shippingAddressStates)
      ensures billingAddressStates == old(billingAddressStates)
    {
      var selectedYear := GroupExpirationYear(form, "creditCard");
      var startMonth: int;
      if selectedYear == Some(currentYear) {
        startMonth := currentMonth;
      } else {
        startMonth := 1;
      }
      creditCardMonths := GetCreditCardMonths(startMonth);
    }
  }

  /**
    A client run: a cart restored from a stored two-line list, then a valid
    form submitted and the order received.
   */
  method CheckoutExample(filled: CheckoutForm)
    requires FormValid(filled)
  {
    var guitar := CartItem("A", "Guitar", "a.png", 1000, 2);
    var strings := CartItem("B", "Strings", "b.png", 500, 1);
    var cart := new Cart(Some([guitar, strings]));
    assert [guitar, strings][..1] == [guitar] && [guitar][..0] == [];
    assert SumPrice([guitar]) == 2000 && SumQuantity([guitar]) == 2;
    assert cart.TotalPrice() == 2500 && cart.TotalQuantity() == 3;

    var checkout := new CheckoutComponent(cart, 2026, 10, []);
    checkout.form := filled;
    var sent := checkout.OnSubmit(Received("T-1"));
    assert sent.value.order == Order(3, 2500);
    assert |sent.value.orderItems| == 2 && sent.value.orderItems[0].productId == "A";
    assert cart.lines == [] && cart.TotalPrice() == 0 && cart.TotalQuantity() == 0;
    assert cart.stored == Some([guitar, strings]);
  }
}
