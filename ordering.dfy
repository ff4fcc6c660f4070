/** The ordering session: the single mutable `state` record of the kiosk page and the
    event handlers that update it. Network calls are not made here: each handler that
    awaits one receives its outcome as a parameter. */
module Ordering {
  import opened JsValues
  import opened Catalog
  import opened Navigation
  import opened Cart

  /** The outcome of a catalog request: the parsed body, or a transport/parse failure
      (which the handler catches and logs). */
  datatype Fetch<T> = Fetched(value: T) | FetchFailed

  /** The outcome of the order request: the `{success, message}` body, or an exception
      while sending it or parsing the answer. */
  datatype SubmitReply = Replied(success: bool, message: Field) | SubmitFailed

  /** The body posted to the order endpoint. */
  datatype OrderRequest = OrderRequest(tableName: Option<string>, items: seq<CartLine>)

  /** One row of the cart screen: the stored name, the quantity and the line amount. */
  datatype LineView = LineView(name: Field, quantity: int, amount: int)

  /** The cart screen: a notice for an empty cart, otherwise the rows and the total. */
  datatype CartDisplay = EmptyNotice | Listing(lines: seq<LineView>, total: int)

  /** The table id: the `table` query parameter, else `table_code`, else `'Unknown'`;
      a parameter that is missing or empty falls through to the next choice. */
  function ResolveTableId(table: Option<string>, tableCode: Option<string>): (r: string)
    ensures r != ""
    ensures Truthy(table) ==> r == table.value
    ensures !Truthy(table) && Truthy(tableCode) ==> r == tableCode.value
    ensures !Truthy(table) && !Truthy(tableCode) ==> r == "Unknown"
  {
    Or(Or(table, tableCode), Some("Unknown")).value
  }

  class Session {
    var view: View
    var language: Lang
    /** Text direction of the page body: right to left for Arabic. */
    var rightToLeft: bool
    var foodType: Option<FoodType>
    var categoryId: Option<int>
    var categories: seq<Category>
    var dishes: seq<Dish>
    var selectedDish: Option<Dish>
    var cart: seq<CartLine>
    var restaurantName: Field
    var tableId: Option<string>

    /** No handler ever shows the confirmation screen, cart keys are unique, and the
        detail screen always shows a dish of the current list. */
    ghost predicate Valid()
      reads this
    {
      view != ConfirmationView &&
      UniqueKeys(cart) &&
      (view == DishDetailView ==> selectedDish.Some? && selectedDish.value in dishes)
    }

    /** The initial `state` record. */
    constructor ()
      ensures Valid()
      ensures view == LanguageView && language == En && !rightToLeft
      ensures foodType == None && categoryId == None && selectedDish == None
      ensures categories == [] && dishes == [] && cart == []
      ensures restaurantName == Some("") && tableId == None
    {
      view := LanguageView;
      language := En;
      rightToLeft := false;
      foodType := None;
      categoryId := None;
      categories := [];
      dishes := [];
      selectedDish := None;
      cart := [];
      restaurantName := Some("");
      tableId := None;
    }

    /** Start-up: resolve the table id from the query parameters, then take the
        restaurant name from the info request when it succeeds. */
    method Init(table: Option<string>, tableCode: Option<string>, info: Fetch<Field>)
      requires Valid()
      modifies this`tableId, this`restaurantName
      ensures Valid()
      ensures tableId == Some(ResolveTableId(table, tableCode))
      ensures info.Fetched? ==> restaurantName == info.value
      ensures info.FetchFailed? ==> restaurantName == old(restaurantName)
    {
      tableId := Some(ResolveTableId(table, tableCode));
      if info.Fetched? {
        restaurantName := info.value;
      }
    }

    /** A button of the language screen. */
    method SelectLanguage(code: Lang)
      requires Valid() && view == LanguageView
      modifies this`language, this`rightToLeft, this`view
      ensures Valid()
      ensures language == code
      ensures rightToLeft <==> code == Ar
      ensures view == TypeView
    {
      language := code;
      if language == Ar {
        rightToLeft := true;
      } else {
        rightToLeft := false;
      }
      view := TypeView;
    }

    /** `loadCategories`: on success the category list is replaced wholesale and the
        category screen shown; on failure nothing changes. Returns the food type the
        request filters by. */
    method LoadCategories(reply: Fetch<seq<Category>>) returns (query: Option<FoodType>)
      requires Valid()
      modifies this`categories, this`view
      ensures Valid()
      ensures query == foodType
      ensures reply.Fetched? ==> categories == reply.value && view == CategoryView
      ensures reply.FetchFailed? ==> categories == old(categories) && view == old(view)
    {
      query := foodType;
      if reply.Fetched? {
        categories := reply.value;
        view := CategoryView;
      }
    }

    /** A card of the type screen: the food type is recorded before the request, so
        it changes even when the request fails. */
    method SelectType(t: FoodType, reply: Fetch<seq<Category>>) returns (query: Option<FoodType>)
      requires Valid() && view == TypeView
      modifies this`foodType, this`categories, this`view
      ensures Valid()
      ensures foodType == Some(t) && query == Some(t)
      ensures reply.Fetched? ==> categories == reply.value && view == CategoryView
      ensures reply.FetchFailed? ==> categories == old(categories) && view == old(view)
    {
      foodType := Some(t);
      query := LoadCategories(reply);
    }

    /** `loadDishes`: on success the dish list is replaced wholesale and the dish grid
        shown; on failure nothing changes. Returns the category id the request filters by. */
    method LoadDishes(reply: Fetch<seq<Dish>>) returns (query: Option<int>)
      requires Valid()
      modifies this`dishes, this`view
      ensures Valid()
      ensures query == categoryId
      ensures reply.Fetched? ==> dishes == reply.value && view == DishView
      ensures reply.FetchFailed? ==> dishes == old(dishes) && view == old(view)
    {
      query := categoryId;
      if reply.Fetched? {
        dishes := reply.value;
        view := DishView;
      }
    }

    /** A card of the category screen: the category id is recorded before the request. */
    method SelectCategory(id: int, reply: Fetch<seq<Dish>>) returns (query: Option<int>)
      requires Valid() && view == CategoryView
      modifies this`categoryId, this`dishes, this`view
      ensures Valid()
      ensures categoryId == Some(id) && query == Some(id)
      ensures reply.Fetched? ==> dishes == reply.value && view == DishView
      ensures reply.FetchFailed? ==> dishes == old(dishes) && view == old(view)
    {
      categoryId := Some(id);
      query := LoadDishes(reply);
    }

    /** The card of the `k`-th dish of the grid. */
    method SelectDish(k: nat)
      requires Valid() && view == DishView
      requires k < |dishes|
      modifies this`selectedDish, this`view
      ensures Valid()
      ensures selectedDish == Some(dishes[k]) && view == DishDetailView
    {
      selectedDish := Some(dishes[k]);
      view := DishDetailView;
    }

    /** The previous button of the detail screen: the dish before the first dish with
        the shown dish's id, wrapping from the first dish to the last. */
    method NavPrev()
      requires Valid() && view == DishDetailView
      modifies this`selectedDish
      ensures Valid()
      ensures var i := FindDishIndex(dishes, old(selectedDish).value.id);
        0 <= i < |dishes| &&
        selectedDish == Some(dishes[PrevIndex(i, |dishes|)]) &&
        selectedDish == Some(dishes[if i == 0 then |dishes| - 1 else i - 1])
    {
      var i := FindDishIndex(dishes, selectedDish.value.id);
      var n := |dishes|;
      PrevIndexSteps(i, n);
      selectedDish := Some(dishes[PrevIndex(i, n)]);
    }

    /** The next button of the detail screen, wrapping from the last dish to the first. */
    method NavNext()
      requires Valid() && view == DishDetailView
      modifies this`selectedDish
      ensures Valid()
      ensures var i := FindDishIndex(dishes, old(selectedDish).value.id);
        0 <= i < |dishes| &&
        selectedDish == Some(dishes[NextIndex(i, |dishes|)]) &&
        selectedDish == Some(dishes[if i == |dishes| - 1 then 0 else i + 1])
    {
      var i := FindDishIndex(dishes, selectedDish.value.id);
      var n := |dishes|;
      NextIndexSteps(i, n);
      selectedDish := Some(dishes[NextIndex(i, n)]);
    }

    /** The search `addToCart` makes for a line with the given key. */
    method FindLine(key: LineKey) returns (k: nat)
      ensures k <= |cart|
      ensures k < |cart| ==> KeyOf(cart[k]) == key
      ensures forall j :: 0 <= j < k ==> KeyOf(cart[j]) != key
      ensures k == IndexOfKey(cart, key)
    {
      k := 0;
      while k < |cart| && KeyOf(cart[k]) != key
        invariant k <= |cart|
        invariant forall j :: 0 <= j < k ==> KeyOf(cart[j]) != key
        decreases |cart| - k
      {
        k := k + 1;
      }
    }

    /** `addToCart`: merge into the line with the same key, or append a new line; when
        the selection is new and the dish has no such size the call throws (`thrown`)
        and the cart is unchanged. */
    method AddToCart(dish: Dish, sizeId: int, qty: int, notes: seq<string>) returns (thrown: bool)
      requires Valid()
      modifies this`cart
      ensures Valid()
      ensures thrown <==> Add(old(cart), dish, sizeId, qty, notes).InvalidSize?
      ensures !thrown ==> cart == Add(old(cart), dish, sizeId, qty, notes).cart
      ensures thrown ==> cart == old(cart)
    {
      AddPreservesUniqueKeys(cart, dish, sizeId, qty, notes);
      var k := FindLine(LineKey(dish.id, sizeId, notes));
      if k < |cart| {
        cart := cart[k := cart[k].(quantity := cart[k].quantity + qty)];
        thrown := false;
      } else {
        var size := FindSize(dish.sizes, sizeId);
        if size.None? {
          thrown := true;
        } else {
          cart := cart + [CartLine(dish.id, sizeId, qty, dish.name.en, size.value.price, notes)];
          thrown := false;
        }
      }
    }

    /** The add button of the detail screen: one unit of the shown dish in the chosen
        size with the ticked removal notes. An empty size selector parses to `NaN`
        (`sizeChoice == None`), which matches no line and no size, so the call throws. */
    method AddSelected(sizeChoice: Option<int>, notes: seq<string>) returns (thrown: bool)
      requires Valid() && view == DishDetailView
      modifies this`cart
      ensures Valid()
      ensures sizeChoice.None? ==> thrown && cart == old(cart)
      ensures sizeChoice.Some? ==>
        (thrown <==> Add(old(cart), selectedDish.value, sizeChoice.value, 1, notes).InvalidSize?) &&
        (!thrown ==> cart == Add(old(cart), selectedDish.value, sizeChoice.value, 1, notes).cart) &&
        (thrown ==> cart == old(cart))
    {
      if sizeChoice.None? {
        thrown := true;
      } else {
        thrown := AddToCart(selectedDish.value, sizeChoice.value, 1, notes);
      }
    }

    /** The cart screen: each row shows its own price times quantity, and the total is
        accumulated over the rows; an empty cart shows only a notice, without a total. */
    method ShowCart() returns (d: CartDisplay)
      ensures d.EmptyNotice? <==> cart == []
      ensures d.Listing? ==>
        |d.lines| == |cart| &&
        (forall i :: 0 <= i < |cart| ==>
           d.lines[i] == LineView(cart[i].name, cart[i].quantity, cart[i].price * cart[i].quantity)) &&
        d.total == Total(cart)
    {
      if |cart| == 0 {
        return EmptyNotice;
      }
      var total := 0;
      var lines: seq<LineView> := [];
      var i := 0;
      while i < |cart|
        invariant 0 <= i <= |cart|
        invariant |lines| == i
        invariant forall j :: 0 <= j < i ==>
          lines[j] == LineView(cart[j].name, cart[j].quantity, cart[j].price * cart[j].quantity)
        invariant total == Total(cart[..i])
      {
        var itemTotal := cart[i].price * cart[i].quantity;
        total := total + itemTotal;
        lines := lines + [LineView(cart[i].name, cart[i].quantity, itemTotal)];
        assert cart[..i + 1][..i] == cart[..i];
        i := i + 1;
      }
      assert cart[..i] == cart;
      d := Listing(lines, total);
    }

    /** The cart button of the header, which every screen but the language screen has. */
    method ViewCart()
      requires Valid() && view != LanguageView
      modifies this`view
      ensures Valid()
      ensures view == CartView
    {
      view := CartView;
    }

    /** `goBack`: the fixed parent of the current screen; the language and confirmation
        screens have none and stay put. */
    method GoBack()
      requires Valid()
      modifies this`view
      ensures Valid()
      ensures view == Parent(old(view))
    {
      if view == CartView {
        view := DishView;
      } else if view == DishDetailView {
        view := DishView;
      } else if view == DishView {
        view := CategoryView;
      } else if view == CategoryView {
        view := TypeView;
      } else if view == TypeView {
        view := LanguageView;
      }
    }

    /** The back button of the header, which the type screen wires straight to the
        language screen; on every screen that has a header it agrees with the parent map. */
    method HeaderBack()
      requires Valid() && view != LanguageView
      modifies this`view
      ensures Valid()
      ensures view == Parent(old(view))
    {
      if view == TypeView {
        view := LanguageView;
      } else {
        GoBack();
      }
    }

    /** `submitOrder`, the checkout button of a cart screen with at least one line: posts
        the table id and the cart; an accepted order empties the cart and returns to the
        type screen, while a rejection or an exception changes nothing. */
    method SubmitOrder(reply: SubmitReply) returns (request: OrderRequest)
      requires Valid() && view == CartView && cart != []
      modifies this`cart, this`view
      ensures Valid()
      ensures request == OrderRequest(old(tableId), old(cart))
      ensures reply.Replied? && reply.success ==> cart == [] && view == TypeView
      ensures !(reply.Replied? && reply.success) ==> cart == old(cart) && view == old(view)
    {
      request := OrderRequest(tableId, cart);
      if reply.Replied? && reply.success {
        cart := [];
        view := TypeView;
      }
    }
  }

  /** The dish of the walk-through below: one size, id 1, at 10. */
  function SoupDish(): Dish {
    Dish(3, Texts(Some("Soup"), None, None), Texts(None, None, None),
         [Size(1, Texts(Some("Bowl"), None, None), 10)])
  }

  /** The line that adding two bowls of soup to an empty cart creates. */
  function SoupLine(): CartLine {
    CartLine(3, 1, 2, Some("Soup"), 10, [])
  }

  /** Browsing from the language screen to a dish and adding it, checked from the
      handlers' contracts alone. */
  method BrowseScenario()
  {
    var s := new Session();
    s.Init(Some("5"), None, Fetched(Some("Bistro")));
    s.SelectLanguage(Fr);
    assert !s.rightToLeft;
    var c1 := Category(7, Texts(Some("Mains"), None, Some("Plats")), []);
    var q := s.SelectType(Savory, Fetched([c1]));
    assert s.view == CategoryView && s.categories == [c1];
    var d1 := SoupDish();
    var cq := s.SelectCategory(c1.id, Fetched([d1]));
    assert s.view == DishView;
    s.SelectDish(0);
    assert s.selectedDish == Some(d1) && s.view == DishDetailView;
    assert FindSize(d1.sizes, 1) == Some(d1.sizes[0]);
    AddAppendsNewLine([], d1, 1, 2, []);
    var thrown := s.AddToCart(d1, 1, 2, []);
    assert !thrown && s.cart == [SoupLine()];
  }

  /** A session on the type screen whose cart holds two bowls of soup, reached through
      the contracts of the constructor, `Init`, `SelectLanguage` and `AddToCart`. */
  method SoupSession() returns (s: Session)
    ensures fresh(s) && s.Valid()
    ensures s.cart == [SoupLine()] && s.tableId == Some("5") && s.view == TypeView
  {
    s := new Session();
    s.Init(Some("5"), None, FetchFailed);
    s.SelectLanguage(En);
    var d1 := SoupDish();
    assert FindSize(d1.sizes, 1) == Some(d1.sizes[0]);
    AddAppendsNewLine([], d1, 1, 2, []);
    var thrown := s.AddToCart(d1, 1, 2, []);
  }

  /** The cart screen lists the line with its amount and the total. */
  method CartScreenScenario()
  {
    var s := SoupSession();
    s.ViewCart();
    var shown := s.ShowCart();
    var line := SoupLine();
    assert Total([line]) == 20 by {
      SumSingleton(line, Amount);
    }
    assert shown.Listing? && |shown.lines| == 1;
    assert shown.lines[0] == LineView(Some("Soup"), 2, 20);
    assert shown == Listing([LineView(Some("Soup"), 2, 20)], 20);
  }

  /** A rejection keeps the cart and the screen; an acceptance posts the table id with
      the cart, empties the cart and returns to the type screen. */
  method SubmitScenario()
  {
    var s := SoupSession();
    s.ViewCart();
    var rejected := s.SubmitOrder(Replied(false, Some("Kitchen closed")));
    assert s.cart == [SoupLine()] && s.view == CartView;
    var failed := s.SubmitOrder(SubmitFailed);
    assert s.cart == [SoupLine()] && s.view == CartView;
    var request := s.SubmitOrder(Replied(true, None));
    assert request == OrderRequest(Some("5"), [SoupLine()]);
    assert s.cart == [] && s.view == TypeView;
  }
}
