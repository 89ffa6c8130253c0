/**
 * The checkout page's cart (src/routes/checkout.tsx): the state updaters of
 * the Add and Remove buttons, the derived item count and per-film quantity
 * map, the rule that disables a film's Add button, the rule that enables
 * Submit, and the guard the checkout mutation runs before calling the API.
 */
module Cart {
  import opened Results
  import opened Sakila
  import Inventory

  /** One line of the cart: a film and how many copies of it to rent. */
  datatype CartItem = CartItem(filmId: string, title: string, qty: int)

  /** Some line of the cart is for `filmId`. */
  predicate HasFilm(cart: seq<CartItem>, filmId: string) {
    exists k :: 0 <= k < |cart| && cart[k].filmId == filmId
  }

  /** No two lines of the cart are for the same film. */
  predicate UniqueFilms(cart: seq<CartItem>) {
    forall a, b :: 0 <= a < b < |cart| ==> cart[a].filmId != cart[b].filmId
  }

  /** `prev.find(item => item.filmId === filmId)`: the first line for the film. */
  function Find(cart: seq<CartItem>, filmId: string): (r: Option<CartItem>)
    ensures r.None? <==> !HasFilm(cart, filmId)
    ensures r.Some? ==> r.value in cart && r.value.filmId == filmId
  {
    if cart == [] then None
    else if cart[0].filmId == filmId then Some(cart[0])
    else
      var r := Find(cart[1..], filmId);
      assert forall k :: 1 <= k < |cart| ==> cart[k] == cart[1..][k - 1];
      r
  }

  /** The line `Find` returns is the first one for the film. */
  lemma {:induction false} FindIsFirst(cart: seq<CartItem>, filmId: string)
    requires HasFilm(cart, filmId)
    ensures exists i ::
      && 0 <= i < |cart|
      && cart[i] == Find(cart, filmId).value
      && forall k :: 0 <= k < i ==> cart[k].filmId != filmId
  {
    if cart[0].filmId == filmId {
      assert Find(cart, filmId) == Some(cart[0]);
    } else {
      var tail := cart[1..];
      assert HasFilm(tail, filmId) by {
        var j :| 0 <= j < |cart| && cart[j].filmId == filmId;
        assert tail[j - 1] == cart[j];
      }
      FindIsFirst(tail, filmId);
      var i :| 0 <= i < |tail| && tail[i] == Find(tail, filmId).value
        && forall k :: 0 <= k < i ==> tail[k].filmId != filmId;
      assert Find(cart, filmId) == Find(tail, filmId);
      forall k | 0 <= k < i + 1
        ensures cart[k].filmId != filmId
      {
        if k > 0 {
          assert cart[k] == tail[k - 1];
        }
      }
      assert cart[i + 1] == tail[i];
    }
  }

  function Min(a: int, b: int): int {
    if a < b then a else b
  }

  /** The line after one press of Add for `filmId`: one more copy, capped at
      the film's available stock; lines for other films are untouched. */
  function Bump(item: CartItem, filmId: string, available: int): CartItem {
    if item.filmId == filmId then item.(qty := Min(item.qty + 1, available)) else item
  }

  /** The Add button's updater: a film already in the cart gets one more copy
      (never more than `available`), a new film is appended with one copy. */
  function AddToCart(cart: seq<CartItem>, film: Film, available: int): (r: seq<CartItem>)
    ensures !HasFilm(cart, film.id) ==> r == cart + [CartItem(film.id, film.title, 1)]
    ensures HasFilm(cart, film.id) ==> |r| == |cart|
    ensures HasFilm(cart, film.id) ==> forall k :: 0 <= k < |cart| ==>
      && r[k].filmId == cart[k].filmId
      && r[k].title == cart[k].title
      && (cart[k].filmId == film.id ==> r[k].qty == Min(cart[k].qty + 1, available) && r[k].qty <= available)
      && (cart[k].filmId != film.id ==> r[k] == cart[k])
  {
    if Find(cart, film.id).Some? then
      seq(|cart|, k requires 0 <= k < |cart| => Bump(cart[k], film.id, available))
    else
      cart + [CartItem(film.id, film.title, 1)]
  }

  /** The Remove button's updater: every line for `filmId` is dropped, the
      others keep their order. */
  function RemoveFromCart(cart: seq<CartItem>, filmId: string): (r: seq<CartItem>)
    ensures |r| <= |cart|
    ensures forall x :: x in r <==> x in cart && x.filmId != filmId
    ensures !HasFilm(r, filmId)
  {
    if cart == [] then []
    else
      var rest := RemoveFromCart(cart[1..], filmId);
      if cart[0].filmId != filmId then [cart[0]] + rest else rest
  }

  /** Removing a film the cart does not hold changes nothing. */
  lemma {:induction false} RemoveAbsent(cart: seq<CartItem>, filmId: string)
    requires !HasFilm(cart, filmId)
    ensures RemoveFromCart(cart, filmId) == cart
  {
    if cart != [] {
      assert forall k :: 1 <= k < |cart| ==> cart[k] == cart[1..][k - 1];
      RemoveAbsent(cart[1..], filmId);
    }
  }

  lemma {:induction false} RemoveConcat(a: seq<CartItem>, b: seq<CartItem>, filmId: string)
    ensures RemoveFromCart(a + b, filmId) == RemoveFromCart(a, filmId) + RemoveFromCart(b, filmId)
  {
    if a != [] {
      assert (a + b)[1..] == a[1..] + b;
      RemoveConcat(a[1..], b, filmId);
    } else {
      assert a + b == b;
    }
  }

  /** Remove only looks at film ids, so it cannot see what Bump changed. */
  lemma {:induction false} RemoveIgnoresBump(cart: seq<CartItem>, filmId: string, available: int)
    ensures RemoveFromCart(seq(|cart|, k requires 0 <= k < |cart| => Bump(cart[k], filmId, available)), filmId)
         == RemoveFromCart(cart, filmId)
  {
    var bumped := seq(|cart|, k requires 0 <= k < |cart| => Bump(cart[k], filmId, available));
    if cart != [] {
      var tail := seq(|cart| - 1, k requires 0 <= k < |cart| - 1 => Bump(cart[1..][k], filmId, available));
      assert bumped[1..] == tail;
      RemoveIgnoresBump(cart[1..], filmId, available);
    }
  }

  /** Removing a film undoes every press of its Add button. */
  lemma RemoveUndoesAdd(cart: seq<CartItem>, film: Film, available: int)
    ensures RemoveFromCart(AddToCart(cart, film, available), film.id) == RemoveFromCart(cart, film.id)
  {
    if HasFilm(cart, film.id) {
      RemoveIgnoresBump(cart, film.id, available);
    } else {
      RemoveConcat(cart, [CartItem(film.id, film.title, 1)], film.id);
    }
  }

  /** Adding a new film and removing it again gives back the cart. */
  lemma RemoveAfterAddingNewFilm(cart: seq<CartItem>, film: Film, available: int)
    requires !HasFilm(cart, film.id)
    ensures RemoveFromCart(AddToCart(cart, film, available), film.id) == cart
  {
    RemoveUndoesAdd(cart, film, available);
    RemoveAbsent(cart, film.id);
  }

  /** Add keeps one line per film. */
  lemma AddKeepsFilmsUnique(cart: seq<CartItem>, film: Film, available: int)
    requires UniqueFilms(cart)
    ensures UniqueFilms(AddToCart(cart, film, available))
  {
  }

  /** Remove keeps one line per film. */
  lemma {:induction false} RemoveKeepsFilmsUnique(cart: seq<CartItem>, filmId: string)
    requires UniqueFilms(cart)
    ensures UniqueFilms(RemoveFromCart(cart, filmId))
  {
    if cart != [] {
      RemoveKeepsFilmsUnique(cart[1..], filmId);
      var rest := RemoveFromCart(cart[1..], filmId);
      if cart[0].filmId != filmId {
        forall x | x in rest ensures x.filmId != cart[0].filmId {
          var j :| 0 <= j < |cart[1..]| && cart[1..][j] == x;
          assert cart[j + 1] == x;
        }
        var r := [cart[0]] + rest;
        forall a, b | 0 <= a < b < |r| ensures r[a].filmId != r[b].filmId {
          if a == 0 {
            assert r[b] == rest[b - 1];
            assert r[b] in rest;
          } else {
            assert r[a] == rest[a - 1] && r[b] == rest[b - 1];
          }
        }
      }
    }
  }

  // ---------------------------------------------------------------------------
  // Derived values

  /** The total quantity of the cart, summed from the last line to the first. */
  function QtySum(cart: seq<CartItem>): int {
    if cart == [] then 0 else cart[0].qty + QtySum(cart[1..])
  }

  lemma {:induction false} QtySumConcat(a: seq<CartItem>, b: seq<CartItem>)
    ensures QtySum(a + b) == QtySum(a) + QtySum(b)
  {
    if a != [] {
      assert (a + b)[1..] == a[1..] + b;
      QtySumConcat(a[1..], b);
    } else {
      assert a + b == b;
    }
  }

  /** Replacing one line changes the sum by the difference in quantity. */
  lemma {:induction false} QtySumUpdate(cart: seq<CartItem>, k: nat, item: CartItem)
    requires k < |cart|
    ensures QtySum(cart[k := item]) == QtySum(cart) - cart[k].qty + item.qty
  {
    if k == 0 {
      assert cart[k := item][1..] == cart[1..];
    } else {
      assert cart[k := item][1..] == cart[1..][k - 1 := item];
      QtySumUpdate(cart[1..], k - 1, item);
    }
  }

  /** `reduce((total, item) => total + item.qty, total)` over `items`. */
  function Reduce(total: int, items: seq<CartItem>): (n: int)
    ensures n == total + QtySum(items)
    decreases |items|
  {
    if items == [] then total else Reduce(total + items[0].qty, items[1..])
  }

  /** `cartCount`: the number of copies in the cart. */
  function CartCount(cart: seq<CartItem>): (n: int)
    ensures n == QtySum(cart)
    ensures (forall k :: 0 <= k < |cart| ==> cart[k].qty >= 0) ==> n >= 0
  {
    NonNegativeSum(cart);
    Reduce(0, cart)
  }

  lemma {:induction false} NonNegativeSum(cart: seq<CartItem>)
    ensures (forall k :: 0 <= k < |cart| ==> cart[k].qty >= 0) ==> QtySum(cart) >= 0
  {
    if cart != [] {
      NonNegativeSum(cart[1..]);
      assert forall k :: 1 <= k < |cart| ==> cart[k] == cart[1..][k - 1];
    }
  }

  /** `Object.fromEntries(cart.map(item => [item.filmId, item.qty]))`: every
      film of the cart is a key; which line's quantity a film gets is stated
      by `CartQtyOfLastLine`. */
  function CartQtyMap(cart: seq<CartItem>): (m: map<string, int>)
    ensures forall id :: id in m <==> HasFilm(cart, id)
  {
    if cart == [] then map[]
    else
      var m := CartQtyMap(cart[1..]);
      assert forall k :: 1 <= k < |cart| ==> cart[k] == cart[1..][k - 1];
      assert forall id :: HasFilm(cart[1..], id) ==> HasFilm(cart, id);
      if cart[0].filmId in m then m else m[cart[0].filmId := cart[0].qty]
  }

  /** `cartQtyMap[film.id] ?? 0`. */
  function CartQtyOf(cart: seq<CartItem>, filmId: string): (q: int)
    ensures !HasFilm(cart, filmId) ==> q == 0
  {
    var m := CartQtyMap(cart);
    if filmId in m then m[filmId] else 0
  }

  /** In a cart with one line per film, the map gives each film its line's quantity. */
  lemma {:induction false} CartQtyOfUnique(cart: seq<CartItem>, k: nat)
    requires UniqueFilms(cart)
    requires k < |cart|
    ensures CartQtyOf(cart, cart[k].filmId) == cart[k].qty
  {
    var rest := cart[1..];
    assert forall j :: 1 <= j < |cart| ==> cart[j] == rest[j - 1];
    if k == 0 {
      assert !HasFilm(rest, cart[0].filmId);
    } else {
      CartQtyOfUnique(rest, k - 1);
    }
  }

  /** Whichever line a film has, the last one decides the quantity shown. */
  lemma {:induction false} CartQtyOfLastLine(cart: seq<CartItem>, k: nat)
    requires k < |cart|
    requires forall j :: k < j < |cart| ==> cart[j].filmId != cart[k].filmId
    ensures CartQtyOf(cart, cart[k].filmId) == cart[k].qty
  {
    var rest := cart[1..];
    assert forall j :: 1 <= j < |cart| ==> cart[j] == rest[j - 1];
    if k == 0 {
      assert !HasFilm(rest, cart[0].filmId);
    } else {
      CartQtyOfLastLine(rest, k - 1);
    }
  }

  /** The film row's Add button is disabled: no stock, or the cart already
      holds as many copies as are available. */
  function AddDisabled(available: int, cartQty: int): (disabled: bool)
    ensures !disabled <==> 0 < available && cartQty < available
  {
    var isOutOfStock := available <= 0;
    var hasReachedLimit := available > 0 && cartQty >= available;
    isOutOfStock || hasReachedLimit
  }

  /** A press of an enabled Add button on a cart with one line per film adds
      exactly one copy of that film, stays within its stock, and adds one to
      the item count. */
  lemma EnabledAddAddsOneCopy(cart: seq<CartItem>, film: Film, available: int)
    requires UniqueFilms(cart)
    requires !AddDisabled(available, CartQtyOf(cart, film.id))
    ensures var r := AddToCart(cart, film, available);
      && UniqueFilms(r)
      && CartQtyOf(r, film.id) == CartQtyOf(cart, film.id) + 1 <= available
      && CartCount(r) == CartCount(cart) + 1
  {
    var r := AddToCart(cart, film, available);
    AddKeepsFilmsUnique(cart, film, available);
    if HasFilm(cart, film.id) {
      var k :| 0 <= k < |cart| && cart[k].filmId == film.id;
      CartQtyOfUnique(cart, k);
      var item := cart[k].(qty := cart[k].qty + 1);
      assert r == cart[k := item];
      QtySumUpdate(cart, k, item);
      CartQtyOfUnique(r, k);
    } else {
      QtySumConcat(cart, [CartItem(film.id, film.title, 1)]);
      CartQtyOfUnique(r, |cart|);
    }
  }

  /** Add never leaves a line for the film above the available stock: an
      existing line is capped at it, even one that was above a stock figure
      fetched lower since. */
  lemma AddNeverExceedsStock(cart: seq<CartItem>, film: Film, available: int)
    requires available >= 1
    ensures var r := AddToCart(cart, film, available);
      forall k :: 0 <= k < |r| && r[k].filmId == film.id ==> r[k].qty <= available
  {
  }

  /** Removing a film from a cart with one line per film subtracts its
      quantity from the item count and clears it from the quantity map. */
  lemma {:induction false} RemoveSubtractsQty(cart: seq<CartItem>, filmId: string)
    requires UniqueFilms(cart)
    ensures CartCount(RemoveFromCart(cart, filmId)) == CartCount(cart) - CartQtyOf(cart, filmId)
    ensures CartQtyOf(RemoveFromCart(cart, filmId), filmId) == 0
  {
    if cart == [] {
    } else {
      var rest := cart[1..];
      assert forall j :: 1 <= j < |cart| ==> cart[j] == rest[j - 1];
      if cart[0].filmId == filmId {
        assert !HasFilm(rest, filmId);
        RemoveAbsent(rest, filmId);
        CartQtyOfUnique(cart, 0);
      } else {
        RemoveSubtractsQty(rest, filmId);
        var m := CartQtyMap(rest);
        assert CartQtyOf(cart, filmId) == CartQtyOf(rest, filmId);
      }
    }
  }

  // ---------------------------------------------------------------------------
  // Submitting

  /** JavaScript truthiness of a `string | null`: null and "" are false. */
  predicate Truthy(s: Option<string>) {
    s.Some? && s.value != ""
  }

  /** `canSubmit`: a customer is selected, the cart has a line, the shift has
      a store and a staff member, and no checkout is in flight. */
  function CanSubmit(
    selectedCustomer: Option<Customer>, cart: seq<CartItem>,
    storeId: Option<string>, staffId: Option<string>, isPending: bool): (ok: bool)
    ensures ok <==>
      && selectedCustomer.Some? && cart != []
      && storeId.Some? && storeId.value != []
      && staffId.Some? && staffId.value != []
      && !isPending
  {
    selectedCustomer.Some? && |cart| > 0 && Truthy(storeId) && Truthy(staffId) && !isPending
  }

  /** Why the checkout mutation refuses to start. */
  datatype GuardError = NoCustomerSelected | ShiftNotActive

  /** The cart as the API receives it: film id and quantity of every line. */
  function ToRequests(cart: seq<CartItem>): (r: seq<Inventory.CartRequest>)
    ensures |r| == |cart|
    ensures forall k :: 0 <= k < |cart| ==>
      r[k].filmId == cart[k].filmId && r[k].qty == cart[k].qty
  {
    seq(|cart|, k requires 0 <= k < |cart| => Inventory.CartRequest(cart[k].filmId, cart[k].qty))
  }

  /** The checkout mutation's guard and the input it hands to `checkoutRental`. */
  function CheckoutRequest(
    selectedCustomer: Option<Customer>, cart: seq<CartItem>,
    storeId: Option<string>, staffId: Option<string>): (r: Result<Inventory.CheckoutInput, GuardError>)
    ensures r.Failure? <==> selectedCustomer.None? || !Truthy(storeId) || !Truthy(staffId)
    ensures r.Failure? ==> (r.error == NoCustomerSelected <==> selectedCustomer.None?)
    ensures r.Success? ==>
      && r.value.customerId == selectedCustomer.value.id
      && r.value.storeId == storeId.value
      && r.value.staffId == staffId.value
      && r.value.cart == ToRequests(cart)
  {
    if selectedCustomer.None? then Failure(NoCustomerSelected)
    else if !Truthy(storeId) || !Truthy(staffId) then Failure(ShiftNotActive)
    else Success(Inventory.CheckoutInput(selectedCustomer.value.id, staffId.value, storeId.value, ToRequests(cart)))
  }

  /** Whenever Submit is enabled, the mutation's guard lets the checkout
      through with a non-empty cart. */
  lemma SubmitPassesGuard(
    selectedCustomer: Option<Customer>, cart: seq<CartItem>,
    storeId: Option<string>, staffId: Option<string>)
    requires CanSubmit(selectedCustomer, cart, storeId, staffId, false)
    ensures var r := CheckoutRequest(selectedCustomer, cart, storeId, staffId);
      r.Success? && r.value.cart != []
  {
  }

  /** The units a successful checkout allocates number exactly the cart's
      item count, when no line holds a negative quantity. */
  lemma {:induction false} AllocationMatchesCartCount(
    storeId: int, cart: seq<CartItem>, openRentalInventoryIds: seq<int>,
    byFilm: map<int, seq<Inventory.InventoryUnit>>)
    requires forall k :: 0 <= k < |cart| ==> cart[k].qty >= 0
    requires Inventory.Resolution(storeId, ToRequests(cart), openRentalInventoryIds, byFilm).Success?
    ensures |Inventory.Resolution(storeId, ToRequests(cart), openRentalInventoryIds, byFilm).value|
         == CartCount(cart)
  {
    var lines := Inventory.ParseCart(ToRequests(cart)).value;
    var openIds := Inventory.Elems(openRentalInventoryIds);
    Inventory.AllocationLength(storeId, openIds, byFilm, lines, {}, []);
    RequestedIsQtySum(lines, cart);
  }

  lemma {:induction false} RequestedIsQtySum(lines: seq<Inventory.Line>, cart: seq<CartItem>)
    requires |lines| == |cart|
    requires forall k :: 0 <= k < |cart| ==> lines[k].qty == cart[k].qty >= 0
    ensures Inventory.Requested(lines) == QtySum(cart)
  {
    if cart != [] {
      assert forall k :: 1 <= k < |cart| ==> lines[1..][k - 1] == lines[k] && cart[1..][k - 1] == cart[k];
      RequestedIsQtySum(lines[1..], cart[1..]);
    }
  }
}
