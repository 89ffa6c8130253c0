/**
 * Checkout in the Sakila API layer (src/lib/api/sakila.ts): the inventory
 * allocation of `resolveInventoryIds` and the checks `checkoutRental` makes
 * before and after the commit request.
 *
 * The two fetches that precede the allocation (the open rentals of the store
 * and the inventory list of every film in the cart) are parameters here: the
 * inventory ids of the open rentals, and a map from film id to that film's
 * inventory units in the order the listing returned them.
 */
module Inventory {
  import opened Results
  import opened JsText
  import opened Sakila
  import Sequences

  /** One physical copy of a film, kept at one store. */
  datatype InventoryUnit = InventoryUnit(inventoryId: int, filmId: int, storeId: int)

  /** A cart line as the checkout page sends it: the film id is still text. */
  datatype CartRequest = CartRequest(filmId: string, qty: int)

  /** A cart line whose film id has passed `parseId`. */
  datatype Line = Line(filmId: int, qty: int)

  /** `Math.max(qty, 0)`. */
  function Clamp(qty: int): (q: nat)
    ensures q == 0 <==> qty <= 0
    ensures qty >= 0 ==> q == qty
  {
    if qty < 0 then 0 else qty
  }

  /** `inventoryByFilm.get(filmId) ?? []`. */
  function UnitsOf(byFilm: map<int, seq<InventoryUnit>>, filmId: int): (r: seq<InventoryUnit>)
    ensures filmId !in byFilm ==> r == []
    ensures filmId in byFilm ==> r == byFilm[filmId]
    ensures forall u :: u in r ==> filmId in byFilm && u in byFilm[filmId]
  {
    if filmId in byFilm then byFilm[filmId] else []
  }

  /** A unit a line may take: at the store, not out on an open rental, and not
      already taken by this allocation. */
  predicate Eligible(u: InventoryUnit, storeId: int, openIds: set<int>, reserved: set<int>) {
    u.storeId == storeId && u.inventoryId !in openIds && u.inventoryId !in reserved
  }

  /** The three `filter` calls: the eligible units, in inventory-list order. */
  function Available(units: seq<InventoryUnit>, storeId: int, openIds: set<int>, reserved: set<int>)
    : (r: seq<InventoryUnit>)
    ensures |r| <= |units|
    ensures forall u :: u in r <==> u in units && Eligible(u, storeId, openIds, reserved)
  {
    if units == [] then []
    else
      var rest := Available(units[1..], storeId, openIds, reserved);
      if Eligible(units[0], storeId, openIds, reserved) then [units[0]] + rest else rest
  }

  function Ids(units: seq<InventoryUnit>): seq<int> {
    seq(|units|, k requires 0 <= k < |units| => units[k].inventoryId)
  }

  function Elems(ids: seq<int>): set<int> {
    set x | x in ids
  }

  predicate NoDuplicates(ids: seq<int>) {
    forall a, b :: 0 <= a < b < |ids| ==> ids[a] != ids[b]
  }

  /** The number of units a cart asks for: the sum of the clamped quantities. */
  function Requested(lines: seq<Line>): (n: nat)
  {
    if lines == [] then 0 else Clamp(lines[0].qty) + Requested(lines[1..])
  }

  /**
   * The allocation of `lines`, given the ids already `reserved` by earlier
   * lines and the ids `acc` already allocated to them. Each line with a
   * positive quantity takes the first `qty` eligible units of its film, in
   * inventory-list order, or fails naming the film when there are too few.
   */
  function Allocation(
    storeId: int, openIds: set<int>, byFilm: map<int, seq<InventoryUnit>>,
    lines: seq<Line>, reserved: set<int>, acc: seq<int>): (r: Result<seq<int>, Failure>)
    ensures r.Failure? ==> r.error.InsufficientStock?
  {
    if lines == [] then Success(acc)
    else
      var qty := Clamp(lines[0].qty);
      if qty == 0 then
        Allocation(storeId, openIds, byFilm, lines[1..], reserved, acc)
      else
        var available := Available(UnitsOf(byFilm, lines[0].filmId), storeId, openIds, reserved);
        if |available| < qty then Failure(InsufficientStock(lines[0].filmId))
        else
          var taken := Ids(available[..qty]);
          Allocation(storeId, openIds, byFilm, lines[1..], reserved + Elems(taken), acc + taken)
  }

  /** A successful allocation keeps what was allocated before and adds exactly
      the clamped quantity of every line. */
  lemma {:induction false} AllocationLength(
    storeId: int, openIds: set<int>, byFilm: map<int, seq<InventoryUnit>>,
    lines: seq<Line>, reserved: set<int>, acc: seq<int>)
    ensures var r := Allocation(storeId, openIds, byFilm, lines, reserved, acc);
      r.Success? ==> |r.value| == |acc| + Requested(lines) && r.value[..|acc|] == acc
  {
    if lines != [] {
      var qty := Clamp(lines[0].qty);
      var available := Available(UnitsOf(byFilm, lines[0].filmId), storeId, openIds, reserved);
      if qty == 0 {
        AllocationLength(storeId, openIds, byFilm, lines[1..], reserved, acc);
      } else if |available| >= qty {
        var taken := Ids(available[..qty]);
        AllocationLength(storeId, openIds, byFilm, lines[1..], reserved + Elems(taken), acc + taken);
        var r := Allocation(storeId, openIds, byFilm, lines, reserved, acc);
        if r.Success? {
          assert r.value[..|acc|] == r.value[..|acc + taken|][..|acc|];
        }
      }
    }
  }

  /** A failed allocation names, as short of stock, a film of a cart line that
      asked for a positive quantity; nothing else is returned. */
  lemma {:induction false} FailureNamesCartFilm(
    storeId: int, openIds: set<int>, byFilm: map<int, seq<InventoryUnit>>,
    lines: seq<Line>, reserved: set<int>, acc: seq<int>)
    ensures var r := Allocation(storeId, openIds, byFilm, lines, reserved, acc);
      r.Failure? ==>
        r.error.InsufficientStock? &&
        exists j :: 0 <= j < |lines| && lines[j].filmId == r.error.filmId && lines[j].qty > 0
  {
    if lines != [] {
      var qty := Clamp(lines[0].qty);
      var available := Available(UnitsOf(byFilm, lines[0].filmId), storeId, openIds, reserved);
      assert forall j :: 0 <= j < |lines[1..]| ==> lines[1..][j] == lines[j + 1];
      if qty == 0 {
        FailureNamesCartFilm(storeId, openIds, byFilm, lines[1..], reserved, acc);
      } else if |available| >= qty {
        var taken := Ids(available[..qty]);
        FailureNamesCartFilm(storeId, openIds, byFilm, lines[1..], reserved + Elems(taken), acc + taken);
      }
    }
  }

  /** One step of the allocation: the line at index `i` is served, or skipped, or fails. */
  lemma AllocationStep(
    storeId: int, openIds: set<int>, byFilm: map<int, seq<InventoryUnit>>,
    lines: seq<Line>, i: nat, reserved: set<int>, acc: seq<int>)
    requires i < |lines|
    ensures var qty := Clamp(lines[i].qty);
      var available := Available(UnitsOf(byFilm, lines[i].filmId), storeId, openIds, reserved);
      Allocation(storeId, openIds, byFilm, lines[i..], reserved, acc) ==
        if qty == 0 then Allocation(storeId, openIds, byFilm, lines[i + 1..], reserved, acc)
        else if |available| < qty then Failure(InsufficientStock(lines[i].filmId))
        else Allocation(storeId, openIds, byFilm, lines[i + 1..],
          reserved + Elems(Ids(available[..qty])), acc + Ids(available[..qty]))
  {
    assert lines[i..][1..] == lines[i + 1..];
  }

  /** Taking one more unit adds its id at the end and to the reserved set. */
  lemma IdsSnoc(units: seq<InventoryUnit>, n: nat)
    requires n < |units|
    ensures Ids(units[..n + 1]) == Ids(units[..n]) + [units[n].inventoryId]
    ensures Elems(Ids(units[..n + 1])) == Elems(Ids(units[..n])) + {units[n].inventoryId}
  {
    assert Ids(units[..n + 1]) == Ids(units[..n]) + [units[n].inventoryId];
  }

  /** The allocation of a whole cart: nothing reserved, nothing allocated yet. */
  function Allocate(storeId: int, lines: seq<Line>, openIds: set<int>, byFilm: map<int, seq<InventoryUnit>>)
    : (r: Result<seq<int>, Failure>)
    ensures r.Success? ==> |r.value| == Requested(lines)
    ensures r.Failure? ==>
      && r.error.InsufficientStock?
      && exists j :: 0 <= j < |lines| && lines[j].filmId == r.error.filmId && lines[j].qty > 0
  {
    AllocationLength(storeId, openIds, byFilm, lines, {}, []);
    FailureNamesCartFilm(storeId, openIds, byFilm, lines, {}, []);
    Allocation(storeId, openIds, byFilm, lines, {}, [])
  }

  /** Every film id of the cart through `parseId`, failing at the first bad one. */
  function ParseCart(cart: seq<CartRequest>): (r: Result<seq<Line>, Failure>)
    ensures r.Success? <==> forall k :: 0 <= k < |cart| ==> ParseId(cart[k].filmId, "Film ID").Success?
    ensures r.Success? ==>
      |r.value| == |cart| &&
      forall k :: 0 <= k < |cart| ==>
        r.value[k] == Line(ParseId(cart[k].filmId, "Film ID").value, cart[k].qty)
    ensures r.Failure? ==> r.error == InvalidId("Film ID")
  {
    if cart == [] then Success([])
    else
      var filmId :- ParseId(cart[0].filmId, "Film ID");
      var rest :- ParseCart(cart[1..]);
      assert forall k :: 1 <= k < |cart| ==> cart[k] == cart[1..][k - 1];
      Success([Line(filmId, cart[0].qty)] + rest)
  }

  /** What `resolveInventoryIds` returns for a snapshot of the store. */
  function Resolution(
    storeId: int, cart: seq<CartRequest>, openRentalInventoryIds: seq<int>,
    byFilm: map<int, seq<InventoryUnit>>): (r: Result<seq<int>, Failure>)
    ensures ParseCart(cart).Failure? ==> r == Failure(InvalidId("Film ID"))
    ensures ParseCart(cart).Success? ==> r == Allocate(storeId, ParseCart(cart).value, Elems(openRentalInventoryIds), byFilm)
    ensures r.Success? ==> |r.value| == Requested(ParseCart(cart).value)
  {
    var lines :- ParseCart(cart);
    Allocate(storeId, lines, Elems(openRentalInventoryIds), byFilm)
  }

  /** The inner loop of `resolveInventoryIds`: the first `qty` units of
      `available` are reserved and appended to the result, in order. */
  method TakeUnits(available: seq<InventoryUnit>, qty: nat, reserved: set<int>, result: seq<int>)
    returns (reserved': set<int>, result': seq<int>)
    requires qty <= |available|
    ensures reserved' == reserved + Elems(Ids(available[..qty]))
    ensures result' == result + Ids(available[..qty])
  {
    reserved', result' := reserved, result;
    var index := 0;
    while index < qty
      invariant 0 <= index <= qty
      invariant reserved' == reserved + Elems(Ids(available[..index]))
      invariant result' == result + Ids(available[..index])
    {
      var unit := available[index];
      IdsSnoc(available, index);
      reserved' := reserved' + {unit.inventoryId};
      result' := result' + [unit.inventoryId];
      index := index + 1;
    }
  }

  /** The loop of `resolveInventoryIds` over the validated cart lines, keeping
      the set of reserved ids and the result list. */
  method AllocateLines(storeId: int, lines: seq<Line>, openIds: set<int>, byFilm: map<int, seq<InventoryUnit>>)
    returns (r: Result<seq<int>, Failure>)
    ensures r == Allocate(storeId, lines, openIds, byFilm)
  {
    var reserved: set<int> := {};
    var result: seq<int> := [];
    var i := 0;
    while i < |lines|
      invariant 0 <= i <= |lines|
      invariant Allocate(storeId, lines, openIds, byFilm)
             == Allocation(storeId, openIds, byFilm, lines[i..], reserved, result)
    {
      ghost var reserved0, result0 := reserved, result;
      var line := lines[i];
      var qty := Clamp(line.qty);
      if qty > 0 {
        var available := Available(UnitsOf(byFilm, line.filmId), storeId, openIds, reserved);
        if |available| < qty {
          AllocationStep(storeId, openIds, byFilm, lines, i, reserved, result);
          return Failure(InsufficientStock(line.filmId));
        }
        reserved, result := TakeUnits(available, qty, reserved, result);
      }
      AllocationStep(storeId, openIds, byFilm, lines, i, reserved0, result0);
      i := i + 1;
    }
    assert lines[i..] == [];
    return Success(result);
  }

  /**
   * `resolveInventoryIds` after its two fetches: validate every film id, then
   * allocate units line by line.
   */
  method ResolveInventoryIds(
    storeId: int, cart: seq<CartRequest>, openRentalInventoryIds: seq<int>,
    inventoryByFilm: map<int, seq<InventoryUnit>>)
    returns (r: Result<seq<int>, Failure>)
    ensures r == Resolution(storeId, cart, openRentalInventoryIds, inventoryByFilm)
  {
    var lines :- ParseCart(cart);
    r := AllocateLines(storeId, lines, Elems(openRentalInventoryIds), inventoryByFilm);
  }

  // ---------------------------------------------------------------------------
  // Properties of the allocation

  /** A filtered list keeps distinct ids distinct. */
  lemma {:induction false} AvailableKeepsIdsDistinct(
    units: seq<InventoryUnit>, storeId: int, openIds: set<int>, reserved: set<int>)
    requires NoDuplicates(Ids(units))
    ensures NoDuplicates(Ids(Available(units, storeId, openIds, reserved)))
  {
    if units != [] {
      var rest := Available(units[1..], storeId, openIds, reserved);
      assert NoDuplicates(Ids(units[1..])) by {
        assert forall k :: 0 <= k < |units| - 1 ==> Ids(units[1..])[k] == Ids(units)[k + 1];
      }
      AvailableKeepsIdsDistinct(units[1..], storeId, openIds, reserved);
      if Eligible(units[0], storeId, openIds, reserved) {
        var r := [units[0]] + rest;
        forall a, b | 0 <= a < b < |r| ensures Ids(r)[a] != Ids(r)[b] {
          if a == 0 {
            assert r[b] in units[1..];
            var m :| 0 <= m < |units[1..]| && units[1..][m] == r[b];
            assert Ids(units)[m + 1] == r[b].inventoryId == Ids(r)[b];
            assert Ids(units)[0] == units[0].inventoryId == Ids(r)[0];
          } else {
            assert Ids(r)[a] == Ids(rest)[a - 1] && Ids(r)[b] == Ids(rest)[b - 1];
          }
        }
      }
    }
  }

  /** Fewer units are free once more ids are reserved. */
  lemma {:induction false} AvailableShrinks(
    units: seq<InventoryUnit>, storeId: int, openIds: set<int>, fewer: set<int>, more: set<int>)
    requires fewer <= more
    ensures |Available(units, storeId, openIds, more)| <= |Available(units, storeId, openIds, fewer)|
  {
    if units != [] {
      AvailableShrinks(units[1..], storeId, openIds, fewer, more);
    }
  }

  /** The filter works unit by unit: listing order is kept, and nothing is
      merged or reordered. */
  lemma {:induction false} AvailableConcat(
    a: seq<InventoryUnit>, b: seq<InventoryUnit>, storeId: int, openIds: set<int>, reserved: set<int>)
    ensures Available(a + b, storeId, openIds, reserved)
         == Available(a, storeId, openIds, reserved) + Available(b, storeId, openIds, reserved)
  {
    if a != [] {
      assert (a + b)[1..] == a[1..] + b;
      AvailableConcat(a[1..], b, storeId, openIds, reserved);
    } else {
      assert a + b == b;
    }
  }

  /** An eligible unit stays, an ineligible one goes. */
  lemma AvailableOfOne(u: InventoryUnit, storeId: int, openIds: set<int>, reserved: set<int>)
    ensures Available([u], storeId, openIds, reserved)
         == if Eligible(u, storeId, openIds, reserved) then [u] else []
  {
    assert [u][1..] == [];
  }

  /** Each film's inventory listing names a unit at most once. */
  predicate ListingsDistinct(byFilm: map<int, seq<InventoryUnit>>) {
    forall f :: f in byFilm ==> NoDuplicates(Ids(byFilm[f]))
  }

  /** No unit is handed out twice, neither within one line nor across lines,
      provided the listings themselves name each unit once. */
  lemma {:induction false} AllocationNeverDoubleBooks(
    storeId: int, openIds: set<int>, byFilm: map<int, seq<InventoryUnit>>,
    lines: seq<Line>, reserved: set<int>, acc: seq<int>)
    requires ListingsDistinct(byFilm)
    requires NoDuplicates(acc) && Elems(acc) <= reserved
    ensures var r := Allocation(storeId, openIds, byFilm, lines, reserved, acc);
      r.Success? ==> NoDuplicates(r.value)
  {
    if lines != [] {
      var qty := Clamp(lines[0].qty);
      if qty == 0 {
        AllocationNeverDoubleBooks(storeId, openIds, byFilm, lines[1..], reserved, acc);
      } else {
        var units := UnitsOf(byFilm, lines[0].filmId);
        var available := Available(units, storeId, openIds, reserved);
        if |available| >= qty {
          var taken := Ids(available[..qty]);
          AvailableKeepsIdsDistinct(units, storeId, openIds, reserved);
          assert forall k :: 0 <= k < qty ==> taken[k] == Ids(available)[k];
          assert forall k :: 0 <= k < qty ==> taken[k] !in reserved by {
            forall k | 0 <= k < qty ensures taken[k] !in reserved {
              assert available[k] in available;
            }
          }
          var acc' := acc + taken;
          forall a, b | 0 <= a < b < |acc'| ensures acc'[a] != acc'[b] {
            if b >= |acc| && a < |acc| {
              assert acc'[a] in Elems(acc);
            }
          }
          AllocationNeverDoubleBooks(storeId, openIds, byFilm, lines[1..], reserved + Elems(taken), acc');
        }
      }
    }
  }

  /** Some unit of film `filmId` at store `storeId` has inventory id `x`. */
  ghost predicate StockedAt(x: int, byFilm: map<int, seq<InventoryUnit>>, filmId: int, storeId: int) {
    exists u :: u in UnitsOf(byFilm, filmId) && u.storeId == storeId && u.inventoryId == x
  }

  /** Every allocated id names a unit of one of the cart's films, kept at the
      requested store and not out on an open rental. */
  lemma {:induction false} AllocationDrawsFromStore(
    storeId: int, openIds: set<int>, byFilm: map<int, seq<InventoryUnit>>,
    lines: seq<Line>, reserved: set<int>, acc: seq<int>)
    ensures var r := Allocation(storeId, openIds, byFilm, lines, reserved, acc);
      r.Success? ==> forall x :: x in r.value ==>
        x in acc ||
        (x !in openIds && exists j :: 0 <= j < |lines| && StockedAt(x, byFilm, lines[j].filmId, storeId))
  {
    if lines != [] {
      var qty := Clamp(lines[0].qty);
      var r := Allocation(storeId, openIds, byFilm, lines, reserved, acc);
      if qty == 0 {
        AllocationDrawsFromStore(storeId, openIds, byFilm, lines[1..], reserved, acc);
        assert forall j :: 0 <= j < |lines[1..]| ==> lines[1..][j] == lines[j + 1];
      } else {
        var units := UnitsOf(byFilm, lines[0].filmId);
        var available := Available(units, storeId, openIds, reserved);
        if |available| >= qty {
          var taken := Ids(available[..qty]);
          AllocationDrawsFromStore(storeId, openIds, byFilm, lines[1..], reserved + Elems(taken), acc + taken);
          assert forall j :: 0 <= j < |lines[1..]| ==> lines[1..][j] == lines[j + 1];
          forall x | x in taken
            ensures x !in openIds && StockedAt(x, byFilm, lines[0].filmId, storeId)
          {
            var k :| 0 <= k < qty && taken[k] == x;
            assert available[k] in available;
          }
        }
      }
    }
  }

  /** The lines with a positive quantity, in cart order. */
  function PositiveLines(lines: seq<Line>): (r: seq<Line>)
    ensures |r| <= |lines|
    ensures forall l :: l in r <==> l in lines && l.qty > 0
    ensures (forall k :: 0 <= k < |lines| ==> lines[k].qty <= 0) ==> r == []
  {
    if lines == [] then []
    else if lines[0].qty > 0 then [lines[0]] + PositiveLines(lines[1..])
    else PositiveLines(lines[1..])
  }

  /** Keeping the positive lines works line by line, so cart order is kept. */
  lemma {:induction false} PositiveLinesConcat(a: seq<Line>, b: seq<Line>)
    ensures PositiveLines(a + b) == PositiveLines(a) + PositiveLines(b)
  {
    if a == [] {
      assert PositiveLines(a) == [];
      assert a + b == b;
    } else {
      var x, rest := a[0], a[1..];
      Sequences.DropFirstOfAppend(a, b);
      PositiveLinesConcat(rest, b);
      if x.qty > 0 {
        assert PositiveLines(a + b) == [x] + PositiveLines(rest + b);
        Sequences.AppendAssoc([x], PositiveLines(rest), PositiveLines(b));
      } else {
        assert PositiveLines(a + b) == PositiveLines(rest + b);
      }
    }
  }

  /** A line whose quantity is zero or negative adds nothing, reserves nothing
      and cannot make the allocation fail: dropping all such lines changes
      nothing. */
  lemma {:induction false} ZeroLinesAreSkipped(
    storeId: int, openIds: set<int>, byFilm: map<int, seq<InventoryUnit>>,
    lines: seq<Line>, reserved: set<int>, acc: seq<int>)
    ensures Allocation(storeId, openIds, byFilm, lines, reserved, acc)
         == Allocation(storeId, openIds, byFilm, PositiveLines(lines), reserved, acc)
  {
    if lines != [] {
      if lines[0].qty > 0 {
        var qty := Clamp(lines[0].qty);
        var available := Available(UnitsOf(byFilm, lines[0].filmId), storeId, openIds, reserved);
        assert ([lines[0]] + PositiveLines(lines[1..]))[1..] == PositiveLines(lines[1..]);
        if |available| >= qty {
          var taken := Ids(available[..qty]);
          ZeroLinesAreSkipped(storeId, openIds, byFilm, lines[1..], reserved + Elems(taken), acc + taken);
        }
      } else {
        ZeroLinesAreSkipped(storeId, openIds, byFilm, lines[1..], reserved, acc);
      }
    }
  }

  /** A cart whose every quantity is zero or negative allocates nothing and never fails. */
  lemma AllZeroCartAllocatesNothing(
    storeId: int, lines: seq<Line>, openIds: set<int>, byFilm: map<int, seq<InventoryUnit>>)
    requires forall k :: 0 <= k < |lines| ==> lines[k].qty <= 0
    ensures Allocate(storeId, lines, openIds, byFilm) == Success([])
  {
    ZeroLinesAreSkipped(storeId, openIds, byFilm, lines, {}, []);
  }

  /** If one line asks for more units than its film has free at the store,
      ignoring what other lines take, the whole allocation fails, naming the
      film of that line or of an earlier line that ran short first. */
  lemma {:induction false} ShortLineFails(
    storeId: int, openIds: set<int>, byFilm: map<int, seq<InventoryUnit>>,
    lines: seq<Line>, reserved: set<int>, acc: seq<int>, j: nat)
    requires j < |lines|
    requires |Available(UnitsOf(byFilm, lines[j].filmId), storeId, openIds, {})| < lines[j].qty
    ensures Allocation(storeId, openIds, byFilm, lines, reserved, acc).Failure?
    ensures exists i ::
      && 0 <= i <= j
      && lines[i].qty > 0
      && Allocation(storeId, openIds, byFilm, lines, reserved, acc).error.filmId == lines[i].filmId
  {
    var qty := Clamp(lines[0].qty);
    var available := Available(UnitsOf(byFilm, lines[0].filmId), storeId, openIds, reserved);
    if j == 0 {
      AvailableShrinks(UnitsOf(byFilm, lines[0].filmId), storeId, openIds, {}, reserved);
    } else if qty == 0 {
      assert lines[1..][j - 1] == lines[j];
      ShortLineFails(storeId, openIds, byFilm, lines[1..], reserved, acc, j - 1);
      var i :| 0 <= i <= j - 1 && lines[1..][i].qty > 0
        && Allocation(storeId, openIds, byFilm, lines[1..], reserved, acc).error.filmId == lines[1..][i].filmId;
      assert lines[1..][i] == lines[i + 1];
    } else if |available| >= qty {
      var taken := Ids(available[..qty]);
      assert lines[1..][j - 1] == lines[j];
      ShortLineFails(storeId, openIds, byFilm, lines[1..], reserved + Elems(taken), acc + taken, j - 1);
      var i :| 0 <= i <= j - 1 && lines[1..][i].qty > 0
        && Allocation(storeId, openIds, byFilm, lines[1..], reserved + Elems(taken), acc + taken).error.filmId
           == lines[1..][i].filmId;
      assert lines[1..][i] == lines[i + 1];
    }
  }

  lemma {:induction false} RequestedIsZero(lines: seq<Line>)
    ensures Requested(lines) == 0 <==> forall k :: 0 <= k < |lines| ==> lines[k].qty <= 0
  {
    if lines != [] {
      RequestedIsZero(lines[1..]);
      assert forall k :: 1 <= k < |lines| ==> lines[k] == lines[1..][k - 1];
    }
  }

  /** A successful allocation is empty exactly when every line asked for nothing. */
  lemma EmptyAllocationMeansNothingAsked(
    storeId: int, lines: seq<Line>, openIds: set<int>, byFilm: map<int, seq<InventoryUnit>>)
    requires Allocate(storeId, lines, openIds, byFilm).Success?
    ensures Allocate(storeId, lines, openIds, byFilm).value == []
        <==> forall k :: 0 <= k < |lines| ==> lines[k].qty <= 0
  {
    RequestedIsZero(lines);
    AllocationLength(storeId, openIds, byFilm, lines, {}, []);
  }

  /** The first line with a positive quantity is served first, from the front
      of its film's eligible units in inventory-list order. */
  lemma FirstLineTakesFrontUnits(
    storeId: int, openIds: set<int>, byFilm: map<int, seq<InventoryUnit>>,
    lines: seq<Line>, reserved: set<int>, acc: seq<int>)
    requires lines != [] && lines[0].qty > 0
    requires Allocation(storeId, openIds, byFilm, lines, reserved, acc).Success?
    ensures var r := Allocation(storeId, openIds, byFilm, lines, reserved, acc).value;
      var available := Available(UnitsOf(byFilm, lines[0].filmId), storeId, openIds, reserved);
      |available| >= lines[0].qty && |r| >= |acc| + lines[0].qty &&
      r[|acc|..|acc| + lines[0].qty] == Ids(available[..lines[0].qty])
  {
    var qty := lines[0].qty;
    var available := Available(UnitsOf(byFilm, lines[0].filmId), storeId, openIds, reserved);
    var taken := Ids(available[..qty]);
    var r := Allocation(storeId, openIds, byFilm, lines, reserved, acc).value;
    AllocationLength(storeId, openIds, byFilm, lines[1..], reserved + Elems(taken), acc + taken);
    AllocationLength(storeId, openIds, byFilm, lines, reserved, acc);
    assert r[..|acc| + qty] == acc + taken;
    assert r[|acc|..|acc| + qty] == r[..|acc| + qty][|acc|..];
  }

  // ---------------------------------------------------------------------------
  // Worked examples

  /** Two units at store 1 serve a line for two copies; the unit at store 2 is not used. */
  lemma ExampleTwoCopiesFromOneStore()
    ensures Allocate(1, [Line(7, 2)], {},
      map[7 := [InventoryUnit(101, 7, 1), InventoryUnit(102, 7, 1), InventoryUnit(103, 7, 2)]])
      == Success([101, 102])
  {
    var units := [InventoryUnit(101, 7, 1), InventoryUnit(102, 7, 1), InventoryUnit(103, 7, 2)];
    assert Available(units[2..], 1, {}, {}) == [];
    assert Available(units[1..], 1, {}, {}) == [units[1]];
    assert Available(units, 1, {}, {}) == units[..2];
    assert Ids(units[..2]) == [101, 102];
    var m := map[7 := units];
    assert UnitsOf(m, 7) == units;
    var taken := Ids(Available(UnitsOf(m, 7), 1, {}, {})[..2]);
    assert taken == [101, 102];
    assert [Line(7, 2)][1..] == [];
    assert Allocation(1, {}, m, [Line(7, 2)], {}, []) == Allocation(1, {}, m, [], {} + Elems(taken), [] + taken);
    assert [] + taken == taken;
  }

  /** With unit 101 out on a rental, only 102 is left at store 1: two copies fail. */
  lemma ExampleOpenRentalCausesShortage()
    ensures Allocate(1, [Line(7, 2)], {101},
      map[7 := [InventoryUnit(101, 7, 1), InventoryUnit(102, 7, 1), InventoryUnit(103, 7, 2)]])
      == Failure(InsufficientStock(7))
  {
    var units := [InventoryUnit(101, 7, 1), InventoryUnit(102, 7, 1), InventoryUnit(103, 7, 2)];
    assert Available(units[2..], 1, {101}, {}) == [];
    assert Available(units[1..], 1, {101}, {}) == [units[1]];
    assert Available(units, 1, {101}, {}) == [units[1]];
    assert UnitsOf(map[7 := units], 7) == units;
  }

  /** A zero-quantity line is skipped even when its film has no stock. */
  lemma ExampleZeroLineSkipped()
    ensures Allocate(1, [Line(7, 0), Line(8, 1)], {}, map[8 := [InventoryUnit(201, 8, 1)]])
      == Success([201])
  {
    var lines := [Line(7, 0), Line(8, 1)];
    var units := [InventoryUnit(201, 8, 1)];
    var m := map[8 := units];
    assert lines[1..] == [Line(8, 1)];
    assert Allocation(1, {}, m, lines, {}, []) == Allocation(1, {}, m, [Line(8, 1)], {}, []);
    assert UnitsOf(m, 8) == units;
    assert Available(units, 1, {}, {}) == units;
    var taken := Ids(units[..1]);
    assert taken == [201];
    assert [Line(8, 1)][1..] == [];
    assert Allocation(1, {}, m, [Line(8, 1)], {}, []) == Allocation(1, {}, m, [], {} + Elems(taken), [] + taken);
    assert [] + taken == taken;
  }

  /** Two lines for the same film take different units. */
  lemma ExampleRepeatedFilmTakesNextUnit()
    ensures Allocate(1, [Line(7, 1), Line(7, 1)], {},
      map[7 := [InventoryUnit(101, 7, 1), InventoryUnit(102, 7, 1)]])
      == Success([101, 102])
  {
    var lines := [Line(7, 1), Line(7, 1)];
    var units := [InventoryUnit(101, 7, 1), InventoryUnit(102, 7, 1)];
    var m := map[7 := units];
    assert UnitsOf(m, 7) == units;
    assert Available(units[1..], 1, {}, {}) == [units[1]];
    assert Available(units, 1, {}, {}) == units;
    var first := Ids(units[..1]);
    assert first == [101];
    assert lines[1..] == [Line(7, 1)];
    assert Allocation(1, {}, m, lines, {}, []) == Allocation(1, {}, m, [Line(7, 1)], {} + Elems(first), [] + first);
    assert {} + Elems(first) == {101} && [] + first == [101];
    assert Available(units[1..], 1, {}, {101}) == [units[1]];
    assert Available(units, 1, {}, {101}) == [units[1]];
    var second := Ids([units[1]][..1]);
    assert second == [102];
    assert [Line(7, 1)][1..] == [];
    assert Allocation(1, {}, m, [Line(7, 1)], {101}, [101])
        == Allocation(1, {}, m, [], {101} + Elems(second), [101] + second);
    assert [101] + second == [101, 102];
  }

  /** The allocation does not remove repeated entries from a listing itself:
      a listing that names unit 101 twice lets one line take it twice. */
  lemma ExampleRepeatedListingEntry()
    ensures Allocate(1, [Line(7, 2)], {},
      map[7 := [InventoryUnit(101, 7, 1), InventoryUnit(101, 7, 1)]])
      == Success([101, 101])
  {
    var units := [InventoryUnit(101, 7, 1), InventoryUnit(101, 7, 1)];
    var m := map[7 := units];
    assert UnitsOf(m, 7) == units;
    assert Available(units[1..], 1, {}, {}) == [units[1]];
    assert Available(units, 1, {}, {}) == units;
    var taken := Ids(units[..2]);
    assert taken == [101, 101];
    assert [Line(7, 2)][1..] == [];
    assert Allocation(1, {}, m, [Line(7, 2)], {}, []) == Allocation(1, {}, m, [], {} + Elems(taken), [] + taken);
    assert [] + taken == taken;
  }

  // ---------------------------------------------------------------------------
  // checkoutRental

  /** The checkout form's input: ids as text, and the cart. */
  datatype CheckoutInput = CheckoutInput(customerId: string, staffId: string, storeId: string, cart: seq<CartRequest>)

  /** The body posted to `rentals/checkout`. */
  datatype CommitRequest = CommitRequest(customerId: int, staffId: int, storeId: int, inventoryIds: seq<int>)

  /** The reply to the commit: `data.rental_ids` (None when `data` or the list
      is missing) and the optional `message`. */
  datatype CommitReply = CommitReply(rentalIds: Option<seq<int>>, message: Option<string>)

  /** What `checkoutRental` resolves to. */
  datatype Receipt = Receipt(rentalIds: seq<string>, invoiceId: string, message: string)

  const DefaultMessage: string := "Checkout berhasil."

  /** The pre-commit check: an empty allocation is refused. */
  function RequireAllocation(inventoryIds: seq<int>): (r: Result<seq<int>, Failure>)
    ensures r.Success? <==> inventoryIds != []
    ensures r.Success? ==> r.value == inventoryIds
    ensures r.Failure? ==> r.error == EmptyCart
  {
    if |inventoryIds| == 0 then Failure(EmptyCart) else Success(inventoryIds)
  }

  function RentalIdStrings(ids: seq<int>): (r: seq<string>)
    ensures |r| == |ids| && forall k :: 0 <= k < |ids| ==> r[k] == IntToString(ids[k])
  {
    seq(|ids|, k requires 0 <= k < |ids| => IntToString(ids[k]))
  }

  /** The post-commit check: the reply must name at least one rental, and the
      first one is the invoice to show. */
  function ReceiptFromReply(reply: CommitReply): (r: Result<Receipt, Failure>)
    ensures r.Failure? <==> reply.rentalIds.None? || reply.rentalIds.value == []
    ensures r.Failure? ==> r.error == MissingRentalIds
    ensures r.Success? ==>
      && r.value.rentalIds != []
      && r.value.rentalIds == RentalIdStrings(reply.rentalIds.value)
      && r.value.invoiceId == r.value.rentalIds[0]
      && r.value.message == reply.message.GetOr(DefaultMessage)
  {
    var rentalIds := RentalIdStrings(reply.rentalIds.GetOr([]));
    if |rentalIds| == 0 then Failure(MissingRentalIds)
    else Success(Receipt(rentalIds, rentalIds[0], reply.message.GetOr(DefaultMessage)))
  }

  /** The invoice id of a receipt leads back to the first rental of the reply. */
  lemma InvoiceIdIsFirstRental(reply: CommitReply)
    requires ReceiptFromReply(reply).Success?
    requires reply.rentalIds.value[0] > 0
    ensures ParseId(ReceiptFromReply(reply).value.invoiceId, "Rental ID") == Success(reply.rentalIds.value[0])
  {
    var first := reply.rentalIds.value[0];
    ParseIdAcceptsPositive(first, [], "Rental ID");
    assert IntToString(first) + [] == IntToString(first);
  }

  /** The request `checkoutRental` commits, or the error that stops it before the commit. */
  function CommitFor(input: CheckoutInput, openRentalInventoryIds: seq<int>, byFilm: map<int, seq<InventoryUnit>>)
    : (r: Result<CommitRequest, Failure>)
    ensures r.Success? ==>
      && r.value.customerId > 0 && r.value.staffId > 0 && r.value.storeId > 0
      && r.value.inventoryIds != []
      && Resolution(r.value.storeId, input.cart, openRentalInventoryIds, byFilm) == Success(r.value.inventoryIds)
    ensures r.Success? <==>
      && ParseId(input.customerId, "Customer ID").Success?
      && ParseId(input.staffId, "Staff ID").Success?
      && ParseId(input.storeId, "Store ID").Success?
      && var res := Resolution(ParseId(input.storeId, "Store ID").value, input.cart, openRentalInventoryIds, byFilm);
         res.Success? && res.value != []
    ensures r.Success? ==> r.value == CommitRequest(
      ParseId(input.customerId, "Customer ID").value,
      ParseId(input.staffId, "Staff ID").value,
      ParseId(input.storeId, "Store ID").value,
      Resolution(ParseId(input.storeId, "Store ID").value, input.cart, openRentalInventoryIds, byFilm).value)
  {
    var customerId :- ParseId(input.customerId, "Customer ID");
    var staffId :- ParseId(input.staffId, "Staff ID");
    var storeId :- ParseId(input.storeId, "Store ID");
    var inventoryIds :- Resolution(storeId, input.cart, openRentalInventoryIds, byFilm);
    var ids :- RequireAllocation(inventoryIds);
    Success(CommitRequest(customerId, staffId, storeId, ids))
  }

  /** With valid ids, the cart is refused as empty exactly when no line asks
      for a positive quantity. */
  lemma EmptyCartMeansNothingAsked(
    input: CheckoutInput, openRentalInventoryIds: seq<int>, byFilm: map<int, seq<InventoryUnit>>)
    requires ParseId(input.customerId, "Customer ID").Success?
    requires ParseId(input.staffId, "Staff ID").Success?
    requires ParseId(input.storeId, "Store ID").Success?
    requires ParseCart(input.cart).Success?
    ensures CommitFor(input, openRentalInventoryIds, byFilm) == Failure(EmptyCart)
        <==> forall k :: 0 <= k < |input.cart| ==> input.cart[k].qty <= 0
  {
    var storeId := ParseId(input.storeId, "Store ID").value;
    var lines := ParseCart(input.cart).value;
    var openIds := Elems(openRentalInventoryIds);
    var allocation := Allocate(storeId, lines, openIds, byFilm);
    assert Resolution(storeId, input.cart, openRentalInventoryIds, byFilm) == allocation;
    var customerId := ParseId(input.customerId, "Customer ID").value;
    var staffId := ParseId(input.staffId, "Staff ID").value;
    assert CommitFor(input, openRentalInventoryIds, byFilm) ==
      if allocation.Failure? then Failure(allocation.error)
      else if allocation.value == [] then Failure(EmptyCart)
      else Success(CommitRequest(customerId, staffId, storeId, allocation.value));
    assert (forall k :: 0 <= k < |input.cart| ==> input.cart[k].qty <= 0)
       <==> (forall k :: 0 <= k < |lines| ==> lines[k].qty <= 0);
    if forall k :: 0 <= k < |lines| ==> lines[k].qty <= 0 {
      AllZeroCartAllocatesNothing(storeId, lines, openIds, byFilm);
    } else if allocation.Success? {
      EmptyAllocationMeansNothingAsked(storeId, lines, openIds, byFilm);
    } else {
      FailureNamesCartFilm(storeId, openIds, byFilm, lines, {}, []);
    }
  }

  /**
   * `checkoutRental`, with the commit's reply as a parameter. `sent` is the
   * request the commit would post, or None when a check fails first.
   */
  method CheckoutRental(
    input: CheckoutInput, openRentalInventoryIds: seq<int>,
    inventoryByFilm: map<int, seq<InventoryUnit>>, reply: CommitReply)
    returns (r: Result<Receipt, Failure>, sent: Option<CommitRequest>)
    ensures var commit := CommitFor(input, openRentalInventoryIds, inventoryByFilm);
      && sent == (if commit.Success? then Some(commit.value) else None)
      && r == (if commit.Success? then ReceiptFromReply(reply) else Failure(commit.error))
  {
    sent := None;
    var customerId :- ParseId(input.customerId, "Customer ID");
    var staffId :- ParseId(input.staffId, "Staff ID");
    var storeId :- ParseId(input.storeId, "Store ID");
    var inventoryIds :- ResolveInventoryIds(storeId, input.cart, openRentalInventoryIds, inventoryByFilm);
    if |inventoryIds| == 0 {
      return Failure(EmptyCart), None;
    }
    sent := Some(CommitRequest(customerId, staffId, storeId, inventoryIds));
    r := ReceiptFromReply(reply);
  }
}
