/**
 * The pure helpers of the Sakila API layer (src/lib/api/sakila.ts): the
 * errors it raises, identifier validation, display names and the client-side
 * search over open rentals.
 */
module Sakila {
  import opened Results
  import opened JsText
  import Sequences

  /** The `ApiError`s the API layer raises itself, before or after a request. */
  datatype Failure =
    | InvalidId(field: string)         // a field that is not a positive integer
    | InsufficientStock(filmId: int)   // too few free units at the store for one cart line
    | EmptyCart                        // the allocation produced no unit to rent
    | MissingRentalIds                 // the checkout reply named no rental

  /** The user-facing message of each error, as the API layer words it. */
  function Message(f: Failure): (m: string)
    ensures f.InvalidId? ==> f.field <= m
    ensures f.InsufficientStock? ==> Includes(m, IntToString(f.filmId))
  {
    match f
    case InvalidId(field) => field + " tidak valid"
    case InsufficientStock(filmId) =>
      var m := "Stok film " + IntToString(filmId) + " tidak mencukupi";
      assert OccursAt(m, IntToString(filmId), 10) by {
        assert m[10..10 + |IntToString(filmId)|] == IntToString(filmId);
      }
      m
    case EmptyCart => "Cart masih kosong"
    case MissingRentalIds => "Checkout berhasil tetapi rental id tidak ditemukan"
  }

  /** The HTTP status attached to each error. */
  function Status(f: Failure): (code: int)
    ensures code == 500 <==> f.MissingRentalIds?
    ensures code == 400 <==> !f.MissingRentalIds?
  {
    if f.MissingRentalIds? then 500 else 400
  }

  /** `parseId`: the text must start (after white space and a sign) with a
      decimal number, and that number must be positive. */
  function ParseId(value: string, field: string): (r: Result<int, Failure>)
    ensures r.Success? ==> r.value > 0 && ParseInt(value) == Some(r.value)
    ensures r.Failure? ==> r.error == InvalidId(field)
    ensures r.Failure? <==> ParseInt(value).None? || ParseInt(value).value <= 0
  {
    match ParseInt(value)
    case Some(n) => if n > 0 then Success(n) else Failure(InvalidId(field))
    case None => Failure(InvalidId(field))
  }

  /** Every positive id survives the trip through its decimal text, and so
      does one followed by non-numeric text (`"12abc"` is id 12). */
  lemma ParseIdAcceptsPositive(n: int, rest: string, field: string)
    requires n > 0
    requires rest == [] || !IsDigit(rest[0])
    ensures ParseId(IntToString(n) + rest, field) == Success(n)
  {
    ParseIntReadsLeadingNumber(n, rest);
  }

  /** Zero and negative numbers are refused with the field's error. */
  lemma ParseIdRejectsNonPositive(n: int, field: string)
    requires n <= 0
    ensures ParseId(IntToString(n), field) == Failure(InvalidId(field))
  {
    ParseIntOfIntToString(n);
  }

  /** Text without a digit is refused with the field's error. */
  lemma ParseIdRejectsDigitless(value: string, field: string)
    requires forall i :: 0 <= i < |value| ==> !IsDigit(value[i])
    ensures ParseId(value, field) == Failure(InvalidId(field))
  {
    ParseIntWithoutDigits(value);
  }

  /** `toCustomerName`: first and last name joined by one space, then trimmed. */
  function ToCustomerName(firstName: string, lastName: string): (r: string)
    ensures Unpadded(r)
    ensures |r| <= |firstName| + 1 + |lastName|
  {
    Trim(firstName + " " + lastName)
  }

  /** Two names without surrounding white space are joined by exactly one space. */
  lemma JoinsTrimmedNames(firstName: string, lastName: string)
    requires firstName != [] && lastName != []
    requires Unpadded(firstName) && Unpadded(lastName)
    ensures ToCustomerName(firstName, lastName) == firstName + " " + lastName
  {
    TrimUnpadded(firstName + " " + lastName);
  }

  /** An empty last name leaves the first name alone, without a trailing space. */
  lemma {:induction false} EmptyLastName(firstName: string)
    requires Unpadded(firstName)
    ensures ToCustomerName(firstName, "") == firstName
  {
    var s := firstName + " " + "";
    if firstName == [] {
      assert LeadingSpaces(s) == 1;
    } else {
      assert LeadingSpaces(s) == 0;
      assert TrailingSpaces(s) == 1 by {
        assert s[..|s| - 1] == firstName;
      }
    }
  }

  /** A customer as the lookup lists them. */
  datatype Customer = Customer(id: string, name: string, phone: string)

  /** A film as the lookup lists it. */
  datatype Film = Film(id: string, title: string)

  datatype RentalStatus = Open | Late | Returned

  /** A rental as the rental screens show it. */
  datatype Rental = Rental(
    id: string,
    customerId: string,
    customerName: string,
    filmId: string,
    filmTitle: string,
    status: RentalStatus,
    dueDate: string)

  /** The text a search query is matched against. */
  function SearchText(rental: Rental): string {
    rental.id + " " + rental.filmTitle + " " + rental.customerName
  }

  predicate Matches(rental: Rental, normalized: string) {
    Includes(ToLower(SearchText(rental)), normalized)
  }

  /** The query as the search uses it: trimmed and lower-cased. */
  function NormalizeQuery(query: string): (r: string)
    ensures r == Trim(ToLower(query))
    ensures Unpadded(r) && ToLower(r) == r
    ensures |r| <= |query|
  {
    TrimLowerCommute(query);
    ToLowerIdempotent(Trim(query));
    ToLower(Trim(query))
  }

  /** `rentals.filter(...)` with the matching predicate, in the original order. */
  function KeepMatching(rentals: seq<Rental>, normalized: string): (r: seq<Rental>)
    ensures |r| <= |rentals|
    ensures forall x :: x in r <==> x in rentals && Matches(x, normalized)
  {
    if rentals == [] then []
    else
      var rest := KeepMatching(rentals[1..], normalized);
      if Matches(rentals[0], normalized) then [rentals[0]] + rest else rest
  }

  /** The search works rental by rental: the kept rentals stay in their
      original order, repeats included. */
  lemma {:induction false} KeepMatchingConcat(a: seq<Rental>, b: seq<Rental>, normalized: string)
    ensures KeepMatching(a + b, normalized) == KeepMatching(a, normalized) + KeepMatching(b, normalized)
  {
    if a == [] {
      assert KeepMatching(a, normalized) == [];
      assert a + b == b;
    } else {
      var x, rest := a[0], a[1..];
      Sequences.DropFirstOfAppend(a, b);
      KeepMatchingConcat(rest, b, normalized);
      if Matches(x, normalized) {
        assert KeepMatching(a + b, normalized) == [x] + KeepMatching(rest + b, normalized);
        Sequences.AppendAssoc([x], KeepMatching(rest, normalized), KeepMatching(b, normalized));
      } else {
        assert KeepMatching(a + b, normalized) == KeepMatching(rest + b, normalized);
      }
    }
  }

  /** `filterRentalsByQuery`: a blank query keeps every rental; otherwise a
      rental stays exactly when its id, title and customer name contain the
      query, ignoring case. */
  function FilterRentalsByQuery(rentals: seq<Rental>, query: string): (r: seq<Rental>)
    ensures NormalizeQuery(query) == [] ==> r == rentals
    ensures NormalizeQuery(query) != [] ==> r == KeepMatching(rentals, NormalizeQuery(query))
    ensures NormalizeQuery(query) != [] ==>
      forall x :: x in r <==> x in rentals && Matches(x, NormalizeQuery(query))
  {
    var normalized := NormalizeQuery(query);
    if normalized == [] then rentals else KeepMatching(rentals, normalized)
  }

  lemma {:induction false} KeepMatchingIdempotent(rentals: seq<Rental>, normalized: string)
    ensures KeepMatching(KeepMatching(rentals, normalized), normalized) == KeepMatching(rentals, normalized)
  {
    if rentals != [] {
      KeepMatchingIdempotent(rentals[1..], normalized);
      var rest := KeepMatching(rentals[1..], normalized);
      if Matches(rentals[0], normalized) {
        assert ([rentals[0]] + rest)[1..] == rest;
      }
    }
  }

  /** Searching the result of a search again with the same query changes nothing. */
  lemma FilterIdempotent(rentals: seq<Rental>, query: string)
    ensures FilterRentalsByQuery(FilterRentalsByQuery(rentals, query), query)
         == FilterRentalsByQuery(rentals, query)
  {
    KeepMatchingIdempotent(rentals, NormalizeQuery(query));
  }

  /** The case of the query and white space around it do not change the result. */
  lemma QueryIsNormalized(rentals: seq<Rental>, query: string)
    ensures FilterRentalsByQuery(rentals, ToLower(query)) == FilterRentalsByQuery(rentals, query)
    ensures FilterRentalsByQuery(rentals, Trim(query)) == FilterRentalsByQuery(rentals, query)
  {
    TrimLowerCommute(query);
    ToLowerIdempotent(Trim(query));
    TrimIdempotent(query);
  }

  /** Searching for a rental's own numeric id always finds that rental. */
  lemma FindsRentalById(rentals: seq<Rental>, rental: Rental)
    requires rental in rentals
    requires rental.id != [] && AllDigits(rental.id)
    ensures rental in FilterRentalsByQuery(rentals, rental.id)
  {
    var id := rental.id;
    TrimUnpadded(id);
    assert ToLower(id) == id;
    var tail := " " + rental.filmTitle + " " + rental.customerName;
    assert SearchText(rental) == id + tail;
    ToLowerConcat(id, tail);
    assert OccursAt(ToLower(SearchText(rental)), id, 0);
  }
}
