/**
 * The address book (`/api/user/addresses`): the required-field check and
 * defaults of POST, the insert that keeps a single default per user, and the
 * listing order of GET (defaults first, then newest first).
 */
module AddressBook {
  import opened Domain

  /** The JSON body of POST /api/user/addresses; an absent field is `None`. */
  datatype AddressInput = AddressInput(
    firstName: Option<string>,
    lastName: Option<string>,
    company: Option<string>,
    address1: Option<string>,
    address2: Option<string>,
    city: Option<string>,
    state: Option<string>,
    pincode: Option<string>,
    country: Option<string>,
    phone: Option<string>,
    isDefault: Option<bool>)

  /** Every required field is present and non-empty. */
  predicate HasRequiredFields(input: AddressInput) {
    Truthy(input.firstName) && Truthy(input.lastName) && Truthy(input.address1)
    && Truthy(input.city) && Truthy(input.state) && Truthy(input.pincode)
  }

  const DefaultCountry: string := "India"

  /** The row POST creates: `country` defaults to "India", `isDefault` to false. */
  function NewAddress(input: AddressInput, id: Id, userId: UserId, now: int): (a: Address)
    requires HasRequiredFields(input)
    ensures a.id == id && a.userId == userId && a.createdAt == now
    ensures a.country == (if input.country.Some? then input.country.value else DefaultCountry)
    ensures a.isDefault == (input.isDefault == Some(true))
    ensures a.firstName == input.firstName.value && a.lastName == input.lastName.value
    ensures a.address1 == input.address1.value && a.city == input.city.value
    ensures a.state == input.state.value && a.pincode == input.pincode.value
    ensures a.company == input.company && a.address2 == input.address2 && a.phone == input.phone
  {
    Address(id, userId, input.firstName.value, input.lastName.value, input.company,
            input.address1.value, input.address2, input.city.value, input.state.value,
            input.pincode.value, input.country.GetOr(DefaultCountry), input.phone,
            input.isDefault.GetOr(false), now)
  }

  /** `updateMany({ where: { userId }, data: { isDefault: false } })`. */
  function DemoteDefaults(addresses: seq<Address>, userId: UserId): (r: seq<Address>)
    ensures |r| == |addresses|
    ensures forall k :: 0 <= k < |r| && addresses[k].userId != userId ==> r[k] == addresses[k]
    ensures forall k :: 0 <= k < |r| && addresses[k].userId == userId ==> r[k] == addresses[k].(isDefault := false)
  {
    seq(|addresses|, k requires 0 <= k < |addresses| =>
      if addresses[k].userId == userId then addresses[k].(isDefault := false) else addresses[k])
  }

  /**
   * The address table after POST: with `isDefault`, the owner's other
   * addresses are demoted first; the new row is appended either way.
   */
  function InsertAddress(addresses: seq<Address>, a: Address): (r: seq<Address>)
    ensures |r| == |addresses| + 1 && r[|addresses|] == a
    ensures forall k :: 0 <= k < |addresses| && addresses[k].userId != a.userId ==> r[k] == addresses[k]
    ensures !a.isDefault ==> r[..|addresses|] == addresses
    ensures a.isDefault ==>
      forall k :: 0 <= k < |addresses| && addresses[k].userId == a.userId ==> r[k] == addresses[k].(isDefault := false)
    ensures a.isDefault ==>
      forall k :: 0 <= k < |r| && r[k].userId == a.userId && r[k].isDefault ==> k == |addresses|
  {
    (if a.isDefault then DemoteDefaults(addresses, a.userId) else addresses) + [a]
  }

  /** A default insert leaves exactly one default for its owner: the new row. */
  lemma DefaultInsertIsOnlyDefault(addresses: seq<Address>, a: Address)
    requires a.isDefault
    ensures var r := InsertAddress(addresses, a);
      forall b :: b in r && b.userId == a.userId && b.isDefault ==> b == a
  {
    var r := InsertAddress(addresses, a);
    forall b | b in r && b.userId == a.userId && b.isDefault
      ensures b == a
    {
      var k :| 0 <= k < |r| && r[k] == b;
      assert k == |addresses|;
    }
  }

  /** GET's order: defaults before non-defaults, then newer (larger `createdAt`) first. */
  predicate ListedBefore(a: Address, b: Address) {
    if a.isDefault != b.isDefault then a.isDefault else a.createdAt >= b.createdAt
  }

  predicate Sorted(s: seq<Address>) {
    forall i, j :: 0 <= i < j < |s| ==> ListedBefore(s[i], s[j])
  }

  /** The rows owned by `userId`, in table order. */
  function OwnedBy(addresses: seq<Address>, userId: UserId): (r: seq<Address>)
    ensures forall b :: b in r <==> b in addresses && b.userId == userId
    ensures forall b :: multiset(r)[b] == if b.userId == userId then multiset(addresses)[b] else 0
    ensures |r| <= |addresses|
  {
    if addresses == [] then []
    else
      assert addresses == [addresses[0]] + addresses[1..];
      if addresses[0].userId == userId then [addresses[0]] + OwnedBy(addresses[1..], userId)
      else OwnedBy(addresses[1..], userId)
  }

  /** Insertion of one row into a listing already in GET's order. */
  function Insert(a: Address, s: seq<Address>): seq<Address> {
    if s == [] then [a]
    else if ListedBefore(a, s[0]) then [a] + s
    else [s[0]] + Insert(a, s[1..])
  }

  lemma {:induction false} InsertPermutes(a: Address, s: seq<Address>)
    ensures multiset(Insert(a, s)) == multiset(s) + multiset{a}
  {
    if s != [] && !ListedBefore(a, s[0]) {
      InsertPermutes(a, s[1..]);
      assert s == [s[0]] + s[1..];
    }
  }

  lemma {:induction false} InsertSorted(a: Address, s: seq<Address>)
    requires Sorted(s)
    ensures Sorted(Insert(a, s))
  {
    if s == [] {
    } else if ListedBefore(a, s[0]) {
      var r := [a] + s;
      forall i, j | 0 <= i < j < |r| ensures ListedBefore(r[i], r[j]) {
        if i == 0 {
          ListedBeforeTransitive(a, s[0], s[j - 1]);
        }
      }
    } else {
      var rest := Insert(a, s[1..]);
      InsertSorted(a, s[1..]);
      InsertPermutes(a, s[1..]);
      var r := [s[0]] + rest;
      forall j | 0 < j < |r| ensures ListedBefore(s[0], r[j]) {
        assert r[j] in multiset(rest);
        assert r[j] in multiset(s[1..]) || r[j] == a;
      }
    }
  }

  lemma ListedBeforeTransitive(a: Address, b: Address, c: Address)
    requires ListedBefore(a, b) && ListedBefore(b, c)
    ensures ListedBefore(a, c)
  {
  }

  function SortAddresses(s: seq<Address>): (r: seq<Address>)
    ensures Sorted(r)
    ensures multiset(r) == multiset(s)
  {
    if s == [] then []
    else
      var sorted := SortAddresses(s[1..]);
      InsertSorted(s[0], sorted);
      InsertPermutes(s[0], sorted);
      assert s == [s[0]] + s[1..];
      Insert(s[0], sorted)
  }

  /** GET /api/user/addresses: exactly the caller's rows, defaults first, then newest first. */
  function ListAddresses(addresses: seq<Address>, userId: UserId): (r: seq<Address>)
    ensures forall b :: b in r <==> b in addresses && b.userId == userId
    ensures forall b :: multiset(r)[b] == if b.userId == userId then multiset(addresses)[b] else 0
    ensures Sorted(r)
    ensures |r| <= |addresses|
  {
    var owned := OwnedBy(addresses, userId);
    var r := SortAddresses(owned);
    assert forall b :: b in r <==> b in owned by {
      forall b ensures b in r <==> b in owned {
        assert b in r <==> b in multiset(r);
        assert b in owned <==> b in multiset(owned);
      }
    }
    assert |r| == |multiset(r)| == |multiset(owned)| == |owned|;
    r
  }
}
