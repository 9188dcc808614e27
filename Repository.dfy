/**
 * The two repositories as maps, and the queries the services issue against them:
 * the derived single-result queries findByMobileNumber and findByCustomerId, and
 * the bulk delete deleteByCustomerId.
 */
module Repository {
  import opened Entities

  /**
   * Result of a query that promises at most one row: no row, exactly one, or
   * several (which the repository reports as an error).
   */
  datatype Lookup = Absent | Unique(key: int) | Duplicate

  lemma NonEmptyHasElement(keys: set<int>)
    requires keys != {}
    ensures exists k :: k in keys
  {
    assert (forall k :: k !in keys) ==> keys == {};
  }

  lemma SingletonOf(keys: set<int>)
    requires |keys| == 1
    ensures exists k :: k in keys && keys == {k}
  {
    NonEmptyHasElement(keys);
    var k :| k in keys;
    assert |keys - {k}| == 0;
    assert keys - {k} == {};
    assert keys == {k};
  }

  /** Turns the set of matching keys into the outcome of a single-result query. */
  function Select(keys: set<int>): (r: Lookup)
    ensures r.Absent? <==> keys == {}
    ensures r.Unique? <==> |keys| == 1
    ensures r.Unique? ==> keys == {r.key}
    ensures r.Duplicate? <==> |keys| >= 2
  {
    if keys == {} then Absent
    else if |keys| == 1 then
      SingletonOf(keys);
      var k :| k in keys && keys == {k};
      Unique(k)
    else Duplicate
  }

  /** Ids of the stored customers registered with the given mobile number. */
  function CustomerIdsWithMobile(customers: map<CustomerId, Customer>, mobileNumber: string): set<CustomerId>
  {
    set id | id in customers && customers[id].mobileNumber == mobileNumber
  }

  /** Numbers of the stored accounts owned by the given customer. */
  function AccountNumbersOf(accounts: map<AccountNumber, Account>, customerId: CustomerId): set<AccountNumber>
  {
    set n | n in accounts && accounts[n].customerId == customerId
  }

  /** CustomerRepository.findByMobileNumber. */
  function FindByMobileNumber(customers: map<CustomerId, Customer>, mobileNumber: string): (r: Lookup)
    ensures r.Absent? <==> forall id :: id in customers ==> customers[id].mobileNumber != mobileNumber
    ensures r.Unique? ==> r.key in customers && customers[r.key].mobileNumber == mobileNumber
    ensures r.Unique? ==> forall id :: id in customers && customers[id].mobileNumber == mobileNumber ==> id == r.key
    ensures r.Duplicate? <==> |CustomerIdsWithMobile(customers, mobileNumber)| >= 2
  {
    var ids := CustomerIdsWithMobile(customers, mobileNumber);
    assert forall id :: id in ids <==> id in customers && customers[id].mobileNumber == mobileNumber;
    assert ids != {} ==> exists id :: id in customers && customers[id].mobileNumber == mobileNumber by {
      if ids != {} { NonEmptyHasElement(ids); }
    }
    Select(ids)
  }

  /** AccountsRepository.findByCustomerId. */
  function FindByCustomerId(accounts: map<AccountNumber, Account>, customerId: CustomerId): (r: Lookup)
    ensures r.Absent? <==> forall n :: n in accounts ==> accounts[n].customerId != customerId
    ensures r.Unique? ==> r.key in accounts && accounts[r.key].customerId == customerId
    ensures r.Unique? ==> forall n :: n in accounts && accounts[n].customerId == customerId ==> n == r.key
    ensures r.Duplicate? <==> |AccountNumbersOf(accounts, customerId)| >= 2
  {
    var numbers := AccountNumbersOf(accounts, customerId);
    assert forall n :: n in numbers <==> n in accounts && accounts[n].customerId == customerId;
    assert numbers != {} ==> exists n :: n in accounts && accounts[n].customerId == customerId by {
      if numbers != {} { NonEmptyHasElement(numbers); }
    }
    Select(numbers)
  }

  /** AccountsRepository.deleteByCustomerId: drop every account the customer owns. */
  function DeleteByCustomerId(accounts: map<AccountNumber, Account>, customerId: CustomerId): (r: map<AccountNumber, Account>)
    ensures forall n :: n in r <==> n in accounts && accounts[n].customerId != customerId
    ensures forall n :: n in r ==> r[n] == accounts[n]
  {
    map n | n in accounts && accounts[n].customerId != customerId :: accounts[n]
  }

  /** At most one stored customer per mobile number. */
  ghost predicate UniqueMobiles(customers: map<CustomerId, Customer>)
  {
    forall i, j :: i in customers && j in customers && customers[i].mobileNumber == customers[j].mobileNumber ==> i == j
  }

  /** Every account is owned by a stored customer. */
  ghost predicate AccountsReferenceCustomers(customers: map<CustomerId, Customer>, accounts: map<AccountNumber, Account>)
  {
    forall n :: n in accounts ==> accounts[n].customerId in customers
  }

  /** No customer owns two accounts. */
  ghost predicate AtMostOneAccountPerCustomer(accounts: map<AccountNumber, Account>)
  {
    forall n, m :: n in accounts && m in accounts && accounts[n].customerId == accounts[m].customerId ==> n == m
  }

  /** Every account number lies in the generated range [1000000000, 1899999999]. */
  ghost predicate AccountNumbersInRange(accounts: map<AccountNumber, Account>)
  {
    forall n :: n in accounts ==> ACCOUNT_NUMBER_BASE <= n < ACCOUNT_NUMBER_BASE + ACCOUNT_NUMBER_SPAN
  }

  /** Under UniqueMobiles, a stored customer is what findByMobileNumber returns for its mobile number. */
  lemma UniqueMobileLookup(customers: map<CustomerId, Customer>, id: CustomerId)
    requires UniqueMobiles(customers)
    requires id in customers
    ensures FindByMobileNumber(customers, customers[id].mobileNumber) == Unique(id)
  {
    var ids := CustomerIdsWithMobile(customers, customers[id].mobileNumber);
    assert id in ids;
    forall j | j in ids ensures j == id { }
    assert ids == {id};
  }
}
