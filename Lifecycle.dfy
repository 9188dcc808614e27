/**
 * The account lifecycle of AccountsServiceImpl as pure transitions over the
 * two tables and the outbox of published messages, and what they preserve.
 * AccountsService.AccountsServiceImpl performs the same steps in place and is
 * proved equal to these transitions.
 */
module Lifecycle {
  import opened Entities
  import opened Repository

  /**
   * Everything the service reads or writes: the customer table, the account
   * table, the messages handed to the stream bridge, and the next id the
   * customer table's generator hands out.
   */
  datatype Store = Store(
    customers: map<CustomerId, Customer>,
    accounts: map<AccountNumber, Account>,
    outbox: seq<AccountsMessage>,
    nextCustomerId: CustomerId)

  /** The store after a call, and what the call returned or raised. */
  datatype Step<R> = Step(store: Store, result: R)

  /** The id generator never hands out an id that a customer or an account already uses. */
  ghost predicate IdsIssued(s: Store)
  {
    && (forall id :: id in s.customers ==> id < s.nextCustomerId)
    && (forall n :: n in s.accounts ==> s.accounts[n].customerId < s.nextCustomerId)
  }

  /** The invariants every lifecycle operation preserves. */
  ghost predicate Consistent(s: Store)
  {
    && IdsIssued(s)
    && AccountsReferenceCustomers(s.customers, s.accounts)
    && AtMostOneAccountPerCustomer(s.accounts)
    && AccountNumbersInRange(s.accounts)
  }

  /** createNewAccount, with the value of the random draw passed in. */
  function CreateNewAccount(customerId: CustomerId, randomDraw: int): (r: (AccountNumber, Account))
    requires 0 <= randomDraw < ACCOUNT_NUMBER_SPAN
    ensures 1000000000 <= r.0 <= 1899999999
  {
    (ACCOUNT_NUMBER_BASE + randomDraw, Account(customerId, SAVINGS, ADDRESS, false))
  }

  /** The message sendCommunication publishes for a saved account and customer. */
  function CommunicationMessage(accountNumber: AccountNumber, customer: Customer): AccountsMessage
  {
    AccountsMessage(accountNumber, customer.name, customer.email, customer.mobileNumber)
  }

  /** createAccount. */
  function CreateAccount(s: Store, dto: CustomerDto, randomDraw: int): (out: Step<Outcome>)
    requires 0 <= randomDraw < ACCOUNT_NUMBER_SPAN
    ensures out.result.Fail? <==> exists id :: id in s.customers && s.customers[id].mobileNumber == dto.mobileNumber
    ensures out.result.Fail? ==> out.store == s
    ensures out.result == Fail(CustomerAlreadyExists(dto.mobileNumber))
        <==> |CustomerIdsWithMobile(s.customers, dto.mobileNumber)| == 1
    ensures out.result.Pass? ==>
      var id, n := s.nextCustomerId, ACCOUNT_NUMBER_BASE + randomDraw;
      && out.store.customers == s.customers[id := Customer(dto.name, dto.email, dto.mobileNumber)]
      && out.store.accounts == s.accounts[n := Account(id, SAVINGS, ADDRESS, false)]
      && out.store.outbox == s.outbox + [AccountsMessage(n, dto.name, dto.email, dto.mobileNumber)]
      && out.store.nextCustomerId > id
      && (IdsIssued(s) ==> |out.store.customers| == |s.customers| + 1)
  {
    var customer := MapToCustomer(dto, BlankCustomer);
    match FindByMobileNumber(s.customers, dto.mobileNumber)
    case Unique(_) => Step(s, Fail(CustomerAlreadyExists(dto.mobileNumber)))
    case Duplicate => Step(s, Fail(IncorrectResultSize("Customer", "mobileNumber", Text(dto.mobileNumber))))
    case Absent =>
      var customerId := s.nextCustomerId;
      var saved := s.(customers := s.customers[customerId := customer], nextCustomerId := customerId + 1);
      var (accountNumber, account) := CreateNewAccount(customerId, randomDraw);
      var withAccount := saved.(accounts := saved.accounts[accountNumber := account]);
      Step(withAccount.(outbox := withAccount.outbox + [CommunicationMessage(accountNumber, customer)]), Pass)
  }

  /** fetchAccount: the customer with the mobile number, and the account it owns. */
  function FetchAccount(customers: map<CustomerId, Customer>, accounts: map<AccountNumber, Account>, mobileNumber: string)
    : (r: Result<CustomerDto>)
    ensures CustomerIdsWithMobile(customers, mobileNumber) == {}
        <==> r == Failure(ResourceNotFound("Customer", "mobileNumber", Text(mobileNumber)))
    ensures |CustomerIdsWithMobile(customers, mobileNumber)| >= 2
        <==> r == Failure(IncorrectResultSize("Customer", "mobileNumber", Text(mobileNumber)))
    ensures forall id :: id in customers && CustomerIdsWithMobile(customers, mobileNumber) == {id} ==>
      && (AccountNumbersOf(accounts, id) == {} <==> r == Failure(ResourceNotFound("Account", "customerId", Number(id))))
      && (|AccountNumbersOf(accounts, id)| >= 2 <==> r == Failure(IncorrectResultSize("Account", "customerId", Number(id))))
    ensures r.Success? <==> exists id, n ::
      && id in customers && n in accounts
      && CustomerIdsWithMobile(customers, mobileNumber) == {id}
      && AccountNumbersOf(accounts, id) == {n}
    ensures r.Success? ==> exists id, n ::
      && id in customers && n in accounts
      && CustomerIdsWithMobile(customers, mobileNumber) == {id}
      && AccountNumbersOf(accounts, id) == {n}
      && r.value == CustomerDto(customers[id].name, customers[id].email, mobileNumber,
                                Some(AccountsDto(n, accounts[n].accountType, accounts[n].branchAddress)))
  {
    match FindByMobileNumber(customers, mobileNumber)
    case Absent => Failure(ResourceNotFound("Customer", "mobileNumber", Text(mobileNumber)))
    case Duplicate => Failure(IncorrectResultSize("Customer", "mobileNumber", Text(mobileNumber)))
    case Unique(customerId) =>
      match FindByCustomerId(accounts, customerId)
      case Absent => Failure(ResourceNotFound("Account", "customerId", Number(customerId)))
      case Duplicate => Failure(IncorrectResultSize("Account", "customerId", Number(customerId)))
      case Unique(accountNumber) =>
        Success(MapToCustomerDto(customers[customerId], MapToAccountsDto(accountNumber, accounts[accountNumber])))
  }

  /** updateAccount: the account is saved before its owner is looked up. */
  function UpdateAccount(s: Store, dto: CustomerDto): (out: Step<Result<bool>>)
    ensures out.store.outbox == s.outbox && out.store.nextCustomerId == s.nextCustomerId
    ensures dto.accountsDto.None? ==> out == Step(s, Success(false))
    ensures dto.accountsDto.Some? && dto.accountsDto.value.accountNumber !in s.accounts ==>
      out == Step(s, Failure(ResourceNotFound("Account", "AccountNumber", Number(dto.accountsDto.value.accountNumber))))
    ensures dto.accountsDto.Some? && dto.accountsDto.value.accountNumber in s.accounts ==>
      var payload := dto.accountsDto.value;
      var before := s.accounts[payload.accountNumber];
      && out.store.accounts == s.accounts[payload.accountNumber :=
           before.(accountType := payload.accountType, branchAddress := payload.branchAddress)]
      && (before.customerId in s.customers ==>
            && out.result == Success(true)
            && out.store.customers == s.customers[before.customerId :=
                 Customer(dto.name, dto.email, dto.mobileNumber)])
      && (before.customerId !in s.customers ==>
            && out.result == Failure(ResourceNotFound("Customer", "CustomerID", Number(before.customerId)))
            && out.store.customers == s.customers)
  {
    match dto.accountsDto
    case None => Step(s, Success(false))
    case Some(payload) =>
      if payload.accountNumber !in s.accounts then
        Step(s, Failure(ResourceNotFound("Account", "AccountNumber", Number(payload.accountNumber))))
      else
        var account := MapToAccounts(payload, s.accounts[payload.accountNumber]);
        var saved := s.(accounts := s.accounts[payload.accountNumber := account]);
        var customerId := account.customerId;
        if customerId !in saved.customers then
          Step(saved, Failure(ResourceNotFound("Customer", "CustomerID", Number(customerId))))
        else
          var customer := MapToCustomer(dto, saved.customers[customerId]);
          Step(saved.(customers := saved.customers[customerId := customer]), Success(true))
  }

  /** deleteAccount: the customer's accounts are deleted, then the customer. */
  function DeleteAccount(s: Store, mobileNumber: string): (out: Step<Result<bool>>)
    ensures out.store.outbox == s.outbox && out.store.nextCustomerId == s.nextCustomerId
    ensures CustomerIdsWithMobile(s.customers, mobileNumber) == {} ==>
      out == Step(s, Failure(ResourceNotFound("Customer", "mobileNumber", Text(mobileNumber))))
    ensures |CustomerIdsWithMobile(s.customers, mobileNumber)| >= 2 ==>
      out == Step(s, Failure(IncorrectResultSize("Customer", "mobileNumber", Text(mobileNumber))))
    ensures out.result.Success? <==> |CustomerIdsWithMobile(s.customers, mobileNumber)| == 1
    ensures out.result.Success? ==> out.result.value && exists id ::
      && id in s.customers
      && CustomerIdsWithMobile(s.customers, mobileNumber) == {id}
      && out.store.customers == s.customers - {id}
      && out.store.accounts == DeleteByCustomerId(s.accounts, id)
  {
    match FindByMobileNumber(s.customers, mobileNumber)
    case Absent => Step(s, Failure(ResourceNotFound("Customer", "mobileNumber", Text(mobileNumber))))
    case Duplicate => Step(s, Failure(IncorrectResultSize("Customer", "mobileNumber", Text(mobileNumber))))
    case Unique(customerId) =>
      var withoutAccounts := s.(accounts := DeleteByCustomerId(s.accounts, customerId));
      Step(withoutAccounts.(customers := withoutAccounts.customers - {customerId}), Success(true))
  }

  /** updateCommunicationStatus: a null account number is None. */
  function UpdateCommunicationStatus(s: Store, accountNumber: Option<AccountNumber>): (out: Step<Result<bool>>)
    ensures out.store.customers == s.customers
    ensures out.store.outbox == s.outbox && out.store.nextCustomerId == s.nextCustomerId
    ensures accountNumber.None? ==> out == Step(s, Success(false))
    ensures accountNumber.Some? && accountNumber.value !in s.accounts ==>
      out == Step(s, Failure(ResourceNotFound("Account", "AccountNumber", Number(accountNumber.value))))
    ensures accountNumber.Some? && accountNumber.value in s.accounts ==>
      var n := accountNumber.value;
      && out.result == Success(true)
      && out.store.accounts.Keys == s.accounts.Keys
      && out.store.accounts[n] == s.accounts[n].(communicationSw := true)
      && (forall m :: m in s.accounts && m != n ==> out.store.accounts[m] == s.accounts[m])
  {
    match accountNumber
    case None => Step(s, Success(false))
    case Some(n) =>
      if n !in s.accounts then
        Step(s, Failure(ResourceNotFound("Account", "AccountNumber", Number(n))))
      else
        var account := s.accounts[n].(communicationSw := true);
        Step(s.(accounts := s.accounts[n := account]), Success(true))
  }

  // ---------------------------------------------------------------------------
  // What the operations preserve

  lemma CreateAccountKeepsConsistent(s: Store, dto: CustomerDto, randomDraw: int)
    requires 0 <= randomDraw < ACCOUNT_NUMBER_SPAN
    requires Consistent(s)
    ensures Consistent(CreateAccount(s, dto, randomDraw).store)
    ensures UniqueMobiles(s.customers) ==> UniqueMobiles(CreateAccount(s, dto, randomDraw).store.customers)
  {
  }

  lemma UpdateAccountKeepsConsistent(s: Store, dto: CustomerDto)
    requires Consistent(s)
    ensures Consistent(UpdateAccount(s, dto).store)
  {
  }

  /** In a consistent store the owner lookup of updateAccount never fails, so the partial write never shows. */
  lemma UpdateAccountFindsOwner(s: Store, dto: CustomerDto)
    requires AccountsReferenceCustomers(s.customers, s.accounts)
    requires dto.accountsDto.Some? && dto.accountsDto.value.accountNumber in s.accounts
    ensures UpdateAccount(s, dto).result == Success(true)
  {
  }

  /**
   * updateAccount copies the request's mobile number onto the stored customer
   * without checking it, so two customers can end up sharing one.
   */
  lemma UpdateAccountCanShareMobile()
    ensures
      var s := Store(map[1 := Customer("A", "a@x", "111"), 2 := Customer("B", "b@x", "222")],
                     map[1000000000 := Account(2, SAVINGS, ADDRESS, false)], [], 3);
      var dto := CustomerDto("B", "b@x", "111", Some(AccountsDto(1000000000, SAVINGS, ADDRESS)));
      && Consistent(s) && UniqueMobiles(s.customers)
      && UpdateAccount(s, dto).result == Success(true)
      && !UniqueMobiles(UpdateAccount(s, dto).store.customers)
  {
    var s := Store(map[1 := Customer("A", "a@x", "111"), 2 := Customer("B", "b@x", "222")],
                   map[1000000000 := Account(2, SAVINGS, ADDRESS, false)], [], 3);
    var dto := CustomerDto("B", "b@x", "111", Some(AccountsDto(1000000000, SAVINGS, ADDRESS)));
    var t := UpdateAccount(s, dto).store;
    assert t.customers[1].mobileNumber == t.customers[2].mobileNumber;
  }

  lemma DeleteAccountKeepsConsistent(s: Store, mobileNumber: string)
    requires Consistent(s)
    ensures Consistent(DeleteAccount(s, mobileNumber).store)
    ensures UniqueMobiles(s.customers) ==> UniqueMobiles(DeleteAccount(s, mobileNumber).store.customers)
  {
  }

  lemma UpdateCommunicationStatusKeepsConsistent(s: Store, accountNumber: Option<AccountNumber>)
    requires Consistent(s)
    ensures Consistent(UpdateCommunicationStatus(s, accountNumber).store)
  {
  }

  /** Marking an account as communicated a second time changes nothing and answers the same. */
  lemma UpdateCommunicationStatusIdempotent(s: Store, accountNumber: Option<AccountNumber>)
    ensures
      var once := UpdateCommunicationStatus(s, accountNumber);
      UpdateCommunicationStatus(once.store, accountNumber) == once
  {
  }

  // ---------------------------------------------------------------------------
  // Operations in sequence

  /** After a successful createAccount, fetchAccount with the same mobile number returns the new records. */
  lemma FetchAfterCreate(s: Store, dto: CustomerDto, randomDraw: int)
    requires 0 <= randomDraw < ACCOUNT_NUMBER_SPAN
    requires IdsIssued(s)
    requires CreateAccount(s, dto, randomDraw).result.Pass?
    ensures
      var t := CreateAccount(s, dto, randomDraw).store;
      FetchAccount(t.customers, t.accounts, dto.mobileNumber)
        == Success(CustomerDto(dto.name, dto.email, dto.mobileNumber,
                               Some(AccountsDto(ACCOUNT_NUMBER_BASE + randomDraw, SAVINGS, ADDRESS))))
  {
    var t, id, n := CreateAccount(s, dto, randomDraw).store, s.nextCustomerId, ACCOUNT_NUMBER_BASE + randomDraw;
    var ids := CustomerIdsWithMobile(t.customers, dto.mobileNumber);
    assert forall i :: i in s.customers ==> s.customers[i].mobileNumber != dto.mobileNumber;
    forall i | i in ids ensures i == id {
      assert i in t.customers && t.customers[i].mobileNumber == dto.mobileNumber;
    }
    assert id in ids;
    assert ids == {id};
    var numbers := AccountNumbersOf(t.accounts, id);
    assert forall m :: m in s.accounts ==> s.accounts[m].customerId < id;
    forall m | m in numbers ensures m == n {
      assert m in t.accounts && t.accounts[m].customerId == id;
    }
    assert n in numbers;
    assert numbers == {n};
  }

  /** A second createAccount with a mobile number that is now registered fails and changes nothing. */
  lemma CreateAgainFails(s: Store, dto: CustomerDto, randomDraw: int, again: CustomerDto, secondDraw: int)
    requires 0 <= randomDraw < ACCOUNT_NUMBER_SPAN && 0 <= secondDraw < ACCOUNT_NUMBER_SPAN
    requires CreateAccount(s, dto, randomDraw).result.Pass?
    requires again.mobileNumber == dto.mobileNumber
    ensures
      var t := CreateAccount(s, dto, randomDraw).store;
      CreateAccount(t, again, secondDraw) == Step(t, Fail(CustomerAlreadyExists(dto.mobileNumber)))
  {
    var t, id := CreateAccount(s, dto, randomDraw).store, s.nextCustomerId;
    var ids := CustomerIdsWithMobile(t.customers, dto.mobileNumber);
    assert forall i :: i in s.customers ==> s.customers[i].mobileNumber != dto.mobileNumber;
    forall i | i in ids ensures i == id {
      assert i in t.customers && t.customers[i].mobileNumber == dto.mobileNumber;
    }
    assert id in ids;
    assert ids == {id};
  }

  /** After a successful deleteAccount, fetchAccount with the same mobile number finds no customer. */
  lemma FetchAfterDelete(s: Store, mobileNumber: string)
    requires DeleteAccount(s, mobileNumber).result.Success?
    ensures
      var t := DeleteAccount(s, mobileNumber).store;
      FetchAccount(t.customers, t.accounts, mobileNumber)
        == Failure(ResourceNotFound("Customer", "mobileNumber", Text(mobileNumber)))
  {
  }

  /**
   * createAccount does not check that the drawn account number is free: when it
   * is taken, the stored account under that number is replaced by the new one.
   */
  lemma CreateAccountMayReplaceAccount(s: Store, dto: CustomerDto, randomDraw: int)
    requires 0 <= randomDraw < ACCOUNT_NUMBER_SPAN
    requires IdsIssued(s)
    requires CreateAccount(s, dto, randomDraw).result.Pass?
    requires ACCOUNT_NUMBER_BASE + randomDraw in s.accounts
    ensures
      var t, n := CreateAccount(s, dto, randomDraw).store, ACCOUNT_NUMBER_BASE + randomDraw;
      && |t.accounts| == |s.accounts|
      && t.accounts[n].customerId != s.accounts[n].customerId
  {
  }
}
