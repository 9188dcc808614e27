/**
 * AccountsServiceImpl: the service object that owns the customer and account
 * repositories and the stream bridge, and changes them step by step.
 * Each method is proved to end in the state, and with the answer, of the
 * corresponding transition in Lifecycle.
 */
module AccountsService {
  import opened Entities
  import opened Repository
  import Lifecycle

  class AccountsServiceImpl {
    /** customerRepository, keyed by customerId. */
    var customers: map<CustomerId, Customer>
    /** accountsRepository, keyed by accountNumber. */
    var accounts: map<AccountNumber, Account>
    /** Messages handed to the stream bridge on "sendCommunication-out-0", oldest first. */
    var outbox: seq<AccountsMessage>
    /** The id the customer repository assigns to the next saved customer. */
    var nextCustomerId: CustomerId

    /** The object's fields as a Lifecycle store. */
    function State(): Lifecycle.Store
      reads this
    {
      Lifecycle.Store(customers, accounts, outbox, nextCustomerId)
    }

    ghost predicate Valid()
      reads this
    {
      Lifecycle.IdsIssued(State())
    }

    /** A service over empty repositories. */
    constructor ()
      ensures Valid() && Lifecycle.Consistent(State()) && UniqueMobiles(customers)
      ensures customers == map[] && accounts == map[] && outbox == []
    {
      customers := map[];
      accounts := map[];
      outbox := [];
      nextCustomerId := 1;
    }

    /** customerRepository.save of a new customer: the generator assigns its id. */
    method SaveNewCustomer(customer: Customer) returns (customerId: CustomerId)
      requires Valid()
      modifies this`customers, this`nextCustomerId
      ensures customerId == old(nextCustomerId) && customerId !in old(customers)
      ensures customers == old(customers)[customerId := customer]
      ensures nextCustomerId == customerId + 1
      ensures forall n :: n in accounts ==> accounts[n].customerId < nextCustomerId
      ensures Valid()
    {
      customerId := nextCustomerId;
      customers := customers[customerId := customer];
      nextCustomerId := nextCustomerId + 1;
    }

    /** sendCommunication: publish the account number and the customer's contact details. */
    method SendCommunication(accountNumber: AccountNumber, customer: Customer)
      modifies this`outbox
      ensures outbox == old(outbox) + [Lifecycle.CommunicationMessage(accountNumber, customer)]
    {
      var message := Lifecycle.CommunicationMessage(accountNumber, customer);
      outbox := outbox + [message];
    }

    /** createAccount, with the value of the random draw passed in. */
    method CreateAccount(customerDto: CustomerDto, randomDraw: int) returns (r: Outcome)
      requires Valid()
      requires 0 <= randomDraw < ACCOUNT_NUMBER_SPAN
      modifies this
      ensures Valid()
      ensures Lifecycle.Step(State(), r) == Lifecycle.CreateAccount(old(State()), customerDto, randomDraw)
    {
      var customer := MapToCustomer(customerDto, BlankCustomer);
      var existing := FindByMobileNumber(customers, customerDto.mobileNumber);
      if existing.Duplicate? {
        return Fail(IncorrectResultSize("Customer", "mobileNumber", Text(customerDto.mobileNumber)));
      }
      if existing.Unique? {
        return Fail(CustomerAlreadyExists(customerDto.mobileNumber));
      }
      var customerId := SaveNewCustomer(customer);
      var (accountNumber, account) := Lifecycle.CreateNewAccount(customerId, randomDraw);
      accounts := accounts[accountNumber := account];
      SendCommunication(accountNumber, customer);
      r := Pass;
    }

    /** fetchAccount: reads both repositories and changes nothing. */
    method FetchAccount(mobileNumber: string) returns (r: Result<CustomerDto>)
      ensures r == Lifecycle.FetchAccount(customers, accounts, mobileNumber)
    {
      var foundCustomer := FindByMobileNumber(customers, mobileNumber);
      if foundCustomer.Absent? {
        return Failure(ResourceNotFound("Customer", "mobileNumber", Text(mobileNumber)));
      }
      if foundCustomer.Duplicate? {
        return Failure(IncorrectResultSize("Customer", "mobileNumber", Text(mobileNumber)));
      }
      var customerId := foundCustomer.key;
      var customer := customers[customerId];
      var foundAccount := FindByCustomerId(accounts, customerId);
      if foundAccount.Absent? {
        return Failure(ResourceNotFound("Account", "customerId", Number(customerId)));
      }
      if foundAccount.Duplicate? {
        return Failure(IncorrectResultSize("Account", "customerId", Number(customerId)));
      }
      var accountNumber := foundAccount.key;
      var accountsDto := MapToAccountsDto(accountNumber, accounts[accountNumber]);
      r := Success(MapToCustomerDto(customer, accountsDto));
    }

    /** updateAccount: the account is saved before its owner is looked up. */
    method UpdateAccount(customerDto: CustomerDto) returns (r: Result<bool>)
      requires Valid()
      modifies this
      ensures Valid()
      ensures Lifecycle.Step(State(), r) == Lifecycle.UpdateAccount(old(State()), customerDto)
    {
      var isUpdated := false;
      if customerDto.accountsDto.Some? {
        var accountsDto := customerDto.accountsDto.value;
        if accountsDto.accountNumber !in accounts {
          return Failure(ResourceNotFound("Account", "AccountNumber", Number(accountsDto.accountNumber)));
        }
        var account := MapToAccounts(accountsDto, accounts[accountsDto.accountNumber]);
        accounts := accounts[accountsDto.accountNumber := account];
        var customerId := account.customerId;
        if customerId !in customers {
          return Failure(ResourceNotFound("Customer", "CustomerID", Number(customerId)));
        }
        var customer := MapToCustomer(customerDto, customers[customerId]);
        customers := customers[customerId := customer];
        isUpdated := true;
      }
      r := Success(isUpdated);
    }

    /** deleteAccount: the customer's accounts are deleted, then the customer. */
    method DeleteAccount(mobileNumber: string) returns (r: Result<bool>)
      requires Valid()
      modifies this
      ensures Valid()
      ensures Lifecycle.Step(State(), r) == Lifecycle.DeleteAccount(old(State()), mobileNumber)
    {
      var found := FindByMobileNumber(customers, mobileNumber);
      if found.Absent? {
        return Failure(ResourceNotFound("Customer", "mobileNumber", Text(mobileNumber)));
      }
      if found.Duplicate? {
        return Failure(IncorrectResultSize("Customer", "mobileNumber", Text(mobileNumber)));
      }
      var customerId := found.key;
      accounts := DeleteByCustomerId(accounts, customerId);
      customers := customers - {customerId};
      r := Success(true);
    }

    /** updateCommunicationStatus: a null account number is None. */
    method UpdateCommunicationStatus(accountNumber: Option<AccountNumber>) returns (r: Result<bool>)
      requires Valid()
      modifies this
      ensures Valid()
      ensures Lifecycle.Step(State(), r) == Lifecycle.UpdateCommunicationStatus(old(State()), accountNumber)
    {
      var isUpdated := false;
      if accountNumber.Some? {
        var n := accountNumber.value;
        if n !in accounts {
          return Failure(ResourceNotFound("Account", "AccountNumber", Number(n)));
        }
        var account := accounts[n].(communicationSw := true);
        accounts := accounts[n := account];
        isUpdated := true;
      }
      r := Success(isUpdated);
    }
  }
}
