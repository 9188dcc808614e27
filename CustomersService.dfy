/**
 * CustomersServiceImpl.fetchCustomerDetails: the customer and its account from
 * the two repositories, merged with what the loans and cards services answer.
 * The bodies the two remote clients return are opaque values passed in; the
 * calls the service issues are returned as a trace.
 */
module CustomersService {
  import opened Entities
  import opened Repository
  import Lifecycle

  /** A call to one of the two remote services, with the arguments the service passes. */
  datatype DownstreamCall = FetchLoanDetails(mobileNumber: string) | FetchCardDetails(mobileNumber: string)

  /** The merged profile; loansDto and cardsDto are the bodies of the two remote responses. */
  datatype CustomerDetailsDto<L, C> = CustomerDetailsDto(
    name: string,
    email: string,
    mobileNumber: string,
    accountsDto: AccountsDto,
    loansDto: L,
    cardsDto: C)

  /** What fetchCustomerDetails returns or raises, and the remote calls it made on the way, in order. */
  datatype Details<L, C> = Details(result: Result<CustomerDetailsDto<L, C>>, calls: seq<DownstreamCall>)

  /** CustomerMapper.mapToCustomerDetailsDto followed by the three setters. */
  function MapToCustomerDetailsDto<L, C>(customer: Customer, accountsDto: AccountsDto, loansDto: L, cardsDto: C)
    : CustomerDetailsDto<L, C>
  {
    CustomerDetailsDto(customer.name, customer.email, customer.mobileNumber, accountsDto, loansDto, cardsDto)
  }

  /** fetchCustomerDetails, reading the tables and never writing them. */
  function FetchCustomerDetails<L, C>(
    customers: map<CustomerId, Customer>,
    accounts: map<AccountNumber, Account>,
    mobileNumber: string,
    loansBody: L,
    cardsBody: C): (d: Details<L, C>)
    ensures CustomerIdsWithMobile(customers, mobileNumber) == {}
        <==> d.result == Failure(ResourceNotFound("Customer", "mobileNumber", Text(mobileNumber)))
    ensures |CustomerIdsWithMobile(customers, mobileNumber)| >= 2
        <==> d.result == Failure(IncorrectResultSize("Customer", "mobileNumber", Text(mobileNumber)))
    ensures forall id :: id in customers && CustomerIdsWithMobile(customers, mobileNumber) == {id} ==>
      && (AccountNumbersOf(accounts, id) == {} <==> d.result == Failure(ResourceNotFound("Account", "customerId", Number(id))))
      && (|AccountNumbersOf(accounts, id)| >= 2 <==> d.result == Failure(IncorrectResultSize("Account", "customerId", Number(id))))
    ensures d.result.Success? <==> exists id, n ::
      && id in customers && n in accounts
      && CustomerIdsWithMobile(customers, mobileNumber) == {id}
      && AccountNumbersOf(accounts, id) == {n}
    ensures d.result.Failure? <==> d.calls == []
    ensures d.result.Success? ==>
      && d.calls == [FetchLoanDetails(mobileNumber), FetchCardDetails(mobileNumber)]
      && d.result.value.loansDto == loansBody
      && d.result.value.cardsDto == cardsBody
      && exists id, n ::
        && id in customers && n in accounts
        && CustomerIdsWithMobile(customers, mobileNumber) == {id}
        && AccountNumbersOf(accounts, id) == {n}
        && d.result.value.name == customers[id].name
        && d.result.value.email == customers[id].email
        && d.result.value.mobileNumber == mobileNumber
        && d.result.value.accountsDto == AccountsDto(n, accounts[n].accountType, accounts[n].branchAddress)
  {
    match FindByMobileNumber(customers, mobileNumber)
    case Absent => Details(Failure(ResourceNotFound("Customer", "mobileNumber", Text(mobileNumber))), [])
    case Duplicate => Details(Failure(IncorrectResultSize("Customer", "mobileNumber", Text(mobileNumber))), [])
    case Unique(customerId) =>
      match FindByCustomerId(accounts, customerId)
      case Absent => Details(Failure(ResourceNotFound("Account", "customerId", Number(customerId))), [])
      case Duplicate => Details(Failure(IncorrectResultSize("Account", "customerId", Number(customerId))), [])
      case Unique(accountNumber) =>
        var accountsDto := MapToAccountsDto(accountNumber, accounts[accountNumber]);
        var details := MapToCustomerDetailsDto(customers[customerId], accountsDto, loansBody, cardsBody);
        Details(Success(details), [FetchLoanDetails(mobileNumber), FetchCardDetails(mobileNumber)])
  }

  /**
   * The profile fails exactly when fetchAccount fails, with the same error, and
   * otherwise carries the same customer and account as fetchAccount returns.
   */
  lemma DetailsAgreeWithFetchAccount<L, C>(
    customers: map<CustomerId, Customer>,
    accounts: map<AccountNumber, Account>,
    mobileNumber: string,
    loansBody: L,
    cardsBody: C)
    ensures
      var d := FetchCustomerDetails(customers, accounts, mobileNumber, loansBody, cardsBody).result;
      var a := Lifecycle.FetchAccount(customers, accounts, mobileNumber);
      && (d.Success? <==> a.Success?)
      && (d.Failure? ==> d.error == a.error)
      && (d.Success? ==>
            a.value == CustomerDto(d.value.name, d.value.email, d.value.mobileNumber, Some(d.value.accountsDto)))
  {
  }
}
