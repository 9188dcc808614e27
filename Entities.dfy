/**
 * Records, transfer objects and error values of the accounts service, plus the
 * field copies done by CustomerMapper and AccountsMapper.
 */
module Entities {

  /** Key of the customer table (a generated Long in the service). */
  type CustomerId = int

  /** Key of the account table (a Long, generated by createNewAccount). */
  type AccountNumber = int

  /** A stored customer; its id is the key under which it is stored. */
  datatype Customer = Customer(name: string, email: string, mobileNumber: string)

  /** A stored account; its account number is the key under which it is stored. */
  datatype Account = Account(
    customerId: CustomerId,
    accountType: string,
    branchAddress: string,
    communicationSw: bool)

  /** The account part of a request or a response. */
  datatype AccountsDto = AccountsDto(accountNumber: AccountNumber, accountType: string, branchAddress: string)

  /** The customer part of a request or a response; a null accounts payload is None. */
  datatype CustomerDto = CustomerDto(
    name: string,
    email: string,
    mobileNumber: string,
    accountsDto: Option<AccountsDto>)

  /** The payload published on the communication channel after an account is created. */
  datatype AccountsMessage = AccountsMessage(
    accountNumber: AccountNumber,
    name: string,
    email: string,
    mobileNumber: string)

  /** The value of the key named in an error: a mobile number, or a numeric id. */
  datatype KeyValue = Text(text: string) | Number(number: int)

  /** The exceptions the service raises. */
  datatype ServiceError =
    | CustomerAlreadyExists(mobileNumber: string)
    | ResourceNotFound(resourceName: string, fieldName: string, fieldValue: KeyValue)
      /** A single-result query that found several rows (raised by the repository). */
    | IncorrectResultSize(resourceName: string, fieldName: string, fieldValue: KeyValue)

  datatype Option<T> = None | Some(value: T)

  /** A value, or the exception that ended the call. */
  datatype Result<T> = Success(value: T) | Failure(error: ServiceError)

  /** The end of a call that returns nothing. */
  datatype Outcome = Pass | Fail(error: ServiceError)

  /** Default account type given to every new account. */
  const SAVINGS: string := "Savings"

  /** Branch address given to every new account. */
  const ADDRESS: string := "123 Main Street, New York"

  /** Smallest generated account number. */
  const ACCOUNT_NUMBER_BASE: int := 1000000000

  /** Bound passed to the random draw: the draw lies in [0, ACCOUNT_NUMBER_SPAN). */
  const ACCOUNT_NUMBER_SPAN: int := 900000000

  /** A customer object as freshly allocated, before the mapper fills it. */
  const BlankCustomer: Customer := Customer("", "", "")

  /** CustomerMapper.mapToCustomer: overwrite the customer's fields from the request. */
  function MapToCustomer(dto: CustomerDto, customer: Customer): Customer
  {
    customer.(name := dto.name, email := dto.email, mobileNumber := dto.mobileNumber)
  }

  /** AccountsMapper.mapToAccounts: overwrite the editable account fields from the request. */
  function MapToAccounts(dto: AccountsDto, account: Account): Account
  {
    account.(accountType := dto.accountType, branchAddress := dto.branchAddress)
  }

  /** AccountsMapper.mapToAccountsDto. */
  function MapToAccountsDto(accountNumber: AccountNumber, account: Account): AccountsDto
  {
    AccountsDto(accountNumber, account.accountType, account.branchAddress)
  }

  /** CustomerMapper.mapToCustomerDto followed by setAccountsDto. */
  function MapToCustomerDto(customer: Customer, accountsDto: AccountsDto): CustomerDto
  {
    CustomerDto(customer.name, customer.email, customer.mobileNumber, Some(accountsDto))
  }
}
