# Accounts service: account lifecycle and customer profile

A Dafny model of the business layer of the EazyBank accounts microservice.

- `AccountsServiceImpl` creates a customer together with a savings account. It also fetches, updates and deletes them, and marks an account as communicated.
- `CustomersServiceImpl` builds a customer's full profile. It joins the stored customer and account with the answers of the loans and cards services.

The two Spring Data repositories are modelled as maps:

- customers: customer id → `Customer(name, email, mobileNumber)`;
- accounts: account number → `Account(customerId, accountType, branchAddress, communicationSw)`.

Messages published through the stream bridge are appended to an outbox sequence. The id generator of the customer table is a counter, `nextCustomerId`.

Modules:

- `Entities` (Entities.dfy): records, request/response objects, errors, the constants of account creation, and the field copies done by the mappers.
- `Repository` (Repository.dfy): the derived queries `findByMobileNumber`, `findByCustomerId` and `deleteByCustomerId` as functions over the maps. Also the table invariants: at most one customer per mobile number, every account owned by a stored customer, at most one account per customer, account numbers in the generated range.
- `Lifecycle` (Lifecycle.dfy): each operation of `AccountsServiceImpl` as a pure transition from a `Store` to a `Step(store, result)`. Also the lemmas about these transitions: invariants kept, operations in sequence, idempotence.
- `AccountsService` (AccountsService.dfy): the class `AccountsServiceImpl`. It holds the two tables, the outbox and the id counter as fields and changes them step by step, in the order the Java code does. Every method is proved to end in the state, and with the answer, of its `Lifecycle` transition.
- `CustomersService` (CustomersService.dfy): `fetchCustomerDetails` as a function. The loans and cards response bodies are opaque inputs. The result also records the remote calls that were made.

Exceptions are values: `Result<T>` for methods that return something and `Outcome` for `createAccount`. `ServiceError` has three kinds: `CustomerAlreadyExists`, `ResourceNotFound(resource, field, value)`, and `IncorrectResultSize`. The last is what the repository raises when a single-result query matches several rows.

Assumptions about code that is not part of this model:

- `CustomerMapper.mapToCustomer` overwrites name, email and mobile number; the customer id is untouched.
- `AccountsMapper.mapToAccounts` overwrites account type and branch address. It keeps the account number, which is the key the account was found under, and it keeps the customer id and `communicationSw`.
- `mapToAccountsDto` copies the account number, type and branch address. `mapToCustomerDto` and `mapToCustomerDetailsDto` copy name, email and mobile number.
- The `Accounts` entity is not part of this model: a new `Accounts` starts with communicationSw false.
- `AccountsConstants` is not part of this model. `SAVINGS` and `ADDRESS` are fixed strings, and no property depends on their text.
- `CustomerRepository` is not part of this model. Its `findByMobileNumber` is taken to be a derived single-result query, like `findByCustomerId`.

Behaviour of the code worth knowing (the model follows the code):

- `updateAccount` saves the changed account before it looks up the owning customer (AccountsServiceImpl.java:106-112). When that lookup fails, the account change stays. `Lifecycle.UpdateAccountFindsOwner` shows this failure cannot happen while every account references a stored customer.
- `updateAccount` copies the request's mobile number onto the customer without checking it against other customers. So the rule "at most one customer per mobile number" is kept by `createAccount` and `deleteAccount`, but not by `updateAccount`; `Lifecycle.UpdateAccountCanShareMobile` gives a concrete case.
- `createAccount` does not check that the drawn account number is free (AccountsServiceImpl.java:68-70). A drawn number that is already taken replaces the stored account (`Lifecycle.CreateAccountMayReplaceAccount`), so account numbers are not guaranteed unique.
- `createAccount` saves the customer, then the account, then sends the message; no step is undone when a later one fails. `deleteAccount` deletes the accounts before the customer (AccountsServiceImpl.java:132-133).
- `fetchCustomerDetails` calls the loans client with the mobile number only (CustomersServiceImpl.java:47), while the client declares a correlation id as well (LoansFeignClient.java:14-15). The model's call trace records the mobile number only.
- `AccountsRepository` is declared over the entity `Account` (AccountsRepository.java:3,12), while the service stores `Accounts` (AccountsServiceImpl.java:7). The model has one account record.
- `IAccountsService` declares only create, fetch and update (IAccountsService.java:10-22), while the implementation also marks `deleteAccount` and `updateCommunicationStatus` as overrides. The model treats all five as operations of the service.

## Model

| member | source | states |
|---|---|---|
| `Repository.FindByMobileNumber` | src/main/java/com/easybank/accounts/service/impl/AccountsServiceImpl.java:42 | no row iff no stored customer has the mobile number; a unique hit is the only customer with it; several hits are reported as such |
| `Repository.FindByCustomerId` | src/main/java/com/easybank/accounts/repository/AccountsRepository.java:13 | no row iff no account has the customer id; a unique hit is the only account of that customer; several hits are reported as such |
| `Repository.DeleteByCustomerId` | src/main/java/com/easybank/accounts/repository/AccountsRepository.java:15-17 | exactly the accounts of other customers remain, unchanged |
| `Repository.UniqueMobileLookup` | src/main/java/com/easybank/accounts/service/impl/AccountsServiceImpl.java:83-84 | while mobile numbers are unique, looking up a stored customer's mobile number finds that customer |
| `Lifecycle.CreateNewAccount` | src/main/java/com/easybank/accounts/service/impl/AccountsServiceImpl.java:65-74 | the generated account number lies in [1000000000, 1899999999] |
| `Lifecycle.CreateAccount` | src/main/java/com/easybank/accounts/service/impl/AccountsServiceImpl.java:38-59 | fails iff some customer has the mobile number, and then changes nothing; with exactly one such customer it fails with CustomerAlreadyExists; on success it adds one customer with a fresh id, saves a SAVINGS account at the drawn number for that id with communicationSw false, and appends one message with that number and the customer's name, email and mobile number |
| `Lifecycle.FetchAccount` | src/main/java/com/easybank/accounts/service/impl/AccountsServiceImpl.java:80-91 | not-found for the customer iff no customer has the mobile number; not-found for the account iff the sole customer owns no account; several-rows errors iff several customers or accounts match; succeeds iff exactly one customer has the number and it owns exactly one account, returning that customer's fields and that account |
| `Lifecycle.UpdateAccount` | src/main/java/com/easybank/accounts/service/impl/AccountsServiceImpl.java:97-119 | false and no change without an accounts payload; not-found and no change for an unknown account number; otherwise the account's type and branch are overwritten and stay overwritten even when the owner lookup then fails; with the owner found, its name, email and mobile are overwritten and the answer is true |
| `Lifecycle.DeleteAccount` | src/main/java/com/easybank/accounts/service/impl/AccountsServiceImpl.java:125-136 | not-found and no change when no customer has the mobile number; succeeds (with true) iff exactly one has it, and then that customer and all its accounts are gone and nothing else changes |
| `Lifecycle.UpdateCommunicationStatus` | src/main/java/com/easybank/accounts/service/impl/AccountsServiceImpl.java:142-154 | false and no change for a null number; not-found and no change for an unknown number; otherwise true, and only that account's communicationSw becomes true |
| `Lifecycle.CreateAccountKeepsConsistent` | src/main/java/com/easybank/accounts/service/impl/AccountsServiceImpl.java:42-49 | createAccount keeps ids fresh, accounts owned by stored customers, one account per customer, account numbers in range, and unique mobile numbers |
| `Lifecycle.UpdateAccountKeepsConsistent` | src/main/java/com/easybank/accounts/service/impl/AccountsServiceImpl.java:106-114 | updateAccount keeps the account/customer invariants (not mobile uniqueness) |
| `Lifecycle.UpdateAccountFindsOwner` | src/main/java/com/easybank/accounts/service/impl/AccountsServiceImpl.java:109-115 | when every account references a stored customer, updating a stored account always succeeds with true |
| `Lifecycle.UpdateAccountCanShareMobile` | src/main/java/com/easybank/accounts/service/impl/AccountsServiceImpl.java:113-114 | a consistent store with unique mobile numbers where a successful update leaves two customers with one mobile number |
| `Lifecycle.DeleteAccountKeepsConsistent` | src/main/java/com/easybank/accounts/service/impl/AccountsServiceImpl.java:132-133 | deleteAccount keeps all invariants, including unique mobile numbers |
| `Lifecycle.UpdateCommunicationStatusKeepsConsistent` | src/main/java/com/easybank/accounts/service/impl/AccountsServiceImpl.java:149-150 | updateCommunicationStatus keeps all invariants |
| `Lifecycle.UpdateCommunicationStatusIdempotent` | src/main/java/com/easybank/accounts/service/impl/AccountsServiceImpl.java:143-154 | a second call with the same number leaves the store as the first left it and answers the same |
| `Lifecycle.FetchAfterCreate` | src/main/java/com/easybank/accounts/service/impl/AccountsServiceImpl.java:39-91 | after a successful create, fetching by the same mobile number returns the request's name, email and mobile with the new account number, SAVINGS and the fixed address |
| `Lifecycle.CreateAgainFails` | src/main/java/com/easybank/accounts/service/impl/AccountsServiceImpl.java:42-46 | after a successful create, a second create with the same mobile number fails with CustomerAlreadyExists and changes nothing |
| `Lifecycle.FetchAfterDelete` | src/main/java/com/easybank/accounts/service/impl/AccountsServiceImpl.java:126-136 | after a successful delete, fetching by that mobile number fails with customer not-found, whatever other customers share numbers |
| `Lifecycle.CreateAccountMayReplaceAccount` | src/main/java/com/easybank/accounts/service/impl/AccountsServiceImpl.java:68-70 | a drawn number that is already taken replaces the stored account: the account count stays the same and the number now belongs to the new customer |
| `AccountsService.AccountsServiceImpl.constructor` | src/main/java/com/easybank/accounts/service/impl/AccountsServiceImpl.java:24-33 | starts from empty tables and outbox, satisfying Valid, Consistent and unique mobile numbers |
| `AccountsService.AccountsServiceImpl.SaveNewCustomer` | src/main/java/com/easybank/accounts/service/impl/AccountsServiceImpl.java:48 | saving a new customer gives it an id no stored customer or account uses |
| `AccountsService.AccountsServiceImpl.SendCommunication` | src/main/java/com/easybank/accounts/service/impl/AccountsServiceImpl.java:54-59 | appends exactly one message with the account number and the customer's name, email and mobile number |
| `AccountsService.AccountsServiceImpl.CreateAccount` | src/main/java/com/easybank/accounts/service/impl/AccountsServiceImpl.java:38-52 | ends in the state and outcome of Lifecycle.CreateAccount |
| `AccountsService.AccountsServiceImpl.FetchAccount` | src/main/java/com/easybank/accounts/service/impl/AccountsServiceImpl.java:80-91 | changes nothing and returns what Lifecycle.FetchAccount gives |
| `AccountsService.AccountsServiceImpl.UpdateAccount` | src/main/java/com/easybank/accounts/service/impl/AccountsServiceImpl.java:97-119 | ends in the state and answer of Lifecycle.UpdateAccount, including the saved account on a failed owner lookup |
| `AccountsService.AccountsServiceImpl.DeleteAccount` | src/main/java/com/easybank/accounts/service/impl/AccountsServiceImpl.java:125-136 | ends in the state and answer of Lifecycle.DeleteAccount |
| `AccountsService.AccountsServiceImpl.UpdateCommunicationStatus` | src/main/java/com/easybank/accounts/service/impl/AccountsServiceImpl.java:142-154 | ends in the state and answer of Lifecycle.UpdateCommunicationStatus |
| `CustomersService.FetchCustomerDetails` | src/main/java/com/easybank/accounts/service/impl/CustomersServiceImpl.java:34-55 | customer not-found iff no customer has the mobile number; account not-found iff the sole customer owns no account; several-rows errors iff several customers or accounts match; succeeds iff exactly one customer has the number and it owns exactly one account; no remote call on failure; on success the customer's fields, its account, exactly the loans and cards bodies, and one loans call then one cards call, each with the mobile number |
| `CustomersService.DetailsAgreeWithFetchAccount` | src/main/java/com/easybank/accounts/service/impl/CustomersServiceImpl.java:37-45 | the profile fails exactly when fetchAccount fails, with the same error, and otherwise has the same customer and account |

## Left out

- The Feign clients: HTTP calls, the correlation-id header, timeouts and fallbacks. Their response bodies are opaque inputs of `FetchCustomerDetails`.
- Stream bridge delivery and the result of `send`, which the code ignores. Logging is also left out. Each send is one outbox entry.
- Spring Data/JPA mechanics: transactions, `@Modifying`, and how ids are generated. New customer ids come from a counter that never repeats an id.
- Customer metadata columns (creation timestamp, created-by, and so on): the code shown neither reads nor writes them.
- `AccountsServiceImpl.CreateAccount`: `new Random().nextInt(900000000)` is the parameter `randomDraw`, required to be in [0, 900000000). These are the values `nextInt` can return.
- `Repository.FindByMobileNumber`: `CustomerRepository` is not part of this model. When several customers share a mobile number, the model raises `IncorrectResultSize`, which is what a Spring Data single-result query does.
- `Lifecycle.UpdateAccount`: a null account number inside the accounts payload is not modelled. Account numbers in requests are always present.
- `ErrorResponseDto` and the translation of errors to HTTP responses: no logic beyond building a record.
- Concurrent requests: the code shown is sequential.
