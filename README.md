# Withdrawal ledger and batched withdrawal events, in Dafny

This project models the `banking` package of a small account service. A
withdrawal is checked against a stored balance and applied. Each successful
withdrawal then becomes a JSON event. Events are queued, and every full group
of ten queued events is published to an SNS topic as one batch request.

Files (one module each):

- `wrappers.dfy` (`Wrappers`): `Option` and `Result`, which stand for Java's
  nullable values and exceptions.
- `withdrawal_result.dfy` (`WithdrawalResults`): the `WithdrawalResult` enum.
  It has its descriptions (`ToString`) and the predicates for client error,
  server error and success.
- `account.dfy` (`Accounts`): the `Account` entity as a class. It has a
  nullable `id`, an exact decimal `balance` and the guarded in-place
  `WithDraw`. `getId` and `getBalance` are the reading functions `GetId` and
  `GetBalance`.
- `account_service.dfy` (`AccountServices`): the ledger.
  - `Withdrawal` is a pure function that states the validation ladder over a
    store `map<int, real>`, with lemmas for each rung.
  - The class `AccountService` holds the repository as a `map` field and the
    identity counter that hands out ids. Its `Withdraw`, `Add` and `Balance`
    methods are proved against `Withdrawal` and the map.
- `sns_service.dfy` (`SnsServices`): `publishWithdrawal`. The class
  `SnsService` has:
  - the message queue as a `seq<string>` field;
  - the drain-ten-and-send `while` loop;
  - a ghost log `sent` of every batch request given to the asynchronous
    client;
  - a ghost history `enqueued` of every queued message.

  The pure functions `Batches` and `Remainder` say what one drain produces.
  The lemmas prove that nothing is lost, duplicated or reordered, that every
  batch holds exactly ten messages for the topic, and how the counts come out.
- `bank_account_controller.dfy` (`Controllers`): the REST controller.
  `withdraw` calls the ledger, then publishes on success or sets status 400
  or 500 on the servlet response. `add` and `balance` pass straight through.

Modelling choices:

- `BigDecimal` money is Dafny `real`. Both are exact, and `compareTo` and
  `subtract` agree with `<` and `-` on `real`. Ids (`Long`) are `int`.
- `AccountRepository` is the `accounts` map.
  - `findById` followed by the entity is modelled as building an `Account`
    with the named constructor `Stored`; this is how the store hands back a
    saved row.
  - `save` writes the entity's balance back into the map.
  - The IDENTITY id generation is the counter `nextId`. `Valid()` keeps it
    above every stored id, so a new id is always unused.
- `Account.withDraw` throws "Insufficient funds." when the balance is below
  the amount. This is modelled as `ok == false` with the balance unchanged.
  In `AccountService.Withdraw` the code asserts `ok`, which proves that this
  throw cannot happen on the service's path.
- The Jackson `ObjectMapper` is a total function
  `WithdrawalEvent -> Result<string, JsonProcessingError>`, supplied when the
  service is built. The model therefore covers every encoder, one that fails
  included. The topic ARN is a constant string given at the same time.
- `snsClient.publishBatch` is `PublishBatch`, which appends the request to
  the ghost log `sent`.
- `SnsService.Valid()` keeps fewer than ten messages in the queue between
  calls. The code asserts that the queue is below its capacity of 100 before
  each append. This proves that `LinkedBlockingQueue.add` never throws its
  "queue full" exception when calls do not overlap.
- The controller's three-way branch on the result is the pure function
  `ReactionTo`; the method acts on what it returns. The ledger never returns
  `ERR_UNKNOWN`, so the 500 branch is never taken from this controller. It is
  still stated and proved for the result that would take it.

Behaviour of the code worth knowing:

- `add` does not check the sign of the opening balance
  (AccountService.java:49-53): a negative balance is stored as given.
  `WithdrawalKeepsBalancesNonNegative` shows that withdrawals keep balances
  non-negative once they are.
- `balance` throws `NoSuchElementException` for an unknown id; the model
  returns `Err(NoSuchAccount(id))`.
- The queue is a `LinkedBlockingQueue` of capacity 100, and the code calls
  `add`, which throws when the queue is full; it does not block. The model
  proves that the queue never fills when calls do not overlap.
- The service can be built over a repository that already holds accounts:
  the constructor takes the stored accounts and the next id to hand out.

## Model

| member | source | states |
|---|---|---|
| `WithdrawalResults.Classification` | src/main/java/banking/enums/WithdrawalResult.java:22-35 | each result is in exactly one class: each of client error, server error and success holds iff the other two do not |
| `WithdrawalResults.ClientErrorsAreTheRejections` | src/main/java/banking/enums/WithdrawalResult.java:22-27 | a result is a client error iff it is neither SUCCESS nor ERR_UNKNOWN |
| `WithdrawalResults.DescriptionsDistinct` | src/main/java/banking/enums/WithdrawalResult.java:4-9 | two results with the same description are the same result, so `toString` is injective |
| `WithdrawalResults.SuccessDescription` | src/main/java/banking/enums/WithdrawalResult.java:9-20 | SUCCESS prints as "Withdrawal successful", and only a success prints that way |
| `Accounts.Account.constructor` | src/main/java/banking/model/Account.java:17-19 | a new account holds exactly the given balance and has no id yet |
| `Accounts.Account.Stored` | src/main/java/banking/model/Account.java:10-23 | an entity loaded from the store carries that row's id and balance |
| `Accounts.Account.WithDraw` | src/main/java/banking/model/Account.java:33-36 | succeeds iff balance >= amount; on success the balance drops by exactly the amount and is >= 0, whatever the sign of the amount; on failure nothing changes; the frame leaves `id` alone |
| `AccountServices.Withdrawal` | src/main/java/banking/service/AccountService.java:24-46 | SUCCESS iff 0 < amount <= the stored balance of a known id; success replaces only that balance, by balance − amount; every other outcome leaves the store as it was; ERR_UNKNOWN is never returned |
| `AccountServices.NegativeAmountRejected` | src/main/java/banking/service/AccountService.java:25-27 | a negative amount gives ERR_NEGATIVE_AMOUNT and the same store, whatever the id |
| `AccountServices.ZeroAmountRejected` | src/main/java/banking/service/AccountService.java:28-29 | a zero amount gives ERR_ZERO_AMOUNT and the same store |
| `AccountServices.UnknownAccountRejected` | src/main/java/banking/service/AccountService.java:31-34 | a positive amount for an id not in the store gives ERR_UNKNOWN_ACCOUNT and the same store |
| `AccountServices.InsufficientFundsRejected` | src/main/java/banking/service/AccountService.java:38-44 | a positive amount above the stored balance gives ERR_INSUFFICIENT_FUNDS and the same store |
| `AccountServices.CoveredWithdrawalSucceeds` | src/main/java/banking/service/AccountService.java:38-42 | 0 < amount <= balance gives SUCCESS, the same set of ids, exactly balance − amount for that id and no change to any other account |
| `AccountServices.WithdrawalKeepsBalancesNonNegative` | src/main/java/banking/service/AccountService.java:24-46 | if every balance is >= 0 before a withdrawal, every balance is >= 0 after it |
| `AccountServices.SecondOverdraftRefused` | src/main/java/banking/service/AccountService.java:36-44 | from a balance of 100, a first withdrawal of 60 succeeds, a second is refused for insufficient funds, and 40 remains |
| `AccountServices.AccountService.constructor` | src/main/java/banking/service/AccountService.java:19-21 | the service keeps the repository it is given, which may already hold accounts, and the identity counter is above every stored id |
| `AccountServices.AccountService.Withdraw` | src/main/java/banking/service/AccountService.java:24-46 | the result and the new repository are those of `Withdrawal` on the old repository; the entity's own guard never fails on this path; ids stay fresh |
| `AccountServices.AccountService.Add` | src/main/java/banking/service/AccountService.java:49-53 | returns an id not in the repository before, which now maps to the given balance; every other entry is unchanged |
| `AccountServices.AccountService.Balance` | src/main/java/banking/service/AccountService.java:56-62 | for a stored id returns its balance; for an unknown id fails with NoSuchAccount(id); changes nothing |
| `SnsServices.Remainder` | src/main/java/banking/service/SnsService.java:71-82 | what stays queued after draining holds fewer than SNS_BATCH_SIZE (10) messages |
| `SnsServices.BatchesFull` | src/main/java/banking/service/SnsService.java:71-77 | every batch the drain produces holds exactly 10 messages and is addressed to the topic ARN |
| `SnsServices.FullBatchesAt` | src/main/java/banking/service/SnsService.java:72-77 | in a log of full batches, the request at each position has exactly 10 entries and the topic ARN |
| `SnsServices.BatchesConserve` | src/main/java/banking/service/SnsService.java:71-78 | the sent batches' messages, in order, followed by what remains queued, are exactly the queue that was drained: FIFO, no loss, no duplication |
| `SnsServices.DrainCounts` | src/main/java/banking/service/SnsService.java:71 | a queue of p messages drains into p div 10 batches and leaves p mod 10 messages |
| `SnsServices.DrainLengths` | src/main/java/banking/service/SnsService.java:71-73 | the queue's length is 10 per batch sent plus what remains |
| `SnsServices.EntriesAppend` | src/main/java/banking/service/SnsService.java:71-78 | the messages of two request logs, one after the other, are the messages of the two logs concatenated |
| `SnsServices.PublishKeepsLog` | src/main/java/banking/service/SnsService.java:63-82 | if sent messages plus the queue equal everything queued so far, appending one message and draining keeps that equality (with the message added at the end), and keeps every sent request a full batch for the ARN |
| `SnsServices.SnsService.constructor` | src/main/java/banking/service/SnsService.java:35-45 | the queue starts empty, nothing has been sent, and the encoder and ARN are those given |
| `SnsServices.SnsService.PublishBatch` | src/main/java/banking/service/SnsService.java:74-78 | the request is appended to the log of requests handed to the asynchronous client |
| `SnsServices.SnsService.PublishWithdrawal` | src/main/java/banking/service/SnsService.java:47-83 | the event carries the amount, the account id and "SUCCESSFUL". If encoding fails, queue, log and history are unchanged. Otherwise exactly one encoded message joins the queue's tail, the batches of old queue + message go out in FIFO order to the ARN, and the queue becomes the remainder. So (p+1) div 10 batches are sent and (p+1) mod 10 messages stay. The queue never reaches its capacity of 100, and sent plus queued still equals everything queued |
| `Controllers.ReactionTo` | src/main/java/banking/controller/BankAccountController.java:38-44 | publish iff the result is a success; status 400 iff a client error; status 500 iff a server error; every result gets one of these |
| `Controllers.BankAccountController.constructor` | src/main/java/banking/controller/BankAccountController.java:24-27 | the controller keeps the given account service and SNS service, and is consistent when they are |
| `Controllers.BankAccountController.Withdraw` | src/main/java/banking/controller/BankAccountController.java:29-51 | the ledger moves as `Withdrawal` says. On SUCCESS the withdrawal is published once, with the same id and amount, and the status is left alone. On a client error the status is 400 and the SNS service is untouched. On a server error the status is 500 and the SNS service is untouched. The body is always the result's description |
| `Controllers.BankAccountController.Add` | src/main/java/banking/controller/BankAccountController.java:54-57 | returns what the account service's `add` returns: a fresh id now mapping to the balance |
| `Controllers.BankAccountController.Balance` | src/main/java/banking/controller/BankAccountController.java:60-63 | returns exactly the account service's lookup: the balance of a stored id, or NoSuchAccount(id) |

## Left out

- Concurrency: the model runs calls one at a time. It does not cover the
  thread safety of `LinkedBlockingQueue` or the atomicity of find-check-save
  across concurrent requests. The two-withdrawals-of-60 race is stated only
  for one call after the other (`SecondOverdraftRefused`).
- The asynchronous SNS client: its construction from the HTTP client adapter,
  the region and the credentials, and the `CompletableFuture` callback. The
  callback only logs; sending is the ghost log `sent`.
- Jackson serialisation: the encoder is a parameter, since its output format
  belongs to a foreign library.
- Logging (the log4j `StringMapMessage` calls) throughout.
- Spring wiring, JPA annotations, the HTTP client adapters, mock
  credentials, the AWS configuration provider, the application bootstrap and
  the service interfaces. The ARN is a constant string.
- The legacy `me.jordaan.BankAccountController` (SQL strings run through
  `JdbcTemplate`); this package replaced it.
- Null arguments. A null id with an amount <= 0 still gets
  ERR_NEGATIVE_AMOUNT or ERR_ZERO_AMOUNT, since the amount is checked first
  (AccountService.java:25-29); only the lookup at line 31 would throw on a
  null id, and the model has no null id to pass there. A null amount throws
  at the first comparison. `add(null)` throws only when the row is flushed
  into the non-nullable balance column (Account.java:14-15,
  AccountService.java:51); the model's balance is never null.
- `Long` overflow of generated ids: the id counter is an unbounded `int`.
- The scale of a `BigDecimal`: 30.0 and 30.00 are the same `real`. The model
  keeps the value, so every comparison and subtraction agrees with the code,
  but it cannot show the scale that `toString`, the JSON encoding and
  `balance`'s result would display.
- The text of the `NoSuchElementException` message ("No account with ID
  %d"): the error carries the id itself instead.
- `SnsServices.SnsService.PublishWithdrawal`: the counts are stated as
  `p + 1 == 10 * batchesSent + queued`, which with fewer than 10 queued is
  the div/mod statement; the div/mod form itself is `DrainCounts`.
