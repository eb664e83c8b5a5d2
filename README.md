# 31 Game round coordinator — a Dafny model

This project models the client-side round coordinator of the "31 Game", a
round-based number-guessing game whose rules run in an on-chain contract.
`TOGameService` checks local preconditions against freshly read contract
state before it spends gas on a transaction. `RoundInfoDTO` and
`TxReceiptDTO` turn the contract's return shapes into canonical records.

Files:

- `wrappers.dfy` — `Option` (a Java reference that may be null) and
  `Result` (a call that may throw).
- `round_info_dto.dfy` — module `RoundInfoDto`. It holds the round tuple, the
  Java `Map<String, Object>` of round info (`Entries`), the four-field record
  `RoundInfo`, and the factories `FromMap` and `FromTuple`.
- `tx_receipt_dto.dfy` — module `TxReceiptDto`. It holds the receipt, the
  six-field outcome record, and `FromReceipt`, which fills the record by
  starting from the no-argument constructor's defaults and applying six
  setters in turn.
- `togame_service.dfy` — module `TOGameService`:
  - The class `TOGameContract` models the game contract as its generated
    binding sees it. It holds what the read functions answer (`currentRound`,
    `getRoundInfo`, `getRoundPlayers`, `winners`, `owner`, ...) and `sent`,
    the log of write transactions sent so far.
  - `SubmitNumber`, `StartNewRound` and `SetWinnerPercentage` are methods that
    read the contract, run their guards and call `Send` at most once.
  - Each of those methods is specified by a pure decision function
    (`SubmitPlan`, `StartPlan`, `SetPercentagePlan`). The properties are
    proved about those functions.
  - The read passthroughs are methods that change nothing.

Each guard's `RuntimeException` is an error constructor: `StaleRound`,
`NumberOutOfRange`, `AmountOutOfRange`, `RoundNotOver` and `NotOwner`.
The service's `BigInteger` arguments may be null (a request field left out
arrives as null), so they are `Option<int>`:
- A null round is not equal to the live round, so it fails the round guard
  (TOGameService.java:64).
- A null number or amount throws a `NullPointerException` when it is compared
  (lines 69 and 74). A null percentage throws when the binding encodes it.
- Each of these throws is the error `NullArgument`, and nothing is sent.

The wager band is modelled exactly as the source writes it. The lower bound
is `10^18`, exclusive. The upper bound is `50^18`, inclusive. These are the
named constants `MinWagerExclusive` and `MaxWagerInclusive`.
The message at TOGameService.java:75 says "between 10 and 50". The model
follows the comparison on line 74: the lower bound is `10^18` units, which is
one token. `WagerBandAsWritten` shows the difference: two tokens pass and
fifty-one tokens pass.

The binding returns round info only as a `Tuple4`, from both `getRoundInfo`
and `rounds`. The service turns that tuple into a map, so the two paths to the
record are `fromTuple` and `fromMap`. `RoundInfoPathInvariance` proves that
they agree.

## Model

| member | source | states |
|---|---|---|
| `TOGameService.SubmitPlan` | src/main/java/com/healthcoin/java_eth_demo/service/TOGameService.java:61-80 | A submission is accepted exactly when the round equals the live current round, the number is 1, 2 or 3, and 10^18 < amount <= 50^18. Guards run round, then number, then amount, and the first failing guard decides the error. A null round is stale, and a null number or amount throws when its guard reaches it. An accepted submission carries the caller and all three arguments unchanged. |
| `TOGameService.SubmitNumber` | src/main/java/com/healthcoin/java_eth_demo/service/TOGameService.java:61-80 | Reads the live current round and decides as `SubmitPlan` does. It sends exactly one submit when every guard passes and sends nothing otherwise. No other contract state changes. |
| `TOGameService.StartPlan` | src/main/java/com/healthcoin/java_eth_demo/service/TOGameService.java:87-95 | Reads `isGameOver` through the keyed round-info map. It refuses with `RoundNotOver` exactly when `isGameOver` is false, and otherwise sends `startNewRound` signed by the caller. |
| `TOGameService.StartNewRound` | src/main/java/com/healthcoin/java_eth_demo/service/TOGameService.java:87-95 | Decides from the info of the round that `currentRound()` names. It sends one `startNewRound` when that round is over and nothing when it is not. |
| `TOGameService.SetPercentagePlan` | src/main/java/com/healthcoin/java_eth_demo/service/TOGameService.java:101-111 | The call is accepted exactly when the caller's address equals the owner's ignoring letter case and the percentage is not null. A caller that is not the owner fails with `NotOwner`. A null percentage from the owner throws when the binding encodes it. The new percentage is forwarded unchanged, with no range check despite the "(1-100)" comment. |
| `TOGameService.SetWinnerPercentage` | src/main/java/com/healthcoin/java_eth_demo/service/TOGameService.java:104-111 | Reads `owner()` and decides as `SetPercentagePlan` does. It sends one `setWinnerPercentage` only for the owner with a non-null percentage, and nothing otherwise. |
| `TOGameService.ToLower` | src/main/java/com/healthcoin/java_eth_demo/service/TOGameService.java:105 | Lower-casing keeps the length and maps each character through ASCII lower-casing. |
| `TOGameService.LowerEqualIff` | src/main/java/com/healthcoin/java_eth_demo/service/TOGameService.java:105 | Comparing the lower-cased addresses is the same as comparing them letter by letter ignoring case, in both directions. |
| `TOGameService.AuthorizationIgnoresCase` | src/main/java/com/healthcoin/java_eth_demo/service/TOGameService.java:105 | Two callers whose addresses differ only in letter case get the same authorization outcome. |
| `TOGameService.TOGameContract.Send` | src/main/java/com/healthcoin/java_eth_demo/service/TOGameService.java:79 | `.send()` appends exactly the one write call to the log and changes nothing else. |
| `TOGameService.RoundInfoMap` | src/main/java/com/healthcoin/java_eth_demo/service/TOGameService.java:122-131 | The map has exactly the keys `currentIndex`, `prizePool`, `isGameOver` and `winnerPercentage`. They hold tuple components 1 to 4 respectively, with values unchanged. |
| `TOGameService.GetRoundInfo` | src/main/java/com/healthcoin/java_eth_demo/service/TOGameService.java:122-131 | Returns the keyed map of the contract's tuple for that round id. Reading that map back with `fromMap` gives the record `fromTuple` gives. |
| `TOGameService.GetRoundPlayers` | src/main/java/com/healthcoin/java_eth_demo/service/TOGameService.java:140-142 | Returns the contract's player list for the round, in its order; an empty list is a valid answer. Nothing is sent. |
| `TOGameService.GetTokenAddress` | src/main/java/com/healthcoin/java_eth_demo/service/TOGameService.java:147-149 | Returns the contract's token address. Nothing is sent. |
| `TOGameService.GetCurrentRound` | src/main/java/com/healthcoin/java_eth_demo/service/TOGameService.java:154-156 | Returns the live current round. Nothing is sent. |
| `TOGameService.GetWinner` | src/main/java/com/healthcoin/java_eth_demo/service/TOGameService.java:161-163 | Returns the recorded winner. A round with no winner yields the zero address and not an error. |
| `TOGameService.GetWinnerPercentage` | src/main/java/com/healthcoin/java_eth_demo/service/TOGameService.java:168-170 | Returns the contract's default winner percentage. Nothing is sent. |
| `TOGameService.GetOwner` | src/main/java/com/healthcoin/java_eth_demo/service/TOGameService.java:175-177 | Returns the owner address as the contract spells it. Nothing is sent. |
| `TOGameService.GetContractBalance` | src/main/java/com/healthcoin/java_eth_demo/service/TOGameService.java:182-184 | Returns the contract's token balance. Nothing is sent. |
| `TOGameService.PowAdd` | src/main/java/com/healthcoin/java_eth_demo/service/TOGameService.java:74 | `pow` adds exponents: b^(m+n) = b^m * b^n. The bounds' values are computed with this. |
| `TOGameService.WagerBoundValues` | src/main/java/com/healthcoin/java_eth_demo/service/TOGameService.java:74 | `valueOf(10).pow(18)` is 10^18, one token. `valueOf(50).pow(18)` is 3814697265625 tokens. |
| `TOGameService.WagerBandAsWritten` | src/main/java/com/healthcoin/java_eth_demo/service/TOGameService.java:74-75 | The lower bound is strict: exactly one token is refused and one token plus one unit passes. The upper bound is inclusive. Two tokens and fifty-one tokens pass, although the message says "between 10 and 50". |
| `TOGameService.RoundInfoPathInvariance` | src/main/java/com/healthcoin/java_eth_demo/DTO/Response/RoundInfoDTO.java:21-38 | For every tuple, `fromMap` of the map that `getRoundInfo` builds succeeds and equals `fromTuple` of the tuple. |
| `RoundInfoDto.FromMap` | src/main/java/com/healthcoin/java_eth_demo/DTO/Response/RoundInfoDTO.java:21-28 | Succeeds exactly when `isGameOver` holds a Boolean and each numeric key is absent or holds an integer. Each field then comes from the key of the same name, and a missing numeric key leaves that field null. A missing `isGameOver` throws on unboxing. A value of the wrong class throws a cast error, and the first bad key in argument order decides which. |
| `RoundInfoDto.FromTuple` | src/main/java/com/healthcoin/java_eth_demo/DTO/Response/RoundInfoDTO.java:31-38 | `currentIndex`, `prizePool`, `isGameOver` and `winnerPercentage` are tuple components 1, 2, 3 and 4. No numeric field is null. |
| `RoundInfoDto.FromMapIgnoresOtherKeys` | src/main/java/com/healthcoin/java_eth_demo/DTO/Response/RoundInfoDTO.java:21-28 | Adding or changing an entry under any key other than the four leaves `fromMap`'s outcome unchanged. |
| `RoundInfoDto.FromMapFieldLocality` | src/main/java/com/healthcoin/java_eth_demo/DTO/Response/RoundInfoDTO.java:21-28 | When both maps convert, changing the entry under one key changes no field other than the one of that name. |
| `RoundInfoDto.FromTupleFieldLocality` | src/main/java/com/healthcoin/java_eth_demo/DTO/Response/RoundInfoDTO.java:31-38 | Changing one tuple component changes only the matching field. |
| `TxReceiptDto.FromReceipt` | src/main/java/com/healthcoin/java_eth_demo/DTO/Response/TxReceiptDTO.java:21-30 | The hash, block number, gas used, `from` and `to` are the receipt's. `success` is true exactly when the status is OK. Hash, block number, `from` and gas used all differ from the no-argument defaults, so every setter took effect. |
| `TxReceiptDto.StatusReading` | src/main/java/com/healthcoin/java_eth_demo/DTO/Response/TxReceiptDTO.java:24 | Status "0x1" reads as success and "0x0" as failure. |

## Left out

- Transport failures, timeouts and on-chain reverts of any read or write are not modelled. Every read answers, and every write that passes the guards is recorded in `sent`.
- `.send()` returns the node's `TransactionReceipt`. The service methods return the write call that was sent, and the receipt is a parameter of `FromReceipt` only.
- The contract's own state changes after a write are not modelled; for example, the round counter does not move after `startNewRound`. The service methods are specified to change only the write log.
- The second `currentRound()` read at TOGameService.java:65 only builds the error message. The model reads once. Error message texts are not modelled; each guard has its own error constructor, and `StaleRound` carries both round numbers.
- The signer is represented by its address string. Deriving `Credentials` from a private key and signing are cryptography and are not modelled. Contract loading and gas settings (`loadContract`, `DefaultGasProvider`) are configuration.
- `toLowerCase` is modelled for ASCII letters only, the alphabet addresses are written in. Locale- and Unicode-dependent case mapping is not modelled.
- `SetWinnerPercentage`: the ABI encoder rejects a percentage that is negative or at least 2^256. The model forwards any integer, as the service itself does.
- Read passthroughs take round ids as `nat`. The binding's `Uint256` encoder rejects a null or negative id, and that rejection is not modelled.
- `FromReceipt`: web3j's `isStatusOK` decodes the status as a hex quantity and treats a missing status as OK. The model compares with "0x1" only.
- `FromReceipt`: the receipt's hash, block number, `from` and gas used are taken to be present. Only `to` may be absent, as for a contract-creating transaction.
- The round tuple's components are unbounded naturals; the uint256 bound is not modelled.
- Player entries are a plain datatype. Their projection into the player record used by the HTTP layer is a two-field copy and is not modelled.
- Token approval, allowance and transfer (EthereumService.java), the HTTP controllers, configuration and the interactive console are not part of this model. They are network wrappers, transport or console input/output. Among them are the console's "start anyway?" prompt and its display checks.
