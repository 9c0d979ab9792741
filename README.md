# Atom Smart Wallet: the ERC-4337 client core in Dafny

This project models the client side of the Atom Smart Wallet. The wallet is a
browser wallet for ERC-4337 smart accounts on an EntryPoint v0.7 chain. The
model covers four parts:

- **The user-operation builder** (`UserOperationService`,
  `src/services/userOperation.ts`). It covers:
  - the gas-estimation policy: 130 % and 110 % integer margins, with fixed
    fallbacks of 180000 and 100000;
  - the nonce plus its offset;
  - the fixed pre-verification gas;
  - packing two 16-byte quantities into one 32-byte word, for
    `accountGasLimits` and `gasFees`;
  - the fee fallbacks of 20 and 2 gwei;
  - the 84-byte `paymasterAndData` blob of the packed user operation of
    EIP-4337 (EntryPoint v0.7 `PackedUserOperation`).
- **The bundler client** (`BundlerClient`, `src/lib/services/userOperation.ts`).
  It covers:
  - the choice between the `execute` and `executeBatch` call;
  - the request for a bundler-built operation, and signing it;
  - single submission behind a health check;
  - the batch protocol: health check, then one registration per operation
    under one batch id, stopping at the first refusal, then exactly one
    `/submitBatch` trigger.
- **The contract helpers** (`Contracts`, `src/lib/services/contracts.ts`). They
  cover:
  - the `.units` name suffix;
  - deployed-account detection from the code at the counterfactual address;
  - the name-or-address fallback;
  - the name availability query;
  - the event checks after account creation;
  - the ordered guards of `sendEthToAAWallet`.
- **The chat agent** (`ChatAgent`, `src/lib/agents/TransactionAgent.ts`). It
  covers:
  - username resolution that refuses the zero address;
  - recipient classification;
  - amount sanitising;
  - extraction of the first `{…}` block of a model reply;
  - fence stripping and trimming;
  - the choice between the `send_eth` and `fund_account` tools.

Every collaborator the code cannot see is an input of the model. That covers
RPC calls, contract calls, `fetch`, the signer, the ABI encoder, the language
model and `JSON.parse`. A collaborator's input is either a value of type
`Rpc<T>` (`Answer(value)` or `Threw(message)`) or a function from the call's
arguments to such a value. Each thrown `Error` is its message string. A step
that may throw returns a `Result`.

Byte strings are `seq<uint8>`. The hex strings `''` and `0x` are both the
empty sequence. Quantities are unbounded naturals. A field's byte width is
stated with `HexBytes.FitsIn(n, len)`, which is proved equivalent to
`n < 256^len`. `ethers.utils.hexZeroPad` throws on a negative quantity and on
one too wide. Its message starts with the reason (`invalid hex string` or
`value out of range`) and goes on with the argument and the library version.
The model's error is the reason alone, so its contracts state that the error
starts with it.

The bundler methods return the HTTP requests they issue as a trace, in
order.

Files:

- `common.dfy`: `Option`, `Result`, `Rpc`, prefix and suffix predicates.
- `hex_bytes.dfy`: big-endian bytes and `hexZeroPad`.
- `user_operation_service.dfy`: the builder.
- `bundler_client.dfy`: the bundler client.
- `contracts.dfy`: the contract helpers.
- `transaction_agent.dfy`: the chat agent.

## Model

| member | source | states |
|---|---|---|
| HexBytes.ZeroPad | src/services/userOperation.ts:63 | padding succeeds iff the quantity is non-negative, the width is positive and the quantity fits the width, and then gives `len` bytes reading back as the quantity; a negative quantity fails with an error starting with `invalid hex string`; a too-wide quantity, or any quantity at width 0 (zero prints as the one byte `0x00`), fails with an error starting with `value out of range` |
| HexBytes.PadLeft | src/services/userOperation.ts:89-92 | padding a byte string succeeds iff it is at most `len` bytes; the result is `len` bytes ending in the input, with the same value, and the input itself when it is exactly `len` bytes; a longer input fails with an error starting with `value out of range` |
| UserOperationService.WithMargin | src/services/userOperation.ts:23 | `mul(p).div(100)` is the largest whole amount not above `gas*p/100`, and a margin of 100 % or more never lowers the gas |
| UserOperationService.EstimateVerificationGas | src/services/userOperation.ts:11-28 | 180000 when the operation has no paymaster data or estimation throws; otherwise the estimate scaled by 130/100, rounded down |
| UserOperationService.EstimateCallGas | src/services/userOperation.ts:30-47 | 100000 when estimation throws; otherwise the estimate scaled by 110/100 without paymaster data and by 130/100 with it; never below the estimate |
| UserOperationService.PackWord | src/services/userOperation.ts:79-92 | packing succeeds iff both halves fit 16 bytes; the word is then 32 bytes and unpacks to exactly (hi, lo) |
| UserOperationService.UnpackWord | src/services/userOperation.ts:89-92 | each half of a 32-byte word is a quantity that fits 16 bytes |
| UserOperationService.UnpackWordRoundTrip | src/services/userOperation.ts:89-92 | every 32-byte word is the packing of its two halves (pack after unpack is the identity) |
| UserOperationService.PackWordValue | src/services/userOperation.ts:89-92 | read as a 256-bit number, the packed word is `hi * 2^128 + lo` |
| UserOperationService.FieldConstantsFit | src/services/userOperation.ts:96-102 | the 20 and 2 gwei default fees, the 180000 fallback and the paymaster limits 3000000 and 1000000 all fit a 16-byte half, so padding them to 16 bytes never fails |
| UserOperationService.PreVerificationGasFits | src/services/userOperation.ts:56-67 | both pre-verification gas values fit the 32-byte field |
| UserOperationService.PaymasterBlobUnique | src/services/userOperation.ts:137-142 | the 84-byte blob (address, 16-byte 3000000, 16-byte 1000000, 32 zero bytes) is determined by the address alone |
| UserOperationService.PaymasterAndData | src/services/userOperation.ts:133-142 | the composed data is that 84-byte blob for the given address |
| UserOperationService.DraftEstimates | src/services/userOperation.ts:61-75 | on the draft, whose paymaster data is `0x`, verification gas is 180000 whatever the estimate, and call gas is the 110 % figure or 100000 |
| UserOperationService.AccountGasLimits | src/services/userOperation.ts:74-92 | succeeds iff both estimated limits fit 16 bytes; the 32-byte word unpacks to (verification gas, call gas) |
| UserOperationService.GasFees | src/services/userOperation.ts:95-114 | succeeds iff both fees fit 16 bytes; the 32-byte word unpacks to (max fee, priority fee), where an absent fee takes its 20 or 2 gwei default |
| UserOperationService.DraftUserOperation | src/services/userOperation.ts:52-71 | the draft carries the 32-byte nonce equal to the chain nonce plus the offset and the 32-byte pre-verification gas (200000 with a paymaster, 100000 without); every other field is `0x`; a negative nonce fails with an error starting with `invalid hex string` |
| UserOperationService.CreateUserOperation | src/services/userOperation.ts:49-154 | returns iff the nonce answered and fits 32 bytes, the draft call gas fits 16 bytes and the fee data answered and both fees fit 16 bytes; a nonce error and a `getFeeData` error are re-thrown unchanged, and a negative nonce fails with an error starting with `invalid hex string`; the result has verification gas 180000, the draft call gas, the packed fees, empty `initCode` and `signature`, and the paymaster blob exactly when a paymaster is requested and its configured address is valid |
| BundlerClient.FirstData | src/lib/services/userOperation.ts:33 | the first data entry, or empty bytes when there is none |
| BundlerClient.SelectCall | src/lib/services/userOperation.ts:29-39 | `executeBatch` iff the batch flag holds and targets and values are present; the batch data list has one entry per target, each the first data entry; otherwise `execute(target, value, data or 0x)` |
| BundlerClient.Detail | src/lib/services/userOperation.ts:108 | the body's `error` when non-empty, else the status text |
| BundlerClient.CheckBundlerHealth | src/lib/services/userOperation.ts:166-173 | healthy iff `/health` answered with an ok status; a rejected `fetch` means unhealthy, never an error |
| BundlerClient.Rejection | src/lib/services/userOperation.ts:106-109 | a refused POST fails with the fetch error, the JSON error of the body, or the prefix followed by the detail |
| BundlerClient.Outcome | src/lib/services/userOperation.ts:106-111 | a POST succeeds iff accepted with a parsable body, and then yields that body |
| BundlerClient.CreateUserOperation | src/lib/services/userOperation.ts:17-88 | a failed encoding sends nothing; otherwise exactly one create request carrying the encoded call; an unreachable bundler gives the fetch error and a non-ok reply fails with `Failed to create UserOperation:` and the reply text; a body that does not parse, a hash error and a signing error are each returned unchanged, and a body without `userOp` fails with the `signature` TypeError; success iff the encoding, the reply, the body, the `userOp`, the hash and the signature are all there, and then the returned operation is the bundler's with the signature over its entry-point hash |
| BundlerClient.SubmitUserOperation | src/lib/services/userOperation.ts:90-116 | an unhealthy bundler gets no POST and an error; otherwise exactly one POST, whose outcome is the result: a failed fetch gives its own error, a refused reply whose body is not JSON gives the parse error, any other refusal fails with `Bundler error:` and the detail, and an accepted reply gives its body |
| BundlerClient.Registrations | src/lib/services/userOperation.ts:130-137 | one registration per operation, in order, all under the same batch id |
| BundlerClient.FirstRejected | src/lib/services/userOperation.ts:139-142 | the index of the first refused registration: every earlier one was accepted |
| BundlerClient.SubmitUserOperationBatch | src/lib/services/userOperation.ts:118-164 | the requests issued and the result are those of the batch protocol: health check, registrations up to the first refusal, then the trigger only when none was refused |
| BundlerClient.FirstRejectedIs | src/lib/services/userOperation.ts:130-143 | the first refused position is unique |
| BundlerClient.BatchTraceShape | src/lib/services/userOperation.ts:121-152 | the trace starts with the health check; each POST is `ops[i-1]` under the batch id; `/submitBatch` appears iff healthy and all were accepted, and then once, last |
| BundlerClient.BatchStopsAtFirstRejection | src/lib/services/userOperation.ts:139-142 | after the first refusal at k nothing more is posted (the trace has k+2 requests) and that refusal is the error |
| BundlerClient.BatchSuccess | src/lib/services/userOperation.ts:146-159 | a batch returns only when healthy, every registration was accepted and the trigger was accepted, and it returns the trigger's body |
| BundlerClient.EmptyBatch | src/lib/services/userOperation.ts:130-152 | with no operations the trigger is sent right after the health check |
| Contracts.WithUnitsSuffix | src/lib/services/contracts.ts:65-67 | the result ends in `.units` and extends the input; it equals the input iff the input already ends in `.units`, else it is input + `.units` |
| Contracts.WithUnitsSuffixIdempotent | src/lib/services/contracts.ts:118-120 | normalising twice equals normalising once |
| Contracts.ValidUsernameGetsSuffix | src/lib/services/contracts.ts:65-67 | a name matching `^[a-z0-9]+$` always gets the suffix appended |
| Contracts.ResolveAccountToUsername | src/lib/services/contracts.ts:40-60 | the stored name when it is non-empty; the account address when it is empty or the call throws; never empty for a non-empty address |
| Contracts.IsUsernameAvailable | src/lib/services/contracts.ts:62-76 | the registry is asked about the suffixed name, and its answer or its error (re-thrown) is the result |
| Contracts.AvailabilityIgnoresSuffix | src/lib/services/contracts.ts:65-70 | asking for `name` or for its suffixed form gives the same answer |
| Contracts.GetExistingAccount | src/lib/services/contracts.ts:78-94 | only an error getting the signer's address escapes; otherwise the result is the computed address iff the code there is longer than two characters, and null on every other outcome or error |
| Contracts.FindEvent | src/lib/services/contracts.ts:129-130 | the index of the first receipt event with the name, or none when no event has it |
| Contracts.CreatedAccount | src/lib/services/contracts.ts:104-105 | the account of the first `AccountCreated` event of the receipt (events after it are ignored), and undefined when the receipt has no such event |
| Contracts.CreateAccount | src/lib/services/contracts.ts:96-110 | succeeds iff the signer and the transaction answered, with the account of the first `AccountCreated` event (or undefined); errors are re-thrown unchanged |
| Contracts.CreateAccountWithName | src/lib/services/contracts.ts:112-155 | the factory call gets the suffixed name; a receipt without `AccountCreated` fails with the source's message; success always returns that event's account, and a receipt with both events always succeeds |
| Contracts.MissingNameEventStillCreates | src/lib/services/contracts.ts:140-150 | without `NameRegistered`, any registry answer (empty included) still returns the account; only a registry error fails |
| Contracts.CreateAccountWithNameIgnoresSuffix | src/lib/services/contracts.ts:118-123 | signing up as `name` or as `name.units` is the same call |
| Contracts.TransferGuard | src/lib/services/contracts.ts:175-197 | checked in order: a missing provider fails first, then an amount ≤ 0; errors of `parseEther`, `getAddress` and `getBalance` pass through unchanged; a balance below the amount fails with `Insufficient balance in EOA wallet`, and only then; passing means 0 < amount ≤ balance |
| Contracts.SendEthToAAWallet | src/lib/services/contracts.ts:167-228 | a transfer of exactly the parsed amount to the smart account is submitted iff the guards pass; success iff it was submitted and its receipt status is non-zero; every failure carries the `ETH gönderme işlemi başarısız: ` prefix |
| Contracts.SentOnlyWhenFunded | src/lib/services/contracts.ts:175-204 | a transfer is submitted only with a provider, to the smart account, and with 0 < amount ≤ balance |
| ChatAgent.SanitizeAmount | src/lib/agents/TransactionAgent.ts:57 | the result is the input with exactly the characters other than ASCII digits and dots taken out: it is a subsequence of the input made only of digits and dots, equals an input already made of them, and a single other character gives the empty string |
| ChatAgent.SanitizeAmountIdempotent | src/lib/agents/TransactionAgent.ts:93 | sanitising twice equals sanitising once |
| ChatAgent.SanitizeAmountConcat | src/lib/agents/TransactionAgent.ts:57 | sanitising distributes over concatenation, so the kept characters keep their order |
| ChatAgent.FormatAmount | src/lib/agents/TransactionAgent.ts:53-60 | a number keeps its text, a string gives exactly its sanitised form, and any other JSON value fails with `Invalid amount format` |
| ChatAgent.LeadingDigits | src/lib/agents/TransactionAgent.ts:101 | the longest all-digit prefix: the next character, if any, is not a digit |
| ChatAgent.Mantissa | src/lib/agents/TransactionAgent.ts:101 | the digits `parseFloat` reads: the leading integer digits, then, when a dot follows them, the leading digits of the text after the dot, and nothing else |
| ChatAgent.FindChar | src/lib/agents/TransactionAgent.ts:131 | the first position at or after `from` holding the character, or none when no later position holds it |
| ChatAgent.BlockFrom | src/lib/agents/TransactionAgent.ts:131 | the leftmost `{…}` match at or after `from`; no match starts before it |
| ChatAgent.JsonBlock | src/lib/agents/TransactionAgent.ts:131-133 | a block exists iff the pattern matches somewhere; it is the substring of the reply at the leftmost match, no match starts earlier, it starts with `{`, ends with its only `}`, and has length ≥ 3 |
| ChatAgent.ExtractJsonFromResponse | src/lib/agents/TransactionAgent.ts:129-140 | the parsed block, or null when there is no block or it does not parse |
| ChatAgent.RemoveAll | src/lib/agents/TransactionAgent.ts:145-146 | the result is a subsequence of the text, shorter by a whole number of pattern lengths; a text without the pattern is unchanged |
| ChatAgent.RemoveFencesLeavesNone | src/lib/agents/TransactionAgent.ts:146 | after removing "```" left to right, no three back-ticks in a row remain |
| ChatAgent.Trim | src/lib/agents/TransactionAgent.ts:147 | the result is a slice of the text with only white space outside it and no white space at either of its ends; an already trimmed text is unchanged |
| ChatAgent.FormatResponse | src/lib/agents/TransactionAgent.ts:142-148 | the output is a subsequence of the reply, holds no "```" and has no white space at either end |
| ChatAgent.FormatResponseDropsToolCode | src/lib/agents/TransactionAgent.ts:145 | a leading "```tool_code" tag is removed: the reply with it is shown as the reply without it |
| ChatAgent.FormatResponseUnwrapsToolCode | src/lib/agents/TransactionAgent.ts:142-148 | a "```tool_code" block around a fence-free, trimmed, non-empty text is shown as exactly that text |
| ChatAgent.FormatResponseFixpoint | src/lib/agents/TransactionAgent.ts:142-148 | a reply without "```" and without white space at its ends is shown exactly as it is |
| ChatAgent.FormatResponseIdempotent | src/lib/agents/TransactionAgent.ts:142-148 | formatting twice equals formatting once |
| ChatAgent.TransactionAgent.constructor | src/lib/agents/TransactionAgent.ts:12-22 | the agent keeps the smart account and the signer-backed collaborators it was given |
| ChatAgent.TransactionAgent.ResolveUsername | src/lib/agents/TransactionAgent.ts:24-33 | never returns the empty or zero address; succeeds iff the registry gives another address for the suffixed name; otherwise fails naming the name as typed |
| ChatAgent.TransactionAgent.RecipientAddress | src/lib/agents/TransactionAgent.ts:45-50 | a recipient without `0x` is resolved as a username; one with `0x` is used only when it is a valid address, else `Invalid Ethereum address` |
| ChatAgent.TransactionAgent.SendEth | src/lib/agents/TransactionAgent.ts:40-76 | a payment is made iff the recipient resolves and the amount formats, and it goes to the resolved address with the formatted amount; an invalid `0x` address fails before anything is sent; every error carries the `İşlem başarısız: ` prefix |
| ChatAgent.TransactionAgent.FundAccount | src/lib/agents/TransactionAgent.ts:81-124 | an amount that does not parse as positive fails with `Miktar sıfırdan büyük olmalıdır` before anything is sent; otherwise the transfer is exactly the one `sendEthToAAWallet` makes with the parsed amount, so it goes only to the smart account with 0 < amount ≤ balance; every error carries the `Fonlama başarısız: ` prefix |
| ChatAgent.TransactionAgent.RunTool | src/lib/agents/TransactionAgent.ts:182-187 | `send_eth` runs iff a recipient is present, else `fund_account`; `send_eth` pays exactly the resolved address and the formatted amount, or nothing when either fails, and succeeds iff that payment went through; `fund_account` submits exactly the transfer `sendEthToAAWallet` makes with an amount parsing as positive, and succeeds iff that call does; the tool's text is formatted and its error (a failed recipient lookup, a non-positive amount) gets the `Agent hatası: ` prefix on top of the tool's own |
| ChatAgent.TransactionAgent.ProcessMessage | src/lib/agents/TransactionAgent.ts:150-196 | a reply with a parsable block runs `send_eth` iff it names a recipient and `fund_account` otherwise, and the payment or transfer and the success are exactly those of the tool on the parsed details; any other reply is shown formatted; every output is fence-free and trimmed; every error gets the `Agent hatası: ` prefix |

## Left out

- The React UI, hooks and store, `src/lib/services/localWallet.ts` and `public/sw.js` are not part of this model. They are presentation, browser state and browser APIs. From the UI only the username rule `^[a-z0-9]+$` is kept, as `Contracts.ValidUsernameFormat`.
- Network and foreign calls are inputs. This covers RPC, contract calls, `fetch`, signing and the language model. Keccak hashing, ABI encoding and EIP-55 checksums are not modelled. `isAddress` and the paymaster address check are abstract.
- `src/lib/services/wallet` (`sendSingleTransaction`) is not part of this model. The `send_eth` tool sees it as an oracle on the payment.
- `getBalance` (`src/lib/services/contracts.ts:157-165`) is left out. It only formats a balance with `formatEther`, which is decimal formatting of wei.
- The contract-instance helpers `getSmartAccount`, `getEntryPoint`, `getAccountFactory` and `getSmartAccountRegistry` are left out. They only build ethers contract objects. The registry's address is an input.
- Logging is left out. It has no effect on results.
- The batch id drawn from `Date.now()` and `Math.random()` is a parameter.
- `JSON.parse` and `JSON.stringify` are oracles. The tool record passed from `processMessage` to a tool is taken to survive the stringify-and-parse round trip unchanged.
- Errors that are not `Error` instances are not modelled. Every oracle throws a message, so the `Bilinmeyen hata` branches of the tool and agent wrappers are not reached.
- A non-JSON error body is modelled as the JSON parse error it raises. A `receipt.events` that is undefined is modelled as an empty event list, which gives the same outcome.
- `parseEther` is an oracle giving wei, as is `amount.toString()` for number amounts. So the model takes a number's text as given.
- ChatAgent.TransactionAgent.FundAccount: the positivity check models `parseFloat` on its decimal text. It does not model the following:
  - floating-point underflow or overflow;
  - exponents, which never change the sign;
  - leading white space.
- UserOperationService.PackWord: the width bound is stated as "fits in 16 bytes" (`FitsIn`). `HexBytes.Uint128Field` proves that this means `< 2^128`.
- BundlerClient.SubmitUserOperationBatch: it requires one reply per operation. The replies after the first refusal are never consulted.
- UserOperationService.CreateUserOperation: the paymaster configuration is one input with three cases:
  - unset;
  - set but failing `isAddress`;
  - a valid 20-byte address.

  A failure of `getAddress` or `hexlify` after `isAddress` passed is not modelled.
- The model follows the code in these places:
  - the batch call does not check that `values` and `datas` match `targets` in length;
  - every batch entry carries `datas[0]`;
  - `usePaymaster` adds the paymaster only when an address is configured and valid;
  - packing fails instead of truncating when a quantity needs more than 16 bytes;
  - the estimators always see a draft without paymaster data, so the 130 % verification and call margins are never used in a built operation.
- HexBytes.ZeroPad: the error is ethers' reason only. The argument, value, code and library version that ethers appends to the message are not modelled, so the contracts state that the error starts with the reason.
- `TxDetails.recipient` is a string or absent. A recipient that the language model gives as another truthy JSON value makes `recipient.startsWith` throw a TypeError in `src/lib/agents/TransactionAgent.ts:46`, reported as `Agent hatası: İşlem başarısız: recipient.startsWith is not a function`. This path is not modelled.
- UserOperationService.CreateUserOperation: `nonceOffset` is an integer. A fractional offset makes `BigNumber.add` throw in `src/services/userOperation.ts:53`. This path is not modelled.
