/** The wallet's helpers around the account factory, the name registry and
    the signer (`src/lib/services/contracts.ts`). Each helper is a chain of
    guards over the answers of contract calls; every contract call, the
    signer and the provider are oracles (`Rpc` answers, or functions from
    the call's arguments to an `Rpc` answer). Addresses and names are the
    strings the contracts return. */
module Contracts {
  import opened Common

  const UnitsSuffix: string := ".units"

  /** The registry stores every name with the `.units` suffix: it is added
      unless the name already carries it. */
  function WithUnitsSuffix(username: string): (full: string)
    ensures EndsWith(full, UnitsSuffix)
    ensures StartsWith(full, username)
    ensures full == username <==> EndsWith(username, UnitsSuffix)
    ensures !EndsWith(username, UnitsSuffix) ==> full == username + UnitsSuffix
  {
    if EndsWith(username, UnitsSuffix) then username
    else
      var full := username + UnitsSuffix;
      assert full[..|username|] == username;
      assert full[|full| - |UnitsSuffix|..] == UnitsSuffix;
      full
  }

  /** Normalising a name twice is normalising it once. */
  lemma WithUnitsSuffixIdempotent(username: string)
    ensures WithUnitsSuffix(WithUnitsSuffix(username)) == WithUnitsSuffix(username)
  {
  }

  /** The sign-up form accepts a name of one or more lower-case letters and
      digits (`/^[a-z0-9]+$/`). */
  predicate ValidUsernameFormat(name: string) {
    |name| > 0 && forall i :: 0 <= i < |name| ==> 'a' <= name[i] <= 'z' || '0' <= name[i] <= '9'
  }

  /** A name the form accepts has no `.`, so the registry always sees it
      with the suffix appended. */
  lemma ValidUsernameGetsSuffix(name: string)
    requires ValidUsernameFormat(name)
    ensures WithUnitsSuffix(name) == name + UnitsSuffix
  {
    if |name| >= |UnitsSuffix| {
      var k := |name| - |UnitsSuffix|;
      assert name[k..][0] == name[k] != '.';
    }
  }

  /** `resolveAccountToUsername`: the name the account stores, or the
      account address itself when the stored name is empty or the call
      throws. */
  function ResolveAccountToUsername(accountAddress: string, storedName: Rpc<string>): (shown: string)
    ensures storedName.Answer? && storedName.value != "" ==> shown == storedName.value
    ensures storedName.Threw? || storedName.value == "" ==> shown == accountAddress
    ensures shown == "" ==> accountAddress == ""
  {
    match storedName
    case Answer(name) => if name == "" then accountAddress else name
    case Threw(_) => accountAddress
  }

  /** `isUsernameAvailable`: asks the registry (found through the factory's
      `nameRegistry()`) whether the suffixed name is free; any error is
      re-thrown unchanged. */
  function IsUsernameAvailable(
    username: string,
    registry: Rpc<string>,
    isNameAvailable: (string, string) -> Rpc<bool>)
    : (r: Result<bool>)
    ensures registry.Threw? ==> r == Failure(registry.message)
    ensures registry.Answer? ==>
      var answer := isNameAvailable(registry.value, WithUnitsSuffix(username));
      && (r.Success? <==> answer.Answer?)
      && (r.Success? ==> r.value == answer.value)
      && (r.Failure? ==> r.error == answer.message)
  {
    match registry
    case Threw(m) => Failure(m)
    case Answer(registryAddress) =>
      match isNameAvailable(registryAddress, WithUnitsSuffix(username))
      case Answer(available) => Success(available)
      case Threw(m) => Failure(m)
  }

  /** Typing the suffix or leaving it off asks the registry the same question. */
  lemma AvailabilityIgnoresSuffix(
    username: string,
    registry: Rpc<string>,
    isNameAvailable: (string, string) -> Rpc<bool>)
    ensures IsUsernameAvailable(WithUnitsSuffix(username), registry, isNameAvailable)
         == IsUsernameAvailable(username, registry, isNameAvailable)
  {
    WithUnitsSuffixIdempotent(username);
  }

  /** `provider.getCode` answers a hex string; `0x` means no code. */
  predicate HasCode(code: string) {
    |code| > 2
  }

  /** `getExistingAccount`: the counterfactual address of the signer's
      account when code is deployed there, and null otherwise. Only the
      signer's own address is fetched outside the `try`, so only its error
      escapes; every later error yields null. */
  function GetExistingAccount(
    signerAddress: Rpc<string>,
    computeAddress: string -> Rpc<string>,
    getCode: Option<string -> Rpc<string>>)
    : (r: Result<Option<string>>)
    ensures signerAddress.Threw? ==> r == Failure(signerAddress.message)
    ensures signerAddress.Answer? ==> r.Success?
    ensures r.Success? && r.value.Some? <==>
      && signerAddress.Answer?
      && computeAddress(signerAddress.value).Answer?
      && getCode.Some?
      && getCode.value(computeAddress(signerAddress.value).value).Answer?
      && HasCode(getCode.value(computeAddress(signerAddress.value).value).value)
    ensures r.Success? && r.value.Some? ==> r.value.value == computeAddress(signerAddress.value).value
  {
    match signerAddress
    case Threw(m) => Failure(m)
    case Answer(owner) =>
      match computeAddress(owner)
      case Threw(_) => Success(None)
      case Answer(account) =>
        match getCode
        case None => Success(None)
        case Some(codeAt) =>
          match codeAt(account)
          case Threw(_) => Success(None)
          case Answer(code) => if HasCode(code) then Success(Some(account)) else Success(None)
  }

  /** A log entry of a transaction receipt: the event's name and its
      `account` argument, if it has one. */
  datatype Event = Event(name: string, account: Option<string>)

  const AccountCreated: string := "AccountCreated"
  const NameRegistered: string := "NameRegistered"
  const AccountEventMissing: string := "AccountCreated event not found in transaction receipt"

  /** `receipt.events?.find(e => e.event === name)`: the index of the first
      event of that name. */
  function FindEvent(events: seq<Event>, name: string): (found: Option<nat>)
    ensures found.Some? ==>
      && found.value < |events|
      && events[found.value].name == name
      && forall j :: 0 <= j < found.value ==> events[j].name != name
    ensures found.None? ==> forall j :: 0 <= j < |events| ==> events[j].name != name
  {
    if |events| == 0 then None
    else if events[0].name == name then Some(0)
    else
      match FindEvent(events[1..], name)
      case None => None
      case Some(j) => Some(j + 1)
  }

  /** `event?.args?.account` of the first `AccountCreated` event. */
  function CreatedAccount(events: seq<Event>): (account: Option<string>)
    ensures account.Some? ==> exists i :: 0 <= i < |events| && events[i] == Event(AccountCreated, account)
    ensures forall i ::
      && 0 <= i < |events| && events[i].name == AccountCreated
      && (forall j :: 0 <= j < i ==> events[j].name != AccountCreated)
      ==>
      account == events[i].account
    ensures (forall i :: 0 <= i < |events| ==> events[i].name != AccountCreated) ==> account.None?
  {
    match FindEvent(events, AccountCreated)
    case None => None
    case Some(i) => events[i].account
  }

  /** `createAccount`: deploys the signer's account and reports the account
      address carried by the receipt's first `AccountCreated` event, or
      undefined when there is none. `receipt` is the outcome of sending the
      factory call and waiting for it; errors are re-thrown unchanged. */
  function CreateAccount(signerAddress: Rpc<string>, receipt: string -> Rpc<seq<Event>>): (r: Result<Option<string>>)
    ensures r.Success? <==> signerAddress.Answer? && receipt(signerAddress.value).Answer?
    ensures signerAddress.Threw? ==> r == Failure(signerAddress.message)
    ensures signerAddress.Answer? && receipt(signerAddress.value).Threw? ==>
      r == Failure(receipt(signerAddress.value).message)
    ensures r.Success? ==> r.value == CreatedAccount(receipt(signerAddress.value).value)
  {
    match signerAddress
    case Threw(m) => Failure(m)
    case Answer(owner) =>
      match receipt(owner)
      case Threw(m) => Failure(m)
      case Answer(events) => Success(CreatedAccount(events))
  }

  /** `createAccountWithName`: deploys the signer's account under the
      suffixed name. `receipt(owner, name)` is the outcome of sending the
      factory call and waiting for it, and `registeredName(account)` the
      outcome of asking the registry for the account's name, which is done
      only when the receipt has no `NameRegistered` event. A missing
      `AccountCreated` event fails; a missing or empty registered name is
      only logged; errors are re-thrown unchanged. */
  function CreateAccountWithName(
    username: string,
    signerAddress: Rpc<string>,
    receipt: (string, string) -> Rpc<seq<Event>>,
    registeredName: Option<string> -> Rpc<string>)
    : (r: Result<Option<string>>)
    ensures signerAddress.Threw? ==> r == Failure(signerAddress.message)
    ensures signerAddress.Answer? ==>
      var answer := receipt(signerAddress.value, WithUnitsSuffix(username));
      && (answer.Threw? ==> r == Failure(answer.message))
      && (answer.Answer? && FindEvent(answer.value, AccountCreated).None? ==> r == Failure(AccountEventMissing))
    ensures r.Success? ==>
      var events := receipt(signerAddress.value, WithUnitsSuffix(username)).value;
      && FindEvent(events, AccountCreated).Some?
      && r.value == events[FindEvent(events, AccountCreated).value].account
    ensures signerAddress.Answer? && receipt(signerAddress.value, WithUnitsSuffix(username)).Answer? ==>
      var events := receipt(signerAddress.value, WithUnitsSuffix(username)).value;
      FindEvent(events, AccountCreated).Some? && FindEvent(events, NameRegistered).Some? ==> r.Success?
  {
    match signerAddress
    case Threw(m) => Failure(m)
    case Answer(owner) =>
      match receipt(owner, WithUnitsSuffix(username))
      case Threw(m) => Failure(m)
      case Answer(events) =>
        match FindEvent(events, AccountCreated)
        case None => Failure(AccountEventMissing)
        case Some(i) =>
          var account := events[i].account;
          if FindEvent(events, NameRegistered).Some? then Success(account)
          else
            match registeredName(account)
            case Threw(m) => Failure(m)
            case Answer(_) => Success(account)
  }

  /** When the receipt lacks `NameRegistered`, the account is still returned
      as soon as the registry answers, whatever name (empty included) it
      answers with; only a registry error fails the call. */
  lemma MissingNameEventStillCreates(
    username: string,
    signerAddress: Rpc<string>,
    receipt: (string, string) -> Rpc<seq<Event>>,
    registeredName: Option<string> -> Rpc<string>,
    events: seq<Event>,
    i: nat)
    requires signerAddress.Answer?
    requires receipt(signerAddress.value, WithUnitsSuffix(username)) == Answer(events)
    requires FindEvent(events, AccountCreated) == Some(i)
    requires FindEvent(events, NameRegistered).None?
    ensures registeredName(events[i].account).Answer? ==>
      CreateAccountWithName(username, signerAddress, receipt, registeredName) == Success(events[i].account)
    ensures registeredName(events[i].account).Threw? ==>
      CreateAccountWithName(username, signerAddress, receipt, registeredName)
        == Failure(registeredName(events[i].account).message)
  {
  }

  /** Signing up as `name` or as `name.units` creates the same account. */
  lemma CreateAccountWithNameIgnoresSuffix(
    username: string,
    signerAddress: Rpc<string>,
    receipt: (string, string) -> Rpc<seq<Event>>,
    registeredName: Option<string> -> Rpc<string>)
    ensures CreateAccountWithName(WithUnitsSuffix(username), signerAddress, receipt, registeredName)
         == CreateAccountWithName(username, signerAddress, receipt, registeredName)
  {
    WithUnitsSuffixIdempotent(username);
  }

  const TransferFailedPrefix: string := "ETH gönderme işlemi başarısız: "
  const NoProvider: string := "Provider not available"
  const NonPositiveAmount: string := "Amount must be greater than 0"
  const InsufficientBalance: string := "Insufficient balance in EOA wallet"
  const TransactionFailed: string := "Transaction failed"

  /** The value transfer `signer.sendTransaction({ to, value })` submits. */
  datatype Transfer = Transfer(to: string, value: nat)

  /** A submitted transaction: its hash, and the outcome of waiting for its
      receipt (the receipt's `status`). */
  datatype Transaction = Transaction(hash: string, status: Rpc<nat>)

  /** What `sendEthToAAWallet` ends with, and the transfer it submitted, if
      it got that far. */
  datatype SendOutcome = SendOutcome(result: Result<Transaction>, sent: Option<Transfer>)

  /** The guards of `sendEthToAAWallet` before anything is sent, in the
      source's order: a provider, a positive amount, the signer's address,
      its balance, and a balance that covers the amount. `amountInWei` is
      `parseEther(amount)` (which throws on text that is not a decimal
      ether amount). The success value is the amount to send. */
  function TransferGuard(
    hasProvider: bool,
    amountInWei: Rpc<int>,
    signerAddress: Rpc<string>,
    balanceOf: string -> Rpc<nat>)
    : (r: Result<nat>)
    ensures r.Success? ==>
      && amountInWei.Answer? && r.value == amountInWei.value
      && signerAddress.Answer? && balanceOf(signerAddress.value).Answer?
      && 0 < r.value <= balanceOf(signerAddress.value).value
    ensures !hasProvider ==> r == Failure(NoProvider)
    ensures hasProvider && amountInWei.Answer? && amountInWei.value <= 0 ==> r == Failure(NonPositiveAmount)
    ensures hasProvider && amountInWei.Threw? ==> r == Failure(amountInWei.message)
    ensures hasProvider && amountInWei.Answer? && amountInWei.value > 0 && signerAddress.Threw? ==>
      r == Failure(signerAddress.message)
    ensures
      && hasProvider && amountInWei.Answer? && amountInWei.value > 0
      && signerAddress.Answer? && balanceOf(signerAddress.value).Threw?
      ==>
      r == Failure(balanceOf(signerAddress.value).message)
    ensures
      && hasProvider && amountInWei.Answer? && amountInWei.value > 0
      && signerAddress.Answer? && balanceOf(signerAddress.value).Answer?
      ==>
      (r.Failure? <==> balanceOf(signerAddress.value).value < amountInWei.value)
    ensures
      && hasProvider && amountInWei.Answer? && amountInWei.value > 0
      && signerAddress.Answer? && balanceOf(signerAddress.value).Answer?
      && balanceOf(signerAddress.value).value < amountInWei.value
      ==>
      r == Failure(InsufficientBalance)
  {
    if !hasProvider then Failure(NoProvider)
    else
      match amountInWei
      case Threw(m) => Failure(m)
      case Answer(amount) =>
        if amount <= 0 then Failure(NonPositiveAmount)
        else
          match signerAddress
          case Threw(m) => Failure(m)
          case Answer(owner) =>
            match balanceOf(owner)
            case Threw(m) => Failure(m)
            case Answer(balance) =>
              if balance < amount then Failure(InsufficientBalance)
              else Success(amount)
  }

  /** `sendEthToAAWallet`: after the guards, submits the transfer to the
      smart account and waits for it; a receipt with status 0 is a failure.
      Every failure is re-thrown with the Turkish "sending ETH failed"
      prefix. `submit` is `signer.sendTransaction`. */
  function SendEthToAAWallet(
    aaWalletAddress: string,
    hasProvider: bool,
    amountInWei: Rpc<int>,
    signerAddress: Rpc<string>,
    balanceOf: string -> Rpc<nat>,
    submit: Transfer -> Rpc<Transaction>)
    : (outcome: SendOutcome)
    ensures outcome.sent.Some? <==> TransferGuard(hasProvider, amountInWei, signerAddress, balanceOf).Success?
    ensures outcome.sent.Some? ==>
      outcome.sent.value == Transfer(aaWalletAddress, TransferGuard(hasProvider, amountInWei, signerAddress, balanceOf).value)
    ensures outcome.result.Failure? ==> StartsWith(outcome.result.error, TransferFailedPrefix)
    ensures outcome.sent.None? ==>
      outcome.result == Failure(TransferFailedPrefix + TransferGuard(hasProvider, amountInWei, signerAddress, balanceOf).error)
    ensures outcome.result.Success? <==>
      && outcome.sent.Some?
      && submit(outcome.sent.value).Answer?
      && submit(outcome.sent.value).value.status.Answer?
      && submit(outcome.sent.value).value.status.value != 0
    ensures outcome.result.Success? ==> outcome.result.value == submit(outcome.sent.value).value
  {
    match TransferGuard(hasProvider, amountInWei, signerAddress, balanceOf)
    case Failure(m) => SendOutcome(Failure(TransferFailedPrefix + m), None)
    case Success(amount) =>
      var transfer := Transfer(aaWalletAddress, amount);
      var result :=
        match submit(transfer)
        case Threw(m) => Failure(TransferFailedPrefix + m)
        case Answer(tx) =>
          match tx.status
          case Threw(m) => Failure(TransferFailedPrefix + m)
          case Answer(status) =>
            if status == 0 then Failure(TransferFailedPrefix + TransactionFailed) else Success(tx);
      SendOutcome(result, Some(transfer))
  }

  /** A transfer is submitted only when the amount is positive and the
      signer's balance covers it, and only to the smart account. */
  lemma SentOnlyWhenFunded(
    aaWalletAddress: string,
    hasProvider: bool,
    amountInWei: Rpc<int>,
    signerAddress: Rpc<string>,
    balanceOf: string -> Rpc<nat>,
    submit: Transfer -> Rpc<Transaction>)
    ensures var outcome := SendEthToAAWallet(aaWalletAddress, hasProvider, amountInWei, signerAddress, balanceOf, submit);
      outcome.sent.Some? ==>
        && hasProvider
        && signerAddress.Answer? && balanceOf(signerAddress.value).Answer?
        && outcome.sent.value.to == aaWalletAddress
        && 0 < outcome.sent.value.value <= balanceOf(signerAddress.value).value
  {
  }
}
