/** The client-side builder of an ERC-4337 `PackedUserOperation` (entry
    point v0.7): gas estimation with fixed fallbacks, the nonce, the fixed
    pre-verification gas, two 16-byte quantities packed into each 32-byte
    word, fee fallbacks and the optional paymaster blob.
    The provider and the entry point are oracles: their answers are
    parameters, and a call that throws is `Threw(message)`. */
module UserOperationService {
  import opened Common
  import opened HexBytes

  /** A checksummed address, as `ethers.utils.getAddress` returns it, in bytes. */
  type Address = s: seq<uint8> | |s| == 20 witness seq(20, i => 0 as uint8)

  /** Every field is a hex byte string; `0x` is the empty sequence. */
  datatype UserOperation = UserOperation(
    sender: seq<uint8>,
    nonce: seq<uint8>,
    initCode: seq<uint8>,
    callData: seq<uint8>,
    accountGasLimits: seq<uint8>,
    preVerificationGas: seq<uint8>,
    gasFees: seq<uint8>,
    paymasterAndData: seq<uint8>,
    signature: seq<uint8>)

  datatype CreateUserOpParams = CreateUserOpParams(
    sender: seq<uint8>,
    callData: seq<uint8>,
    nonceOffset: Option<int>,
    usePaymaster: bool)

  /** What `provider.getFeeData()` reports; either suggestion may be absent. */
  datatype FeeData = FeeData(maxFeePerGas: Option<nat>, maxPriorityFeePerGas: Option<nat>)

  /** How `config.PAYMASTER_ADDRESS` reads: empty, rejected by
      `ethers.utils.isAddress`, or accepted (the bytes of `getAddress`). */
  datatype PaymasterSetting = Unset | Malformed | WellFormed(address: Address)

  const FallbackVerificationGas: nat := 180000
  const FallbackCallGas: nat := 100000
  const PaymasterMarginPercent: nat := 130
  const PlainCallMarginPercent: nat := 110
  const PaymasterPreVerificationGas: nat := 200000
  const PlainPreVerificationGas: nat := 100000
  /** `parseUnits('20', 'gwei')` and `parseUnits('2', 'gwei')`. */
  const DefaultMaxFeePerGas: nat := 20_000_000_000
  const DefaultMaxPriorityFeePerGas: nat := 2_000_000_000
  const PaymasterVerificationGasLimit: nat := 3_000_000
  const PaymasterPostOpGasLimit: nat := 1_000_000

  /** `BigNumber.mul(percent).div(100)`: the largest whole amount of gas not
      above `gas * percent / 100`. */
  function WithMargin(gas: nat, percent: nat): (scaled: nat)
    ensures 100 * scaled <= gas * percent < 100 * scaled + 100
    ensures percent >= 100 ==> gas <= scaled
  {
    gas * percent / 100
  }

  /** `!paymasterAndData || paymasterAndData === '0x'` is false. */
  predicate HasPaymasterData(op: UserOperation) {
    |op.paymasterAndData| > 0
  }

  /** The verification gas limit for `op`, given the answer of
      `provider.estimateGas` for its call. */
  function EstimateVerificationGas(op: UserOperation, estimate: Rpc<nat>): (gas: nat)
    ensures estimate.Threw? || !HasPaymasterData(op) ==> gas == FallbackVerificationGas
    ensures estimate.Answer? && HasPaymasterData(op) ==>
      100 * gas <= estimate.value * 130 < 100 * gas + 100
  {
    match estimate
    case Threw(_) => FallbackVerificationGas
    case Answer(baseEstimate) =>
      if !HasPaymasterData(op) then FallbackVerificationGas
      else WithMargin(baseEstimate, PaymasterMarginPercent)
  }

  /** The call gas limit for `op`, given the answer of `provider.estimateGas`. */
  function EstimateCallGas(op: UserOperation, estimate: Rpc<nat>): (gas: nat)
    ensures estimate.Threw? ==> gas == FallbackCallGas
    ensures estimate.Answer? ==> estimate.value <= gas
    ensures estimate.Answer? && !HasPaymasterData(op) ==>
      100 * gas <= estimate.value * 110 < 100 * gas + 100
    ensures estimate.Answer? && HasPaymasterData(op) ==>
      100 * gas <= estimate.value * 130 < 100 * gas + 100
  {
    match estimate
    case Threw(_) => FallbackCallGas
    case Answer(gasEstimate) =>
      if !HasPaymasterData(op) then WithMargin(gasEstimate, PlainCallMarginPercent)
      else WithMargin(gasEstimate, PaymasterMarginPercent)
  }

  /** `hexZeroPad(hexConcat([hexZeroPad(hi, 16), hexZeroPad(lo, 16)]), 32)`:
      the 32-byte word holding `hi` in its high half and `lo` in its low half. */
  function PackWord(hi: nat, lo: nat): (r: Result<seq<uint8>>)
    ensures r.Success? <==> FitsIn(hi, 16) && FitsIn(lo, 16)
    ensures r.Success? ==> |r.value| == 32 && UnpackWord(r.value) == (hi, lo)
  {
    match ZeroPad(hi, 16)
    case Failure(e) => Failure(e)
    case Success(hiBytes) =>
      match ZeroPad(lo, 16)
      case Failure(e) => Failure(e)
      case Success(loBytes) =>
        var word := hiBytes + loBytes;
        assert word[..16] == hiBytes && word[16..] == loBytes;
        PadLeft(word, 32)
  }

  /** How the entry point reads a packed word: high half, low half. */
  function UnpackWord(word: seq<uint8>): (halves: (nat, nat))
    requires |word| == 32
    ensures FitsIn(halves.0, 16) && FitsIn(halves.1, 16)
  {
    ToNatBound(word[..16]);
    ToNatBound(word[16..]);
    (ToNat(word[..16]), ToNat(word[16..]))
  }

  /** Every 32-byte word is the packing of its two halves. */
  lemma UnpackWordRoundTrip(word: seq<uint8>)
    requires |word| == 32
    ensures PackWord(UnpackWord(word).0, UnpackWord(word).1) == Success(word)
  {
    FromNatToNat(word[..16]);
    FromNatToNat(word[16..]);
    assert word == word[..16] + word[16..];
  }

  /** As a 256-bit quantity, the packed word is `hi * 2^128 + lo`. */
  lemma PackWordValue(hi: nat, lo: nat)
    requires FitsIn(hi, 16) && FitsIn(lo, 16)
    ensures ToNat(PackWord(hi, lo).value) == hi * 0x1_0000_0000_0000_0000_0000_0000_0000_0000 + lo
  {
    var word := PackWord(hi, lo).value;
    assert word == word[..16] + word[16..];
    ToNatConcat(word[..16], word[16..]);
    Pow256Sixteen();
  }

  /** The fixed gas quantities and the default fees fit a 16-byte half. */
  lemma FieldConstantsFit()
    ensures FitsIn(FallbackVerificationGas, 16) && FitsIn(PaymasterVerificationGasLimit, 16)
    ensures FitsIn(PaymasterPostOpGasLimit, 16)
    ensures FitsIn(DefaultMaxFeePerGas, 16) && FitsIn(DefaultMaxPriorityFeePerGas, 16)
  {
    Uint128Field(FallbackVerificationGas);
    Uint128Field(PaymasterVerificationGasLimit);
    Uint128Field(PaymasterPostOpGasLimit);
    Uint128Field(DefaultMaxFeePerGas);
    Uint128Field(DefaultMaxPriorityFeePerGas);
  }

  /** The fixed pre-verification gas values fit a 32-byte word. */
  lemma PreVerificationGasFits()
    ensures FitsIn(PaymasterPreVerificationGas, 32) && FitsIn(PlainPreVerificationGas, 32)
  {
    Uint128Field(PaymasterPreVerificationGas);
    Uint128Field(PlainPreVerificationGas);
    FitsInMonotone(PaymasterPreVerificationGas, 16, 32);
    FitsInMonotone(PlainPreVerificationGas, 16, 32);
  }

  /** The paymaster blob: address ‖ 16-byte verification gas limit ‖ 16-byte
      post-op gas limit ‖ `HashZero`. */
  predicate IsPaymasterBlob(data: seq<uint8>, paymaster: Address) {
    && |data| == 84 && data[..20] == paymaster
    && ToNat(data[20..36]) == PaymasterVerificationGasLimit
    && ToNat(data[36..52]) == PaymasterPostOpGasLimit
    && forall i :: 52 <= i < 84 ==> data[i] == 0
  }

  /** The blob is determined by the paymaster address alone. */
  lemma PaymasterBlobUnique(a: seq<uint8>, b: seq<uint8>, paymaster: Address)
    requires IsPaymasterBlob(a, paymaster) && IsPaymasterBlob(b, paymaster)
    ensures a == b
  {
    ToNatInjective(a[20..36], b[20..36]);
    ToNatInjective(a[36..52], b[36..52]);
    assert a == a[..20] + a[20..36] + a[36..52] + a[52..];
    assert b == b[..20] + b[20..36] + b[36..52] + b[52..];
    assert a[52..] == b[52..];
  }

  /** `src/services/userOperation.ts` lines 133-142: `hexConcat` of the
      checksummed paymaster address, the two gas limits zero-padded to 16
      bytes and `HashZero`. */
  method PaymasterAndData(paymaster: Address) returns (data: seq<uint8>)
    ensures IsPaymasterBlob(data, paymaster)
  {
    FieldConstantsFit();
    var verificationGasLimit := FromNat(PaymasterVerificationGasLimit, 16);
    var postOpGasLimit := FromNat(PaymasterPostOpGasLimit, 16);
    ConcatSlices(paymaster, verificationGasLimit, postOpGasLimit, ZeroBytes(32));
    data := paymaster + verificationGasLimit + postOpGasLimit + ZeroBytes(32);
  }

  /** The nonce the operation carries: the entry point's nonce plus the
      offset (`nonceOffset || 0`). */
  function NonceWithOffset(params: CreateUserOpParams, chainNonce: nat): int {
    chainNonce + params.nonceOffset.GetOr(0)
  }

  /** The call gas the built operation carries: the estimators always see a
      draft whose `paymasterAndData` is `0x`. */
  function DraftCallGas(callEstimate: Rpc<nat>): nat {
    match callEstimate
    case Threw(_) => FallbackCallGas
    case Answer(g) => WithMargin(g, PlainCallMarginPercent)
  }

  /** The estimators on a draft without paymaster data ignore the
      verification estimate and scale the call estimate by 110%. */
  lemma DraftEstimates(op: UserOperation, verificationEstimate: Rpc<nat>, callEstimate: Rpc<nat>)
    requires !HasPaymasterData(op)
    ensures EstimateVerificationGas(op, verificationEstimate) == FallbackVerificationGas
    ensures EstimateCallGas(op, callEstimate) == DraftCallGas(callEstimate)
  {
  }

  function MaxFeePerGas(fees: FeeData): nat {
    fees.maxFeePerGas.GetOr(DefaultMaxFeePerGas)
  }

  function MaxPriorityFeePerGas(fees: FeeData): nat {
    fees.maxPriorityFeePerGas.GetOr(DefaultMaxPriorityFeePerGas)
  }

  /** `src/services/userOperation.ts` lines 74-92: both limits estimated on
      `op`, packed verification gas first. */
  method AccountGasLimits(op: UserOperation, verificationEstimate: Rpc<nat>, callEstimate: Rpc<nat>) returns (r: Result<seq<uint8>>)
    ensures r.Success? <==> FitsIn(EstimateCallGas(op, callEstimate), 16) && FitsIn(EstimateVerificationGas(op, verificationEstimate), 16)
    ensures r.Success? ==> |r.value| == 32
    ensures r.Success? ==>
      UnpackWord(r.value) == (EstimateVerificationGas(op, verificationEstimate), EstimateCallGas(op, callEstimate))
  {
    var verificationGasLimit := EstimateVerificationGas(op, verificationEstimate);
    var callGasLimit := EstimateCallGas(op, callEstimate);
    r := PackWord(verificationGasLimit, callGasLimit);
  }

  /** `src/services/userOperation.ts` lines 95-114: the fee suggestions,
      each replaced by its default only when absent, packed max fee first. */
  method GasFees(fees: FeeData) returns (r: Result<seq<uint8>>)
    ensures r.Success? <==> FitsIn(MaxFeePerGas(fees), 16) && FitsIn(MaxPriorityFeePerGas(fees), 16)
    ensures r.Success? ==> |r.value| == 32
    ensures r.Success? ==> UnpackWord(r.value) == (MaxFeePerGas(fees), MaxPriorityFeePerGas(fees))
  {
    var maxFeePerGas := fees.maxFeePerGas.GetOr(DefaultMaxFeePerGas);
    var maxPriorityFeePerGas := fees.maxPriorityFeePerGas.GetOr(DefaultMaxPriorityFeePerGas);
    r := PackWord(maxFeePerGas, maxPriorityFeePerGas);
  }

  /** `src/services/userOperation.ts` lines 52-71: the operation the
      estimators see. Its nonce is the entry point's nonce plus the offset,
      its pre-verification gas the fixed policy value, and every gas, fee,
      paymaster and signature field `0x`. */
  method DraftUserOperation(params: CreateUserOpParams, chainNonce: nat) returns (r: Result<UserOperation>)
    ensures r.Success? <==> NonceWithOffset(params, chainNonce) >= 0 && FitsIn(NonceWithOffset(params, chainNonce), 32)
    ensures NonceWithOffset(params, chainNonce) < 0 ==> r.Failure? && StartsWith(r.error, InvalidHexString)
    ensures r.Success? ==>
      var op := r.value;
      && op.sender == params.sender && op.callData == params.callData
      && op.initCode == [] && op.signature == [] && op.paymasterAndData == []
      && op.accountGasLimits == [] && op.gasFees == []
      && |op.nonce| == 32 && ToNat(op.nonce) == NonceWithOffset(params, chainNonce)
      && |op.preVerificationGas| == 32
      && ToNat(op.preVerificationGas) == (if params.usePaymaster then PaymasterPreVerificationGas else PlainPreVerificationGas)
  {
    var nonce := NonceWithOffset(params, chainNonce);
    var preVerificationGas := if params.usePaymaster then PaymasterPreVerificationGas else PlainPreVerificationGas;
    PreVerificationGasFits();
    var nonceHex := ZeroPad(nonce, 32);
    if nonceHex.Failure? {
      return Failure(nonceHex.error);
    }
    var preVerificationGasHex := ZeroPad(preVerificationGas, 32).value;
    r := Success(UserOperation(params.sender, nonceHex.value, [], params.callData, [], preVerificationGasHex, [], [], []));
  }

  /** The conditions under which `createUserOperation` returns instead of
      throwing: every oracle answered and every quantity fits its field. */
  predicate Buildable(params: CreateUserOpParams, chainNonce: Rpc<nat>, callEstimate: Rpc<nat>, feeData: Rpc<FeeData>) {
    && chainNonce.Answer?
    && NonceWithOffset(params, chainNonce.value) >= 0
    && FitsIn(NonceWithOffset(params, chainNonce.value), 32)
    && FitsIn(DraftCallGas(callEstimate), 16)
    && feeData.Answer?
    && FitsIn(MaxFeePerGas(feeData.value), 16)
    && FitsIn(MaxPriorityFeePerGas(feeData.value), 16)
  }

  /** The fields of an operation `createUserOperation` returns: the caller's
      sender and call data, no init code and no signature yet, the 32-byte
      nonce and pre-verification gas, the packed gas limits as the estimators
      see the draft, the packed fees, and the paymaster blob only for a
      well-formed configured paymaster. */
  predicate FilledIn(op: UserOperation, params: CreateUserOpParams, chainNonce: nat, callEstimate: Rpc<nat>, fees: FeeData, paymaster: PaymasterSetting) {
    && op.sender == params.sender && op.callData == params.callData
    && op.initCode == [] && op.signature == []
    && |op.nonce| == 32 && ToNat(op.nonce) == NonceWithOffset(params, chainNonce)
    && |op.preVerificationGas| == 32
    && ToNat(op.preVerificationGas) == (if params.usePaymaster then PaymasterPreVerificationGas else PlainPreVerificationGas)
    && |op.accountGasLimits| == 32
    && UnpackWord(op.accountGasLimits) == (FallbackVerificationGas, DraftCallGas(callEstimate))
    && |op.gasFees| == 32
    && UnpackWord(op.gasFees) == (MaxFeePerGas(fees), MaxPriorityFeePerGas(fees))
    && (if params.usePaymaster && paymaster.WellFormed?
        then IsPaymasterBlob(op.paymasterAndData, paymaster.address)
        else op.paymasterAndData == [])
  }

  /** `UserOperationService.createUserOperation`. The answers of
      `entryPoint.getNonce`, of the two `provider.estimateGas` calls, of
      `provider.getFeeData` and the reading of the configured paymaster
      address are parameters. */
  method CreateUserOperation(
    params: CreateUserOpParams,
    chainNonce: Rpc<nat>,
    verificationEstimate: Rpc<nat>,
    callEstimate: Rpc<nat>,
    feeData: Rpc<FeeData>,
    paymaster: PaymasterSetting)
    returns (r: Result<UserOperation>)
    ensures r.Success? <==> Buildable(params, chainNonce, callEstimate, feeData)
    ensures chainNonce.Threw? ==> r == Failure(chainNonce.message)
    ensures chainNonce.Answer? && NonceWithOffset(params, chainNonce.value) < 0 ==>
      r.Failure? && StartsWith(r.error, InvalidHexString)
    ensures
      && chainNonce.Answer? && NonceWithOffset(params, chainNonce.value) >= 0
      && FitsIn(NonceWithOffset(params, chainNonce.value), 32)
      && FitsIn(DraftCallGas(callEstimate), 16) && feeData.Threw?
      ==>
      r == Failure(feeData.message)
    ensures r.Success? ==> FilledIn(r.value, params, chainNonce.value, callEstimate, feeData.value, paymaster)
  {
    if chainNonce.Threw? {
      return Failure(chainNonce.message);
    }
    var draft := DraftUserOperation(params, chainNonce.value);
    if draft.Failure? {
      return Failure(draft.error);
    }
    var tempUserOp := draft.value;
    DraftEstimates(tempUserOp, verificationEstimate, callEstimate);
    var accountGasLimits := AccountGasLimits(tempUserOp, verificationEstimate, callEstimate);
    if accountGasLimits.Failure? {
      FieldConstantsFit();
      assert !FitsIn(DraftCallGas(callEstimate), 16);
      return Failure(accountGasLimits.error);
    }
    if feeData.Threw? {
      return Failure(feeData.message);
    }
    var gasFees := GasFees(feeData.value);
    if gasFees.Failure? {
      return Failure(gasFees.error);
    }
    assert Buildable(params, chainNonce, callEstimate, feeData);

    var userOp := tempUserOp.(accountGasLimits := accountGasLimits.value, gasFees := gasFees.value);

    if params.usePaymaster && !paymaster.Unset? {
      if paymaster.Malformed? {
        return Success(userOp);
      }
      var paymasterAndData := PaymasterAndData(paymaster.address);
      userOp := userOp.(paymasterAndData := paymasterAndData);
    }
    return Success(userOp);
  }
}
