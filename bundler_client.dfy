/** The browser-side client of the bundler (`src/lib/services/userOperation.ts`):
    it chooses the smart account's `execute` or `executeBatch` call, asks the
    bundler to build a user operation and signs it, and submits one operation
    or a batch of operations under one batch id.
    Every HTTP exchange is a `Reply` the caller supplies, the ABI encoder, the
    entry point and the signer are oracles, and the requests issued are
    returned as a trace, in order. */
module BundlerClient {
  import opened Common
  import opened HexBytes
  import opened UserOperationService

  /** The parameters the wallet passes; an absent field is `None`. Amounts are
      the decimal ether strings the caller typed. */
  datatype UserOperationParams = UserOperationParams(
    target: Option<string>,
    value: Option<string>,
    data: Option<seq<uint8>>,
    targets: Option<seq<string>>,
    values: Option<seq<string>>,
    datas: Option<seq<seq<uint8>>>,
    isBatch: bool,
    usePaymaster: bool)

  /** The smart-account call to encode. A single call hands the encoder the
      target and amount as they are, absent ones included (the source asserts
      them non-null without checking). */
  datatype Call =
    | Execute(target: Option<string>, value: Option<string>, data: seq<uint8>)
    | ExecuteBatch(targets: seq<string>, values: seq<string>, datas: seq<seq<uint8>>)

  /** A parsed JSON body of the bundler: its `error` field and its `userOp`
      field, each possibly absent. */
  datatype Json = Json(error: Option<string>, userOp: Option<UserOperation>)

  /** One HTTP exchange: `fetch` rejected with a message, or a response with
      its `ok` flag, status text, raw text and the result of parsing the text
      as JSON (a failed parse throws its own message). */
  datatype Reply =
    | Unreachable(message: string)
    | Response(ok: bool, statusText: string, text: string, body: Rpc<Json>)

  /** The HTTP requests the client issues. */
  datatype Request =
    | CreateRequest(sender: seq<uint8>, callData: seq<uint8>, usePaymaster: bool, nonceOffset: int)
    | HealthCheck
    | PostUserOperation(op: UserOperation)
    | PostBatchMember(op: UserOperation, batchId: string)
    | SubmitBatch(batchId: string)

  const UnhealthyMessage: string :=
    "Bundler server is not running or not healthy. Please ensure the bundler is running."
  const CreateFailedPrefix: string := "Failed to create UserOperation: "
  const BundlerErrorPrefix: string := "Bundler error: "
  const SubmitBatchFailedPrefix: string := "Failed to submit batch: "
  /** What V8 throws when a property is set on `undefined`. */
  const SignatureOnUndefined: string := "Cannot set properties of undefined (setting 'signature')"

  /** `params.datas?.[0] || '0x'`: the data every batch entry carries. */
  function FirstData(datas: Option<seq<seq<uint8>>>): (data: seq<uint8>)
    ensures datas.Some? && |datas.value| > 0 ==> data == datas.value[0]
    ensures datas.None? || |datas.value| == 0 ==> data == []
  {
    if datas.Some? && |datas.value| > 0 then datas.value[0] else []
  }

  /** `src/lib/services/userOperation.ts` lines 29-39: the batch call
      exactly when the flag is set and both the targets and the amounts are
      given; the batch repeats the first data entry once per target and does
      not compare the lengths of the lists. */
  function SelectCall(params: UserOperationParams): (call: Call)
    ensures call.ExecuteBatch? <==> params.isBatch && params.targets.Some? && params.values.Some?
    ensures call.ExecuteBatch? ==>
      && call.targets == params.targets.value && call.values == params.values.value
      && |call.datas| == |call.targets|
      && forall i :: 0 <= i < |call.datas| ==> call.datas[i] == FirstData(params.datas)
    ensures call.Execute? ==>
      call.target == params.target && call.value == params.value
      && call.data == params.data.GetOr([])
  {
    if params.isBatch && params.targets.Some? && params.values.Some? then
      ExecuteBatch(params.targets.value, params.values.value,
                   seq(|params.targets.value|, _ => FirstData(params.datas)))
    else
      Execute(params.target, params.value, params.data.GetOr([]))
  }

  /** `errorData.error || response.statusText`. */
  function Detail(body: Json, statusText: string): (detail: string)
    ensures body.error.Some? && body.error.value != [] ==> detail == body.error.value
    ensures body.error.None? || body.error.value == [] ==> detail == statusText
  {
    if body.error.Some? && body.error.value != [] then body.error.value else statusText
  }

  /** `src/lib/services/userOperation.ts` lines 166-173: healthy exactly
      when `/health` answered with an ok status; a rejected `fetch` is
      caught and reads as unhealthy. */
  function CheckBundlerHealth(health: Reply): (healthy: bool)
    ensures healthy ==> health.Response?
    ensures health.Unreachable? ==> !healthy
    ensures health.Response? ==> (healthy <==> health.ok)
  {
    health.Response? && health.ok
  }

  /** The bundler took a posted operation (`response.ok`). */
  predicate Accepted(reply: Reply) {
    reply.Response? && reply.ok
  }

  /** How a POST that the bundler did not accept fails: the `fetch` error,
      the JSON parse error of the error body, or `prefix` followed by the
      body's `error` or else the status text. */
  function Rejection(reply: Reply, prefix: string): (message: string)
    requires !Accepted(reply)
    ensures reply.Unreachable? ==> message == reply.message
    ensures reply.Response? && reply.body.Answer? ==>
      message == prefix + Detail(reply.body.value, reply.statusText)
    ensures reply.Response? && reply.body.Threw? ==> message == reply.body.message
  {
    match reply
    case Unreachable(m) => m
    case Response(_, statusText, _, body) =>
      match body
      case Threw(m) => m
      case Answer(json) => prefix + Detail(json, statusText)
  }

  /** `await response.json()` after a POST, or the rejection. */
  function Outcome(reply: Reply, prefix: string): (r: Result<Json>)
    ensures r.Success? <==> Accepted(reply) && reply.body.Answer?
    ensures r.Success? ==> r.value == reply.body.value
    ensures !Accepted(reply) ==> r == Failure(Rejection(reply, prefix))
  {
    if !Accepted(reply) then Failure(Rejection(reply, prefix))
    else match reply.body
      case Threw(m) => Failure(m)
      case Answer(json) => Success(json)
  }

  /** `createUserOperation` (`src/lib/services/userOperation.ts` lines
      17-88): encode the call, ask the bundler for an operation for
      `accountAddress`, hash it with the entry point and set the signer's
      signature of that hash on it. */
  method CreateUserOperation(
    accountAddress: seq<uint8>,
    params: UserOperationParams,
    nonceOffset: int,
    encode: Call -> Rpc<seq<uint8>>,
    reply: Reply,
    hashOf: Option<UserOperation> -> Rpc<seq<uint8>>,
    sign: seq<uint8> -> Rpc<seq<uint8>>)
    returns (r: Result<UserOperation>, trace: seq<Request>)
    ensures encode(SelectCall(params)).Threw? ==>
      trace == [] && r == Failure(encode(SelectCall(params)).message)
    ensures encode(SelectCall(params)).Answer? ==>
      trace == [CreateRequest(accountAddress, encode(SelectCall(params)).value, params.usePaymaster, nonceOffset)]
    ensures reply.Unreachable? && encode(SelectCall(params)).Answer? ==> r == Failure(reply.message)
    ensures reply.Response? && !reply.ok && encode(SelectCall(params)).Answer? ==>
      r == Failure(CreateFailedPrefix + reply.text)
    ensures encode(SelectCall(params)).Answer? && Accepted(reply) && reply.body.Threw? ==>
      r == Failure(reply.body.message)
    ensures encode(SelectCall(params)).Answer? && Accepted(reply) && reply.body.Answer? ==>
      var userOp := reply.body.value.userOp;
      && (hashOf(userOp).Threw? ==> r == Failure(hashOf(userOp).message))
      && (hashOf(userOp).Answer? && sign(hashOf(userOp).value).Threw? ==>
            r == Failure(sign(hashOf(userOp).value).message))
      && (hashOf(userOp).Answer? && sign(hashOf(userOp).value).Answer? && userOp.None? ==>
            r == Failure(SignatureOnUndefined))
    ensures r.Success? <==>
      && encode(SelectCall(params)).Answer? && Accepted(reply) && reply.body.Answer?
      && reply.body.value.userOp.Some?
      && hashOf(reply.body.value.userOp).Answer?
      && sign(hashOf(reply.body.value.userOp).value).Answer?
    ensures r.Success? ==>
      var built := reply.body.value.userOp.value;
      r.value == built.(signature := sign(hashOf(Some(built)).value).value)
  {
    trace := [];
    var call := SelectCall(params);
    var callData := encode(call);
    if callData.Threw? {
      return Failure(callData.message), trace;
    }
    trace := trace + [CreateRequest(accountAddress, callData.value, params.usePaymaster, nonceOffset)];
    if reply.Unreachable? {
      return Failure(reply.message), trace;
    }
    if !reply.ok {
      return Failure(CreateFailedPrefix + reply.text), trace;
    }
    if reply.body.Threw? {
      return Failure(reply.body.message), trace;
    }
    var userOp := reply.body.value.userOp;
    var userOpHash := hashOf(userOp);
    if userOpHash.Threw? {
      return Failure(userOpHash.message), trace;
    }
    var signature := sign(userOpHash.value);
    if signature.Threw? {
      return Failure(signature.message), trace;
    }
    if userOp.None? {
      return Failure(SignatureOnUndefined), trace;
    }
    r := Success(userOp.value.(signature := signature.value));
  }

  /** `submitUserOperation` (`src/lib/services/userOperation.ts` lines
      90-116): a health check, then one POST of the operation. */
  method SubmitUserOperation(op: UserOperation, health: Reply, reply: Reply)
    returns (r: Result<Json>, trace: seq<Request>)
    ensures !CheckBundlerHealth(health) ==> trace == [HealthCheck] && r == Failure(UnhealthyMessage)
    ensures CheckBundlerHealth(health) ==>
      trace == [HealthCheck, PostUserOperation(op)] && r == Outcome(reply, BundlerErrorPrefix)
  {
    trace := [HealthCheck];
    if !CheckBundlerHealth(health) {
      return Failure(UnhealthyMessage), trace;
    }
    trace := trace + [PostUserOperation(op)];
    if !Accepted(reply) {
      return Failure(Rejection(reply, BundlerErrorPrefix)), trace;
    }
    match reply.body
    case Threw(m) => r := Failure(m);
    case Answer(json) => r := Success(json);
  }

  /** The POSTs registering `ops` under `batchId`, in order. */
  function Registrations(ops: seq<UserOperation>, batchId: string): (posts: seq<Request>)
    ensures |posts| == |ops|
    ensures forall i :: 0 <= i < |ops| ==> posts[i] == PostBatchMember(ops[i], batchId)
  {
    seq(|ops|, i requires 0 <= i < |ops| => PostBatchMember(ops[i], batchId))
  }

  /** The position of the first reply among the first `n` that the bundler
      did not accept, or `n` when it accepted them all. */
  function FirstRejected(replies: seq<Reply>, n: nat): (k: nat)
    requires n <= |replies|
    ensures k <= n
    ensures forall j :: 0 <= j < k ==> Accepted(replies[j])
    ensures k < n ==> !Accepted(replies[k])
  {
    if n == 0 then 0
    else
      var k := FirstRejected(replies, n - 1);
      if k < n - 1 then k
      else if Accepted(replies[n - 1]) then n else n - 1
  }

  /** The requests `submitUserOperationBatch` issues: the health check; when
      healthy, the registrations up to and including the first one the
      bundler refused; and the batch trigger only when none was refused. */
  function BatchTrace(ops: seq<UserOperation>, batchId: string, healthy: bool, replies: seq<Reply>): seq<Request>
    requires |replies| == |ops|
  {
    if !healthy then [HealthCheck]
    else
      var k := FirstRejected(replies, |ops|);
      if k < |ops| then [HealthCheck] + Registrations(ops[..k + 1], batchId)
      else [HealthCheck] + Registrations(ops, batchId) + [SubmitBatch(batchId)]
  }

  /** What `submitUserOperationBatch` returns or throws. */
  function BatchResult(ops: seq<UserOperation>, healthy: bool, replies: seq<Reply>, submitReply: Reply): Result<Json>
    requires |replies| == |ops|
  {
    if !healthy then Failure(UnhealthyMessage)
    else
      var k := FirstRejected(replies, |ops|);
      if k < |ops| then Failure(Rejection(replies[k], BundlerErrorPrefix))
      else Outcome(submitReply, SubmitBatchFailedPrefix)
  }

  /** `submitUserOperationBatch` (`src/lib/services/userOperation.ts` lines
      118-164). `batchId` is the id the source draws from the clock and
      `Math.random`; `replies[i]` answers the POST of `ops[i]` and
      `submitReply` answers `/submitBatch`. */
  method SubmitUserOperationBatch(
    ops: seq<UserOperation>,
    batchId: string,
    health: Reply,
    replies: seq<Reply>,
    submitReply: Reply)
    returns (r: Result<Json>, trace: seq<Request>)
    requires |replies| == |ops|
    ensures trace == BatchTrace(ops, batchId, CheckBundlerHealth(health), replies)
    ensures r == BatchResult(ops, CheckBundlerHealth(health), replies, submitReply)
  {
    trace := [HealthCheck];
    if !CheckBundlerHealth(health) {
      return Failure(UnhealthyMessage), trace;
    }
    var i := 0;
    while i < |ops|
      invariant 0 <= i <= |ops|
      invariant trace == [HealthCheck] + Registrations(ops[..i], batchId)
      invariant forall j :: 0 <= j < i ==> Accepted(replies[j])
    {
      trace := trace + [PostBatchMember(ops[i], batchId)];
      assert ops[..i + 1] == ops[..i] + [ops[i]];
      if !Accepted(replies[i]) {
        FirstRejectedIs(replies, |ops|, i);
        return Failure(Rejection(replies[i], BundlerErrorPrefix)), trace;
      }
      i := i + 1;
    }
    assert ops[..|ops|] == ops;
    FirstRejectedIs(replies, |ops|, |ops|);
    trace := trace + [SubmitBatch(batchId)];
    r := Outcome(submitReply, SubmitBatchFailedPrefix);
  }

  /** `FirstRejected` is pinned down by its contract. */
  lemma FirstRejectedIs(replies: seq<Reply>, n: nat, k: nat)
    requires k <= n <= |replies|
    requires forall j :: 0 <= j < k ==> Accepted(replies[j])
    requires k < n ==> !Accepted(replies[k])
    ensures FirstRejected(replies, n) == k
  {
    var f := FirstRejected(replies, n);
    if f < k {
      assert false;
    } else if k < f {
      assert false;
    }
  }

  /** Every operation is posted under the same batch id, in the order given,
      and the trigger is sent at most once, last, and exactly when the bundler
      is healthy and took every operation. */
  lemma BatchTraceShape(ops: seq<UserOperation>, batchId: string, healthy: bool, replies: seq<Reply>)
    requires |replies| == |ops|
    ensures var trace := BatchTrace(ops, batchId, healthy, replies);
      && trace[0] == HealthCheck
      && (SubmitBatch(batchId) in trace <==> healthy && forall j :: 0 <= j < |ops| ==> Accepted(replies[j]))
      && (SubmitBatch(batchId) in trace ==>
            trace[|trace| - 1] == SubmitBatch(batchId) && SubmitBatch(batchId) !in trace[..|trace| - 1])
      && forall i :: 1 <= i < |trace| && trace[i].PostBatchMember? ==>
           trace[i] == PostBatchMember(ops[i - 1], batchId)
  {
    var trace := BatchTrace(ops, batchId, healthy, replies);
    if healthy {
      var k := FirstRejected(replies, |ops|);
      if k < |ops| {
        var posts := Registrations(ops[..k + 1], batchId);
        assert trace == [HealthCheck] + posts;
        assert !Accepted(replies[k]);
        assert SubmitBatch(batchId) !in trace by {
          forall i | 0 <= i < |trace| ensures trace[i] != SubmitBatch(batchId) {
            if i > 0 {
              assert trace[i] == posts[i - 1];
            }
          }
        }
      } else {
        var posts := Registrations(ops, batchId);
        assert trace == [HealthCheck] + posts + [SubmitBatch(batchId)];
        assert trace[..|trace| - 1] == [HealthCheck] + posts;
        assert SubmitBatch(batchId) !in trace[..|trace| - 1] by {
          forall i | 0 <= i < |trace| - 1 ensures trace[i] != SubmitBatch(batchId) {
            if i > 0 {
              assert trace[i] == posts[i - 1];
            }
          }
        }
      }
    }
  }

  /** The first registration the bundler refuses ends the batch: nothing
      after it is posted, no trigger is sent, and its rejection is what the
      call throws. */
  lemma BatchStopsAtFirstRejection(
    ops: seq<UserOperation>, batchId: string, replies: seq<Reply>, submitReply: Reply, k: nat)
    requires |replies| == |ops| && k < |ops|
    requires forall j :: 0 <= j < k ==> Accepted(replies[j])
    requires !Accepted(replies[k])
    ensures var trace := BatchTrace(ops, batchId, true, replies);
      |trace| == k + 2 && trace[k + 1] == PostBatchMember(ops[k], batchId)
    ensures BatchResult(ops, true, replies, submitReply) == Failure(Rejection(replies[k], BundlerErrorPrefix))
  {
    FirstRejectedIs(replies, |ops|, k);
  }

  /** A batch call returns only when the bundler was healthy, took every
      operation and accepted the trigger. */
  lemma BatchSuccess(ops: seq<UserOperation>, healthy: bool, replies: seq<Reply>, submitReply: Reply)
    requires |replies| == |ops|
    requires BatchResult(ops, healthy, replies, submitReply).Success?
    ensures healthy
    ensures forall j :: 0 <= j < |ops| ==> Accepted(replies[j])
    ensures Accepted(submitReply)
    ensures BatchResult(ops, healthy, replies, submitReply).value == submitReply.body.value
  {
    var k := FirstRejected(replies, |ops|);
    assert k == |ops|;
  }

  /** An empty batch still triggers submission right after the health check. */
  lemma EmptyBatch(batchId: string, replies: seq<Reply>)
    requires |replies| == 0
    ensures BatchTrace([], batchId, true, replies) == [HealthCheck, SubmitBatch(batchId)]
  {
  }
}
