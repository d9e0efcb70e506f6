/** The events that go through the broker. */
module RollupsEvents {
  import opened Common

  const ADDRESS_SIZE: nat := 20

  const HASH_SIZE: nat := 32

  datatype InputMetadata = InputMetadata(
    msgSender: Bytes, blockNumber: nat, timestamp: nat, epochIndex: nat, inputIndex: nat)

  datatype AdvanceStateInput = AdvanceStateInput(metadata: InputMetadata, payload: Bytes, txHash: Bytes)

  datatype RollupsData = Advance(input: AdvanceStateInput) | FinishEpoch

  datatype RollupsInput = RollupsInput(
    parentId: nat, epochIndex: nat, inputsSentCount: nat, data: RollupsData)

  datatype CompletionStatus =
    | Accepted | Rejected | Exception | MachineHalted
    | CycleLimitExceeded | TimeLimitExceeded | PayloadLengthLimitExceeded

  datatype OutputEnum = VoucherOutput | NoticeOutput

  datatype Validity = Validity(
    inputIndexWithinEpoch: nat, outputIndexWithinInput: nat,
    outputHashesRootHash: Bytes, vouchersEpochRootHash: Bytes,
    noticesEpochRootHash: Bytes, machineStateHash: Bytes,
    outputHashInOutputHashesSiblings: seq<Bytes>, outputHashesInEpochSiblings: seq<Bytes>)

  datatype RollupsOutput =
    | AdvanceResult(inputIndex: nat, status: CompletionStatus)
    | Voucher(index: nat, inputIndex: nat, destination: Bytes, payload: Bytes)
    | Notice(index: nat, inputIndex: nat, payload: Bytes)
    | Report(index: nat, inputIndex: nat, payload: Bytes)
    | Proof(inputIndex: nat, outputIndex: nat, outputEnum: OutputEnum, validity: Validity, context: Bytes)

  datatype RollupsClaim = RollupsClaim(
    dapp: Bytes, epochIndex: nat, epochHash: Bytes, firstIndex: nat, lastIndex: nat)

  /** Where claim number `k` has to begin. */
  function Begins(claims: seq<RollupsClaim>, k: nat): nat
    requires k <= |claims|
  {
    if k == 0 then 0 else claims[k - 1].lastIndex + 1
  }

  /** The claims cover the inputs from 0 on, without a gap and without an overlap. */
  ghost predicate Contiguous(claims: seq<RollupsClaim>) {
    forall k {:trigger Begins(claims, k)} | 0 <= k < |claims| ::
      Begins(claims, k) == claims[k].firstIndex <= claims[k].lastIndex
  }
}
