/** What the server-manager answers, and its conversion to broker events. */
module Conversions {
  import opened Common
  import opened RollupsEvents

  datatype ServerManagerError =
    | MethodCallError
    | PendingInputsExceededError
    | MissingFieldError(name: string)
    | MissingProcessedInputError
    | InvalidProcessedInputError(expected: nat, got: nat)
    | WrongArraySizeError(name: string, expected: nat, got: nat)
    | EmptyEpochError(epochIndex: nat)

  type Converted<T> = Result<T, ServerManagerError>

  datatype VoucherResponse = VoucherResponse(destination: Option<Bytes>, payload: Bytes)

  datatype ValidityResponse = ValidityResponse(
    inputIndexWithinEpoch: nat, outputIndexWithinInput: nat,
    outputHashesRootHash: Option<Bytes>, vouchersEpochRootHash: Option<Bytes>,
    noticesEpochRootHash: Option<Bytes>, machineStateHash: Option<Bytes>,
    outputHashInOutputHashesSiblings: seq<Bytes>, outputHashesInEpochSiblings: seq<Bytes>)

  datatype ProofResponse = ProofResponse(
    inputIndex: nat, outputIndex: nat, outputEnum: OutputEnum, validity: Option<ValidityResponse>, context: Bytes)

  /** The answer to a finish-epoch request. */
  datatype Sealed = Sealed(
    vouchersEpochRootHash: Option<Bytes>, noticesEpochRootHash: Option<Bytes>, machineHash: Option<Bytes>,
    proofs: seq<ProofResponse>)

  function ConvertSized(name: string, expected: nat, data: Bytes): Converted<Bytes> {
    if |data| == expected then Ok(data) else Err(WrongArraySizeError(name, expected, |data|))
  }

  function ConvertHash(field: string, hash: Option<Bytes>): Converted<Bytes> {
    match hash
    case None => Err(MissingFieldError(field))
    case Some(data) => ConvertSized("hash", HASH_SIZE, data)
  }

  function ConvertAddress(field: string, address: Option<Bytes>): Converted<Bytes> {
    match address
    case None => Err(MissingFieldError(field))
    case Some(data) => ConvertSized("address", ADDRESS_SIZE, data)
  }

  /** The hashes, or the first error. */
  function ConvertHashes(hashes: seq<Bytes>): (r: Converted<seq<Bytes>>)
    ensures r.Err? ==> r.error.WrongArraySizeError?
  {
    if hashes == [] then Ok([])
    else
      match ConvertHashes(Front(hashes))
      case Err(e) => Err(e)
      case Ok(some) =>
        match ConvertSized("hash", HASH_SIZE, Last(hashes))
        case Err(e) => Err(e)
        case Ok(hash) => Ok(some + [hash])
  }

  function ConvertValidity(v: ValidityResponse): (r: Converted<Validity>)
    ensures r.Err? ==> r.error.WrongArraySizeError? || r.error.MissingFieldError?
  {
    var outputs := ConvertHash("validity.output_hashes_root_hash", v.outputHashesRootHash);
    var vouchers := ConvertHash("validity.vouchers_epoch_root_hash", v.vouchersEpochRootHash);
    var notices := ConvertHash("validity.notices_epoch_root_hash", v.noticesEpochRootHash);
    var machine := ConvertHash("validity.machine_state_hash", v.machineStateHash);
    var siblings := ConvertHashes(v.outputHashInOutputHashesSiblings);
    var inEpoch := ConvertHashes(v.outputHashesInEpochSiblings);
    if outputs.Err? then Err(outputs.error)
    else if vouchers.Err? then Err(vouchers.error)
    else if notices.Err? then Err(notices.error)
    else if machine.Err? then Err(machine.error)
    else if siblings.Err? then Err(siblings.error)
    else if inEpoch.Err? then Err(inEpoch.error)
    else
      Ok(Validity(v.inputIndexWithinEpoch, v.outputIndexWithinInput, outputs.value, vouchers.value,
                  notices.value, machine.value, siblings.value, inEpoch.value))
  }

  function ConvertProof(p: ProofResponse): (r: Converted<RollupsOutput>)
    ensures r.Ok? ==> r.value.Proof?
    ensures r.Err? ==> r.error.WrongArraySizeError? || r.error.MissingFieldError?
  {
    match p.validity
    case None => Err(MissingFieldError("proof.validity"))
    case Some(v) =>
      match ConvertValidity(v)
      case Err(e) => Err(e)
      case Ok(validity) => Ok(Proof(p.inputIndex, p.outputIndex, p.outputEnum, validity, p.context))
  }

  /** The proofs, or the first error. */
  function ConvertProofs(proofs: seq<ProofResponse>): (r: Converted<seq<RollupsOutput>>)
    ensures r.Ok? ==> |r.value| == |proofs| && forall p | p in r.value :: p.Proof?
    ensures r.Err? ==> r.error.WrongArraySizeError? || r.error.MissingFieldError?
  {
    if proofs == [] then Ok([])
    else
      match ConvertProofs(Front(proofs))
      case Err(e) => Err(e)
      case Ok(some) =>
        match ConvertProof(Last(proofs))
        case Err(e) => Err(e)
        case Ok(proof) => Ok(some + [proof])
  }

  /** The bytes whose hash is the epoch hash. */
  function EpochPreimage(sealed: Sealed): Converted<Bytes> {
    var vouchers := ConvertHash("response.vouchers_epoch_root_hash", sealed.vouchersEpochRootHash);
    var notices := ConvertHash("response.notices_epoch_root_hash", sealed.noticesEpochRootHash);
    var machine := ConvertHash("response.machine_hash", sealed.machineHash);
    if vouchers.Err? then Err(vouchers.error)
    else if notices.Err? then Err(notices.error)
    else if machine.Err? then Err(machine.error)
    else Ok(vouchers.value + notices.value + machine.value)
  }

  predicate Convertible(sealed: Sealed) {
    EpochPreimage(sealed).Ok? && ConvertProofs(sealed.proofs).Ok?
  }

  /** The proofs of an answer that can be converted. */
  function ProofsOf(sealed: Sealed): (r: seq<RollupsOutput>)
    ensures forall p | p in r :: p.Proof?
  {
    if ConvertProofs(sealed.proofs).Ok? then ConvertProofs(sealed.proofs).value else []
  }

  // ------------------------------------------------------------------ nothing is lost

  predicate IsHash(field: Option<Bytes>) {
    field.Some? && |field.value| == HASH_SIZE
  }

  predicate AllHashes(hashes: seq<Bytes>) {
    forall i | 0 <= i < |hashes| :: |hashes[i]| == HASH_SIZE
  }

  /** Every field that a proof needs is there and has the size of a hash. */
  predicate Complete(p: ProofResponse) {
    && p.validity.Some?
    && var v := p.validity.value;
       && IsHash(v.outputHashesRootHash) && IsHash(v.vouchersEpochRootHash)
       && IsHash(v.noticesEpochRootHash) && IsHash(v.machineStateHash)
       && AllHashes(v.outputHashInOutputHashesSiblings) && AllHashes(v.outputHashesInEpochSiblings)
  }

  /** The answer that a proof comes from. */
  function ResponseOf(p: RollupsOutput): ProofResponse
    requires p.Proof?
  {
    var v := p.validity;
    ProofResponse(p.inputIndex, p.outputIndex, p.outputEnum,
                  Some(ValidityResponse(
                         v.inputIndexWithinEpoch, v.outputIndexWithinInput,
                         Some(v.outputHashesRootHash), Some(v.vouchersEpochRootHash),
                         Some(v.noticesEpochRootHash), Some(v.machineStateHash),
                         v.outputHashInOutputHashesSiblings, v.outputHashesInEpochSiblings)),
                  p.context)
  }

  lemma {:induction false} HashesAreKept(hashes: seq<Bytes>)
    ensures ConvertHashes(hashes).Ok? <==> AllHashes(hashes)
    ensures ConvertHashes(hashes).Ok? ==> ConvertHashes(hashes).value == hashes
  {
    if hashes != [] {
      HashesAreKept(Front(hashes));
      assert hashes == Front(hashes) + [Last(hashes)];
    }
  }

  /** A proof is converted if and only if its answer is complete, and tells the whole answer. */
  lemma {:induction false} ProofIsKept(p: ProofResponse)
    ensures ConvertProof(p).Ok? <==> Complete(p)
    ensures ConvertProof(p).Ok? ==> ResponseOf(ConvertProof(p).value) == p
  {
    if p.validity.Some? {
      HashesAreKept(p.validity.value.outputHashInOutputHashesSiblings);
      HashesAreKept(p.validity.value.outputHashesInEpochSiblings);
    }
  }

  /** What is wrong with a field that is not a hash. */
  function FieldError(name: string, field: Option<Bytes>): ServerManagerError {
    if field.None? then MissingFieldError(name) else WrongArraySizeError("hash", HASH_SIZE, |field.value|)
  }

  /** The epoch hash can be computed if and only if its three hashes are there; otherwise the first that is not is named. */
  lemma {:induction false} EpochHashNeeds(sealed: Sealed)
    ensures EpochPreimage(sealed).Ok? <==>
            IsHash(sealed.vouchersEpochRootHash) && IsHash(sealed.noticesEpochRootHash) && IsHash(sealed.machineHash)
    ensures EpochPreimage(sealed).Err? ==>
              EpochPreimage(sealed).error ==
              if !IsHash(sealed.vouchersEpochRootHash) then
                FieldError("response.vouchers_epoch_root_hash", sealed.vouchersEpochRootHash)
              else if !IsHash(sealed.noticesEpochRootHash) then
                FieldError("response.notices_epoch_root_hash", sealed.noticesEpochRootHash)
              else FieldError("response.machine_hash", sealed.machineHash)
  {
  }

  /** A proof that is not complete is refused for the first field that is wrong. */
  lemma {:induction false} ProofErrorNamesField(p: ProofResponse)
    requires !Complete(p)
    ensures ConvertProof(p).Err?
    ensures var e := ConvertProof(p).error;
            if p.validity.None? then e == MissingFieldError("proof.validity")
            else
              var v := p.validity.value;
              if !IsHash(v.outputHashesRootHash) then
                e == FieldError("validity.output_hashes_root_hash", v.outputHashesRootHash)
              else if !IsHash(v.vouchersEpochRootHash) then
                e == FieldError("validity.vouchers_epoch_root_hash", v.vouchersEpochRootHash)
              else if !IsHash(v.noticesEpochRootHash) then
                e == FieldError("validity.notices_epoch_root_hash", v.noticesEpochRootHash)
              else if !IsHash(v.machineStateHash) then
                e == FieldError("validity.machine_state_hash", v.machineStateHash)
              else e.WrongArraySizeError?
  {
    ProofIsKept(p);
  }

  /** All proofs are converted if and only if all are complete, each at its place. */
  lemma {:induction false} ProofsAreKept(proofs: seq<ProofResponse>)
    ensures ConvertProofs(proofs).Ok? <==> forall i | 0 <= i < |proofs| :: Complete(proofs[i])
    ensures ConvertProofs(proofs).Ok? ==>
              forall i | 0 <= i < |proofs| :: ResponseOf(ConvertProofs(proofs).value[i]) == proofs[i]
  {
    if proofs != [] {
      ProofsAreKept(Front(proofs));
      ProofIsKept(Last(proofs));
      assert proofs == Front(proofs) + [Last(proofs)];
    }
  }

  /** Answers with different hashes give different epoch preimages. */
  lemma {:induction false} EpochPreimageIsInjective(a: Sealed, b: Sealed)
    requires EpochPreimage(a).Ok? && EpochPreimage(b).Ok?
    ensures EpochPreimage(a) == EpochPreimage(b) <==>
            && a.vouchersEpochRootHash == b.vouchersEpochRootHash
            && a.noticesEpochRootHash == b.noticesEpochRootHash
            && a.machineHash == b.machineHash
  {
    PartsOf(a);
    PartsOf(b);
  }

  lemma {:induction false} PartsOf(a: Sealed)
    requires EpochPreimage(a).Ok?
    ensures var preimage := EpochPreimage(a).value;
            && |preimage| == 3 * HASH_SIZE
            && a.vouchersEpochRootHash == Some(preimage[..HASH_SIZE])
            && a.noticesEpochRootHash == Some(preimage[HASH_SIZE..2 * HASH_SIZE])
            && a.machineHash == Some(preimage[2 * HASH_SIZE..])
  {
    var v, n, m := a.vouchersEpochRootHash.value, a.noticesEpochRootHash.value, a.machineHash.value;
    var preimage := v + n + m;
    assert preimage[..HASH_SIZE] == v;
    assert preimage[HASH_SIZE..2 * HASH_SIZE] == n;
    assert preimage[2 * HASH_SIZE..] == m;
  }
}
