/** The text that is hashed for a voucher or a notice, against the Solidity contract ABI encoding. */
module AbiEncoding {
  import opened Common
  import opened RollupsEvents

  const TWO_64: nat := 0x1_0000_0000_0000_0000

  function Zeros(n: nat): (r: Bytes)
    ensures |r| == n
  {
    seq(n, _ => 0)
  }

  /** The `k` low bytes of `n`, the highest first. */
  function BigEndian(n: nat, k: nat): (r: Bytes)
    ensures |r| == k
  {
    if k == 0 then [] else BigEndian(n / 256, k - 1) + [(n % 256) as byte]
  }

  // ------------------------------------------------------------------ the writer

  /** How many zeros are missing after `n` bytes to fill a word. */
  function Missing(n: nat): (r: nat)
    ensures (n + r) % HASH_SIZE == 0 && r < HASH_SIZE
  {
    if n % HASH_SIZE == 0 then 0 else HASH_SIZE - n % HASH_SIZE
  }

  /** A hasher, seen as the bytes it was given. */
  class Hasher {
    var data: Bytes

    constructor ()
      ensures data == []
    {
      data := [];
    }

    method Update(bytes: Bytes)
      modifies this
      ensures data == old(data) + bytes
    {
      data := data + bytes;
    }
  }

  method WritePadding(hasher: Hasher, n: nat)
    modifies hasher
    ensures hasher.data == old(hasher.data) + Zeros(Missing(n))
  {
    var alignment := n % HASH_SIZE;
    assert Zeros(0) == [];
    if alignment != 0 {
      for i := alignment to HASH_SIZE
        invariant hasher.data == old(hasher.data) + Zeros(i - alignment)
      {
        hasher.Update([0]);
        assert Zeros(i + 1 - alignment) == Zeros(i - alignment) + [0];
      }
    }
  }

  method WriteU64(hasher: Hasher, value: nat)
    modifies hasher
    ensures hasher.data == old(hasher.data) + U64Word(value)
  {
    WritePadding(hasher, 8);
    hasher.Update(BigEndian(value, 8));
  }

  method WriteData(hasher: Hasher, data: Bytes)
    modifies hasher
    ensures hasher.data == old(hasher.data) + Padded(data)
  {
    WritePadding(hasher, |data|);
    hasher.Update(data);
  }

  method WritePayload(hasher: Hasher, payload: Bytes)
    modifies hasher
    ensures hasher.data == old(hasher.data) + PayloadWords(payload)
  {
    WriteU64(hasher, |payload|);
    hasher.Update(payload);
    WritePadding(hasher, |payload|);
  }

  method ComputeVoucherPreimage(destination: Bytes, payload: Bytes) returns (preimage: Bytes)
    ensures preimage == VoucherPreimage(destination, payload)
  {
    var hasher := new Hasher();
    WriteData(hasher, destination);
    WriteU64(hasher, 0x40);
    WritePayload(hasher, payload);
    return hasher.data;
  }

  method ComputeNoticePreimage(payload: Bytes) returns (preimage: Bytes)
    ensures preimage == NoticePreimage(payload)
  {
    var hasher := new Hasher();
    WriteU64(hasher, 0x20);
    WritePayload(hasher, payload);
    return hasher.data;
  }

  function U64Word(value: nat): (r: Bytes)
    ensures |r| == HASH_SIZE
  {
    Zeros(24) + BigEndian(value, 8)
  }

  function PayloadWords(payload: Bytes): Bytes {
    U64Word(|payload|) + payload + Zeros(Missing(|payload|))
  }

  function Padded(data: Bytes): (r: Bytes)
    ensures |r| == |data| + Missing(|data|)
  {
    Zeros(Missing(|data|)) + data
  }

  function VoucherPreimage(destination: Bytes, payload: Bytes): Bytes {
    Padded(destination) + U64Word(0x40) + PayloadWords(payload)
  }

  function NoticePreimage(payload: Bytes): Bytes {
    U64Word(0x20) + PayloadWords(payload)
  }

  // ------------------------------------------------------------------ the specification

  datatype Value = AddressValue(address: Bytes) | BytesValue(bytes: Bytes)

  predicate Dynamic(v: Value) {
    v.BytesValue?
  }

  function Uint256(n: nat): (r: Bytes)
    ensures |r| == 32
  {
    BigEndian(n, 32)
  }

  /** `enc` of the specification: an address is padded on the left; bytes follow their number and are padded on the right. */
  function Enc(v: Value): Bytes {
    match v
    case AddressValue(address) => (if |address| <= 32 then Zeros(32 - |address|) else []) + address
    case BytesValue(bytes) => Uint256(|bytes|) + bytes + Zeros((32 - |bytes| % 32) % 32)
  }

  /** Heads are one word each. */
  function HeadSize(vs: seq<Value>): nat {
    32 * |vs|
  }

  function Tails(vs: seq<Value>): Bytes {
    if vs == [] then [] else Tails(Front(vs)) + if Dynamic(Last(vs)) then Enc(Last(vs)) else []
  }

  /** The head of each value: the value itself, or where its tail begins. */
  function Heads(vs: seq<Value>, n: nat): Bytes
    requires n <= |vs|
  {
    if n == 0 then []
    else
      var v := vs[n - 1];
      Heads(vs, n - 1) + if Dynamic(v) then Uint256(HeadSize(vs) + |Tails(vs[..n - 1])|) else Enc(v)
  }

  /** `abi.encode` of the values. */
  function AbiEncode(vs: seq<Value>): Bytes {
    Heads(vs, |vs|) + Tails(vs)
  }

  // ------------------------------------------------------------------ agreement

  function Power(k: nat): (r: nat)
    ensures r > 0
  {
    if k == 0 then 1 else 256 * Power(k - 1)
  }

  lemma {:induction false} PowerOfEight()
    ensures Power(8) == TWO_64
  {
    assert Power(2) == 0x1_0000;
    assert Power(4) == 0x1_0000_0000;
    assert Power(6) == 0x1_0000_0000_0000;
  }

  lemma {:induction false} HighBytesAreZero(n: nat, k: nat, more: nat)
    requires n < Power(k)
    ensures BigEndian(n, more + k) == Zeros(more) + BigEndian(n, k)
    decreases k
  {
    if k == 0 {
      ZeroBytes(more);
      assert Zeros(more) + [] == Zeros(more);
    } else {
      HighBytesAreZero(n / 256, k - 1, more);
      assert more + k - 1 == more + (k - 1);
    }
  }

  lemma {:induction false} ZeroBytes(k: nat)
    ensures BigEndian(0, k) == Zeros(k)
  {
    if k > 0 {
      ZeroBytes(k - 1);
      assert Zeros(k) == Zeros(k - 1) + [0];
    }
  }

  /** Writing 64 bits fills the word of a 256-bit number. */
  lemma {:induction false} WordIsUint256(n: nat)
    requires n < TWO_64
    ensures U64Word(n) == Uint256(n)
  {
    PowerOfEight();
    HighBytesAreZero(n, 8, 24);
  }

  lemma {:induction false} PayloadIsEnc(payload: Bytes)
    requires |payload| < TWO_64
    ensures PayloadWords(payload) == Enc(BytesValue(payload))
  {
    WordIsUint256(|payload|);
  }

  /** The preimage of a notice is the encoding of its payload. */
  lemma {:induction false} NoticeIsAbi(payload: Bytes)
    requires |payload| < TWO_64
    ensures NoticePreimage(payload) == AbiEncode([BytesValue(payload)])
  {
    var v := BytesValue(payload);
    PayloadIsEnc(payload);
    WordIsUint256(0x20);
    assert Front([v]) == [] && [v][..0] == [];
    assert [] + Enc(v) == Enc(v) && [] + Uint256(0x20) == Uint256(0x20);
    assert Heads([v], 1) == Uint256(0x20);
  }

  /** The preimage of a voucher is the encoding of its destination and its payload. */
  lemma {:induction false} VoucherIsAbi(destination: Bytes, payload: Bytes)
    requires |destination| == ADDRESS_SIZE && |payload| < TWO_64
    ensures VoucherPreimage(destination, payload) == AbiEncode([AddressValue(destination), BytesValue(payload)])
  {
    var a, v := AddressValue(destination), BytesValue(payload);
    PayloadIsEnc(payload);
    WordIsUint256(0x40);
    TailsOfTwo(a, v);
    HeadsOfTwo(a, v);
    assert Zeros(12) + destination + Uint256(0x40) + Enc(v) == Enc(a) + Uint256(0x40) + Enc(v);
  }

  lemma {:induction false} TailsOfTwo(a: Value, v: Value)
    requires a.AddressValue? && v.BytesValue?
    ensures Tails([a]) == [] && Tails([a, v]) == Enc(v)
  {
    assert Front([a]) == [] && Front([a, v]) == [a];
    assert Tails([]) + [] == [];
  }

  lemma {:induction false} HeadsOfTwo(a: Value, v: Value)
    requires a.AddressValue? && v.BytesValue?
    ensures Heads([a, v], 2) == Enc(a) + Uint256(0x40)
  {
    TailsOfTwo(a, v);
    assert [a, v][..1] == [a];
    assert Heads([a, v], 0) == [];
    assert Heads([a, v], 1) == Enc(a);
  }

  /** Both fill whole words, whatever the destination. */
  lemma {:induction false} PreimagesFillWords(destination: Bytes, payload: Bytes)
    ensures |VoucherPreimage(destination, payload)| % HASH_SIZE == 0
    ensures |NoticePreimage(payload)| % HASH_SIZE == 0
  {
    var d, p := |destination| + Missing(|destination|), |payload| + Missing(|payload|);
    assert |VoucherPreimage(destination, payload)| == d + 64 + p;
    assert |NoticePreimage(payload)| == 64 + p;
  }

  // ------------------------------------------------------------------ injectivity

  function FromBigEndian(b: Bytes): nat {
    if b == [] then 0 else FromBigEndian(Front(b)) * 256 + Last(b) as int
  }

  lemma {:induction false} BigEndianRoundTrip(n: nat, k: nat)
    requires n < Power(k)
    ensures FromBigEndian(BigEndian(n, k)) == n
  {
    if k > 0 {
      BigEndianRoundTrip(n / 256, k - 1);
      assert Front(BigEndian(n, k)) == BigEndian(n / 256, k - 1);
    }
  }

  /** The payload that a preimage ends with, if its words begin at `at`. */
  function PayloadAt(preimage: Bytes, at: nat): Option<Bytes> {
    if |preimage| < at + 32 then None
    else
      var size := FromBigEndian(preimage[at + 24..at + 32]);
      if |preimage| < at + 32 + size then None else Some(preimage[at + 32..at + 32 + size])
  }

  lemma {:induction false} PayloadIsRecovered(head: Bytes, payload: Bytes)
    requires |payload| < TWO_64
    ensures PayloadAt(head + PayloadWords(payload), |head|) == Some(payload)
  {
    var at, preimage := |head|, head + PayloadWords(payload);
    PowerOfEight();
    BigEndianRoundTrip(|payload|, 8);
    assert preimage[at + 24..at + 32] == BigEndian(|payload|, 8);
    assert preimage[at + 32..at + 32 + |payload|] == payload;
  }

  /** Both parts of a voucher can be read back, so different vouchers have different preimages. */
  lemma {:induction false} VoucherIsRecovered(destination: Bytes, payload: Bytes)
    requires |destination| == ADDRESS_SIZE && |payload| < TWO_64
    ensures |VoucherPreimage(destination, payload)| >= 32
    ensures VoucherPreimage(destination, payload)[12..32] == destination
    ensures PayloadAt(VoucherPreimage(destination, payload), 64) == Some(payload)
  {
    var head := Zeros(12) + destination + U64Word(0x40);
    PayloadIsRecovered(head, payload);
  }

  lemma {:induction false} NoticeIsRecovered(payload: Bytes)
    requires |payload| < TWO_64
    ensures PayloadAt(NoticePreimage(payload), 32) == Some(payload)
  {
    PayloadIsRecovered(U64Word(0x20), payload);
  }

  lemma {:induction false} VouchersAreInjective(d1: Bytes, p1: Bytes, d2: Bytes, p2: Bytes)
    requires |d1| == |d2| == ADDRESS_SIZE && |p1| < TWO_64 && |p2| < TWO_64
    ensures VoucherPreimage(d1, p1) == VoucherPreimage(d2, p2) <==> d1 == d2 && p1 == p2
  {
    VoucherIsRecovered(d1, p1);
    VoucherIsRecovered(d2, p2);
  }

  lemma {:induction false} NoticesAreInjective(p1: Bytes, p2: Bytes)
    requires |p1| < TWO_64 && |p2| < TWO_64
    ensures NoticePreimage(p1) == NoticePreimage(p2) <==> p1 == p2
  {
    NoticeIsRecovered(p1);
    NoticeIsRecovered(p2);
  }

  /** More generally, destinations of equal length are never confused. */
  lemma {:induction false} EqualLengthsAreInjective(d1: Bytes, p1: Bytes, d2: Bytes, p2: Bytes)
    requires |d1| == |d2| && |p1| < TWO_64 && |p2| < TWO_64
    ensures VoucherPreimage(d1, p1) == VoucherPreimage(d2, p2) <==> d1 == d2 && p1 == p2
  {
    PartsAreRecovered(d1, p1);
    PartsAreRecovered(d2, p2);
  }

  lemma {:induction false} PartsAreRecovered(destination: Bytes, payload: Bytes)
    requires |payload| < TWO_64
    ensures var preimage, n, m := VoucherPreimage(destination, payload), |destination|, Missing(|destination|);
            && |preimage| >= n + m && preimage[m..n + m] == destination
            && PayloadAt(preimage, n + m + 32) == Some(payload)
  {
    var n, m := |destination|, Missing(|destination|);
    var head := Padded(destination) + U64Word(0x40);
    PayloadIsRecovered(head, payload);
    assert Padded(destination)[m..n + m] == destination;
    assert VoucherPreimage(destination, payload)[m..n + m] == Padded(destination)[m..n + m];
  }

  lemma {:induction false} ZerosInFrontAreLost(data: Bytes)
    requires 0 < |data| < HASH_SIZE
    ensures Padded([0] + data) == Padded(data)
  {
    var n := HASH_SIZE - |data|;
    assert Zeros(n) == Zeros(n - 1) + [0];
    assert Zeros(n) + data == Zeros(n - 1) + ([0] + data);
  }

  /** For destinations of different lengths that is false: zeros in front of a short one are lost in the padding. */
  lemma {:induction false} ShortDestinationsCollide(destination: Bytes, payload: Bytes)
    requires 0 < |destination| < HASH_SIZE
    ensures VoucherPreimage([0] + destination, payload) == VoucherPreimage(destination, payload)
  {
    ZerosInFrontAreLost(destination);
  }
}
