/** The two signed forms of one owner message (`owner.rs`): the leg check both pass first, the
    EIP-712 struct a secp256k1 owner signs, and that it binds exactly what the text binds.

    Hashing is modelled as a free constructor: two digests are equal only for equal
    preimages. The rest of an EIP-712 preimage is 32-byte words. */
module OwnerMessages {
  import opened Numbers
  import opened Wrappers
  import opened Printing
  import opened OwnerText
  import OwnerReader

  // ---- check_legs ----

  /** The nonce the message was built with; a retirement has none. */
  function NonceOf(m: KeyMessage): Option<u64> {
    match m
    case Register(_, n, _) => Some(n)
    case Revoke(n) => Some(n)
    case Cancel(n) => Some(n)
    case Retire(_, _) => None
    case ApproveMaker(_, _, n, _) => Some(n)
    case Repin(_, _, _, n) => Some(n)
  }

  /** The legs that name this registry, whatever their nonce. */
  function Mine(chainId: u128, registry: Word, legs: seq<KeyLeg>): seq<KeyLeg> {
    if legs == [] then []
    else
      var rest := Mine(chainId, registry, legs[1..]);
      if legs[0].chainId == chainId && legs[0].registry == registry then [legs[0]] + rest else rest
  }

  /** Exactly one leg names this registry and it carries the current nonce; a retirement
      names none. */
  predicate CheckLegs(chainId: u128, registry: Word, legs: seq<KeyLeg>, m: KeyMessage) {
    match NonceOf(m)
    case None => legs == []
    case Some(n) =>
      var mine := Mine(chainId, registry, legs);
      |mine| == 1 && mine[0].nonce == n
  }

  /** The leg check pins the nonce: it can be read back from the legs alone. */
  lemma LegsCarryNonce(chainId: u128, registry: Word, legs: seq<KeyLeg>, m1: KeyMessage, m2: KeyMessage)
    requires CheckLegs(chainId, registry, legs, m1) && CheckLegs(chainId, registry, legs, m2)
    requires OwnerReader.WithoutNonce(m1) == OwnerReader.WithoutNonce(m2)
    ensures m1 == m2
  {
  }

  // ---- EIP-712 ----

  datatype Chunk = Raw(word: Word) | Keccak(preimage: seq<Chunk>)

  /** `v` big-endian in `n` bytes. */
  function BigEndian(v: nat, n: nat): (s: seq<byte>)
    ensures |s| == n
  {
    if n == 0 then [] else BigEndian(v / 256, n - 1) + [(v % 256) as byte]
  }

  function FromBigEndian(s: seq<byte>): nat {
    if s == [] then 0 else 256 * FromBigEndian(s[..|s| - 1]) + s[|s| - 1] as nat
  }

  function Pow256(n: nat): nat {
    if n == 0 then 1 else 256 * Pow256(n - 1)
  }

  lemma {:induction false} BigEndianReadsBack(v: nat, n: nat)
    requires v < Pow256(n)
    ensures FromBigEndian(BigEndian(v, n)) == v
  {
    if n > 0 {
      BigEndianReadsBack(v / 256, n - 1);
      var s := BigEndian(v, n);
      assert s[..|s| - 1] == BigEndian(v / 256, n - 1);
    }
  }

  /** `abi_encode_uint256`: the number's 16 bytes after 16 zero bytes. */
  function AbiUint(v: u128): Word {
    seq(16, _ => 0 as byte) + BigEndian(v, 16)
  }

  lemma AbiUintInjective(a: u128, b: u128)
    ensures AbiUint(a) == AbiUint(b) <==> a == b
  {
    assert Pow256(16) == U128_MAX + 1 by {
      assert Pow256(4) == 4_294_967_296;
      assert Pow256(8) == 256 * (256 * (256 * (256 * Pow256(4))));
      assert Pow256(12) == 256 * (256 * (256 * (256 * Pow256(8))));
      assert Pow256(16) == 256 * (256 * (256 * (256 * Pow256(12))));
    }
    BigEndianReadsBack(a, 16);
    BigEndianReadsBack(b, 16);
    assert AbiUint(a)[16..] == BigEndian(a, 16);
    assert AbiUint(b)[16..] == BigEndian(b, 16);
  }

  /** The type hash of each struct: one constant a message type. */
  function KeyLegTypeHash(): Word {
    [
     0xfa, 0x75, 0xaf, 0x9d, 0x4f, 0x7f, 0x23, 0x32, 0x33, 0xf7, 0x04, 0x6e, 0x92, 0x9e, 0xf4, 0x0c,
     0xd6, 0xd1, 0x7e, 0xe3, 0xc0, 0xf5, 0x79, 0xae, 0xae, 0x91, 0xb2, 0xc8, 0x69, 0x7b, 0x95, 0x99]
  }

  function RegisterTypeHash(): Word {
    [
     0x86, 0xb4, 0xf5, 0xa5, 0xd0, 0x73, 0x5e, 0x9a, 0x7a, 0x9e, 0xb9, 0xdf, 0xa3, 0x2f, 0x81, 0x36,
     0x4b, 0x16, 0x02, 0xf5, 0x09, 0x8d, 0x95, 0x18, 0x2d, 0xa5, 0x06, 0xee, 0xf7, 0x02, 0x7c, 0x92]
  }

  function RevokeTypeHash(): Word {
    [
     0xd2, 0xcc, 0x96, 0x44, 0xd4, 0xc5, 0xbc, 0xcc, 0xcd, 0x70, 0x6c, 0xaf, 0xc5, 0x8d, 0x84, 0x44,
     0x9d, 0x6f, 0x6d, 0x11, 0x32, 0x97, 0xaa, 0x87, 0x8f, 0x49, 0xd2, 0x4a, 0xc6, 0x72, 0xa8, 0x25]
  }

  function CancelTypeHash(): Word {
    [
     0x35, 0x28, 0xec, 0x7f, 0x94, 0x8a, 0x36, 0xba, 0xeb, 0x96, 0x10, 0x76, 0x7a, 0xa9, 0xf0, 0x59,
     0x22, 0xe7, 0xe1, 0x4d, 0x2e, 0xab, 0xe5, 0x11, 0x42, 0xe5, 0x8c, 0x74, 0x37, 0x78, 0xd1, 0x2f]
  }

  function RetireTypeHash(): Word {
    [
     0x1a, 0xbc, 0x6d, 0xf0, 0x38, 0xc1, 0x82, 0xce, 0x09, 0x98, 0x12, 0x1f, 0x30, 0x6e, 0x7b, 0xd9,
     0xa9, 0xf4, 0xb4, 0xa0, 0x10, 0xfc, 0x40, 0xd9, 0x09, 0x30, 0x8c, 0x8e, 0x77, 0xcb, 0x90, 0xfd]
  }

  function ApproveMakerTypeHash(): Word {
    [
     0x1a, 0xcb, 0x1f, 0x6f, 0xfc, 0x96, 0x0f, 0xf0, 0x61, 0xd0, 0xad, 0x70, 0xe5, 0x84, 0x83, 0x18,
     0x41, 0xb1, 0xfa, 0x26, 0x81, 0x5c, 0xed, 0x60, 0x8b, 0x79, 0x8b, 0x3b, 0x50, 0xd0, 0xab, 0x72]
  }

  function RepinTypeHash(): Word {
    [
     0xf4, 0x1d, 0xf3, 0xe8, 0xe1, 0x0a, 0x8c, 0x2c, 0x53, 0x47, 0xb1, 0x0a, 0x39, 0x8e, 0xa5, 0x76,
     0x04, 0x5b, 0x4b, 0x3f, 0x01, 0xc4, 0x32, 0x33, 0x85, 0x83, 0x69, 0xdb, 0x38, 0xd5, 0x12, 0xc5]
  }

  function TypeHashOf(m: KeyMessage): Word {
    match m
    case Register(_, _, _) => RegisterTypeHash()
    case Revoke(_) => RevokeTypeHash()
    case Cancel(_) => CancelTypeHash()
    case Retire(_, _) => RetireTypeHash()
    case ApproveMaker(_, _, _, _) => ApproveMakerTypeHash()
    case Repin(_, _, _, _) => RepinTypeHash()
  }

  predicate SameType(m1: KeyMessage, m2: KeyMessage) {
    && m1.Register? == m2.Register? && m1.Revoke? == m2.Revoke? && m1.Cancel? == m2.Cancel?
    && m1.Retire? == m2.Retire? && m1.ApproveMaker? == m2.ApproveMaker?
  }

  /** The first two bytes already tell the types apart. */
  lemma TypeHashesDiffer(m1: KeyMessage, m2: KeyMessage)
    ensures TypeHashOf(m1) == TypeHashOf(m2) <==> SameType(m1, m2)
  {
    if SameType(m1, m2) {
      SameTypeSameHash(m1, m2);
    } else {
      LeadingBytes(m1);
      LeadingBytes(m2);
      LeadsDiffer(m1, m2);
    }
  }

  lemma SameTypeSameHash(m1: KeyMessage, m2: KeyMessage)
    requires SameType(m1, m2)
    ensures TypeHashOf(m1) == TypeHashOf(m2)
  {
  }

  lemma LeadsDiffer(m1: KeyMessage, m2: KeyMessage)
    requires !SameType(m1, m2)
    ensures LeadOf(m1) != LeadOf(m2)
  {
  }

  /** The two leading bytes of a message type's hash. */
  function LeadOf(m: KeyMessage): (nat, nat) {
    match m
    case Register(_, _, _) => (0x86, 0xb4)
    case Revoke(_) => (0xd2, 0xcc)
    case Cancel(_) => (0x35, 0x28)
    case Retire(_, _) => (0x1a, 0xbc)
    case ApproveMaker(_, _, _, _) => (0x1a, 0xcb)
    case Repin(_, _, _, _) => (0xf4, 0x1d)
  }

  lemma RegisterLead()
    ensures RegisterTypeHash()[0] == 0x86 && RegisterTypeHash()[1] == 0xb4
  {
  }

  lemma RevokeLead()
    ensures RevokeTypeHash()[0] == 0xd2 && RevokeTypeHash()[1] == 0xcc
  {
  }

  lemma CancelLead()
    ensures CancelTypeHash()[0] == 0x35 && CancelTypeHash()[1] == 0x28
  {
  }

  lemma RetireLead()
    ensures RetireTypeHash()[0] == 0x1a && RetireTypeHash()[1] == 0xbc
  {
  }

  lemma ApproveMakerLead()
    ensures ApproveMakerTypeHash()[0] == 0x1a && ApproveMakerTypeHash()[1] == 0xcb
  {
  }

  lemma RepinLead()
    ensures RepinTypeHash()[0] == 0xf4 && RepinTypeHash()[1] == 0x1d
  {
  }

  lemma LeadingBytes(m: KeyMessage)
    ensures TypeHashOf(m)[0] as nat == LeadOf(m).0 && TypeHashOf(m)[1] as nat == LeadOf(m).1
  {
    match m {
      case Register(_, _, _) => RegisterLead();
      case Revoke(_) => RevokeLead();
      case Cancel(_) => CancelLead();
      case Retire(_, _) => RetireLead();
      case ApproveMaker(_, _, _, _) => ApproveMakerLead();
      case Repin(_, _, _, _) => RepinLead();
    }
  }

  function LegHash(l: KeyLeg): Chunk {
    Keccak([Raw(KeyLegTypeHash()), Raw(AbiUint(l.chainId)), Raw(l.registry), Raw(AbiUint(l.nonce))])
  }

  function LegHashes(legs: seq<KeyLeg>): (hs: seq<Chunk>)
    ensures |hs| == |legs|
    ensures forall i :: 0 <= i < |legs| ==> hs[i] == LegHash(legs[i])
  {
    if legs == [] then [] else [LegHash(legs[0])] + LegHashes(legs[1..])
  }

  function Bit(b: bool): nat {
    if b then 1 else 0
  }

  /** The words after the type hash and the account: the fields, the legs' hash in its place. */
  function StructFields(legs: seq<KeyLeg>, m: KeyMessage): seq<Chunk> {
    var legsHash := Keccak(LegHashes(legs));
    match m
    case Register(k, _, d) => [Raw(k), legsHash, Raw(AbiUint(d))]
    case Revoke(_) => [legsHash]
    case Cancel(_) => [legsHash]
    case Retire(k, v) => [Raw(k), Raw(AbiUint(v))]
    case ApproveMaker(maker, a, _, d) => [Raw(maker), Raw(AbiUint(Bit(a))), legsHash, Raw(AbiUint(d))]
    case Repin(h, f, t, _) => [Raw(h), Raw(AbiUint(f)), Raw(AbiUint(t)), legsHash]
  }

  /** What `struct_hash` hashes. */
  function StructPreimage(account: Word, legs: seq<KeyLeg>, m: KeyMessage): seq<Chunk> {
    [Raw(TypeHashOf(m)), Raw(account)] + StructFields(legs, m)
  }

  /** `legs_hash`: one digest a leg, in order, hashed together. */
  method HashLegs(legs: seq<KeyLeg>) returns (h: Chunk)
    ensures h == Keccak(LegHashes(legs))
  {
    var all: seq<Chunk> := [];
    for i := 0 to |legs|
      invariant |all| == i && forall k :: 0 <= k < i ==> all[k] == LegHash(legs[k])
    {
      var enc := [Raw(KeyLegTypeHash())];
      enc := enc + [Raw(AbiUint(legs[i].chainId))];
      enc := enc + [Raw(legs[i].registry)];
      enc := enc + [Raw(AbiUint(legs[i].nonce))];
      all := all + [Keccak(enc)];
    }
    assert all == LegHashes(legs);
    h := Keccak(all);
  }

  /** `struct_hash`, word by word in the order the type string lists them. */
  method StructHash(account: Word, legs: seq<KeyLeg>, m: KeyMessage) returns (digest: Chunk)
    ensures digest == Keccak(StructPreimage(account, legs, m))
  {
    var enc := [Raw(TypeHashOf(m)), Raw(account)];
    match m {
      case Register(k, _, d) =>
        var h := HashLegs(legs);
        enc := enc + [Raw(k), h, Raw(AbiUint(d))];
      case Revoke(_) =>
        var h := HashLegs(legs);
        enc := enc + [h];
      case Cancel(_) =>
        var h := HashLegs(legs);
        enc := enc + [h];
      case Retire(k, v) =>
        enc := enc + [Raw(k), Raw(AbiUint(v))];
      case ApproveMaker(maker, a, _, d) =>
        var h := HashLegs(legs);
        enc := enc + [Raw(maker), Raw(AbiUint(Bit(a))), h, Raw(AbiUint(d))];
      case Repin(o, f, t, _) =>
        var h := HashLegs(legs);
        enc := enc + [Raw(o), Raw(AbiUint(f)), Raw(AbiUint(t)), h];
    }
    digest := Keccak(enc);
  }

  // ---- the struct determines the message ----

  lemma LegHashInjective(a: KeyLeg, b: KeyLeg)
    requires LegHash(a) == LegHash(b)
    ensures a == b
  {
    var pa, pb := LegHash(a).preimage, LegHash(b).preimage;
    assert pa[1] == pb[1] && pa[2] == pb[2] && pa[3] == pb[3];
    AbiUintInjective(a.chainId, b.chainId);
    AbiUintInjective(a.nonce, b.nonce);
  }

  lemma LegHashesInjective(a: seq<KeyLeg>, b: seq<KeyLeg>)
    requires LegHashes(a) == LegHashes(b)
    ensures a == b
  {
    forall i | 0 <= i < |a| ensures a[i] == b[i] {
      assert LegHashes(a)[i] == LegHashes(b)[i];
      LegHashInjective(a[i], b[i]);
    }
  }

  /** What a struct preimage binds: account, fields and, unless it is a retirement, the legs. */
  lemma PreimageDetermines(a1: Word, l1: seq<KeyLeg>, m1: KeyMessage, a2: Word, l2: seq<KeyLeg>, m2: KeyMessage)
    requires StructPreimage(a1, l1, m1) == StructPreimage(a2, l2, m2)
    ensures a1 == a2 && OwnerReader.WithoutNonce(m1) == OwnerReader.WithoutNonce(m2)
    ensures m1.Retire? || l1 == l2
  {
    var p1, p2 := StructPreimage(a1, l1, m1), StructPreimage(a2, l2, m2);
    assert p1[0] == p2[0] && p1[1] == p2[1];
    TypeHashesDiffer(m1, m2);
    FieldsDetermined(l1, m1, l2, m2, p1, p2);
  }

  lemma FieldsDetermined(
    l1: seq<KeyLeg>, m1: KeyMessage, l2: seq<KeyLeg>, m2: KeyMessage, p1: seq<Chunk>, p2: seq<Chunk>)
    requires SameType(m1, m2) && p1 == p2 && |p1| >= 2
    requires p1[2..] == StructFields(l1, m1) && p2[2..] == StructFields(l2, m2)
    ensures OwnerReader.WithoutNonce(m1) == OwnerReader.WithoutNonce(m2)
    ensures m1.Retire? || l1 == l2
  {
    var f1, f2 := StructFields(l1, m1), StructFields(l2, m2);
    assert f1 == f2;
    match m1 {
      case Register(_, _, _) =>
        assert f1[0] == f2[0] && f1[1] == f2[1] && f1[2] == f2[2];
        AbiUintInjective(m1.deadline, m2.deadline);
        LegHashesInjective(l1, l2);
      case Revoke(_) =>
        assert f1[0] == f2[0];
        LegHashesInjective(l1, l2);
      case Cancel(_) =>
        assert f1[0] == f2[0];
        LegHashesInjective(l1, l2);
      case Retire(_, _) =>
        assert f1[0] == f2[0] && f1[1] == f2[1];
        AbiUintInjective(m1.validUntil, m2.validUntil);
      case ApproveMaker(_, _, _, _) =>
        assert f1[0] == f2[0] && f1[1] == f2[1] && f1[2] == f2[2] && f1[3] == f2[3];
        AbiUintInjective(Bit(m1.approved), Bit(m2.approved));
        AbiUintInjective(m1.deadline, m2.deadline);
        LegHashesInjective(l1, l2);
      case Repin(_, _, _, _) =>
        assert f1[0] == f2[0] && f1[1] == f2[1] && f1[2] == f2[2] && f1[3] == f2[3];
        AbiUintInjective(m1.fromSlot, m2.fromSlot);
        AbiUintInjective(m1.toSlot, m2.toSlot);
        LegHashesInjective(l1, l2);
    }
  }

  /** The text binds the whole request: with one registry's leg, the nonce too. */
  lemma TextBindsAll(
    chainId: u128, registry: Word, e: KeysEnv,
    a1: Word, l1: seq<KeyLeg>, m1: KeyMessage, a2: Word, l2: seq<KeyLeg>, m2: KeyMessage)
    requires CheckLegs(chainId, registry, l1, m1) && CheckLegs(chainId, registry, l2, m2)
    ensures Text(e, a1, l1, m1) == Text(e, a2, l2, m2) <==> a1 == a2 && l1 == l2 && m1 == m2
  {
    if Text(e, a1, l1, m1) == Text(e, a2, l2, m2) {
      OwnerReader.TextUnambiguous(e, a1, l1, m1, e, a2, l2, m2);
      LegsCarryNonce(chainId, registry, l1, m1, m2);
    }
  }

  /** So does the struct preimage. */
  lemma PreimageBindsAll(
    chainId: u128, registry: Word, a1: Word, l1: seq<KeyLeg>, m1: KeyMessage, a2: Word, l2: seq<KeyLeg>, m2: KeyMessage)
    requires CheckLegs(chainId, registry, l1, m1) && CheckLegs(chainId, registry, l2, m2)
    ensures StructPreimage(a1, l1, m1) == StructPreimage(a2, l2, m2) <==> a1 == a2 && l1 == l2 && m1 == m2
  {
    if StructPreimage(a1, l1, m1) == StructPreimage(a2, l2, m2) {
      PreimageDetermines(a1, l1, m1, a2, l2, m2);
      LegsCarryNonce(chainId, registry, l1, m1, m2);
    }
  }

  /** The two forms bind the same thing. For requests that pass the leg check of one registry,
      equal texts, equal struct preimages and equal requests are one and the same, the nonce
      included. */
  lemma BothFormsBindTheSame(
    chainId: u128, registry: Word, e: KeysEnv,
    a1: Word, l1: seq<KeyLeg>, m1: KeyMessage, a2: Word, l2: seq<KeyLeg>, m2: KeyMessage)
    requires CheckLegs(chainId, registry, l1, m1) && CheckLegs(chainId, registry, l2, m2)
    ensures Text(e, a1, l1, m1) == Text(e, a2, l2, m2) <==> StructPreimage(a1, l1, m1) == StructPreimage(a2, l2, m2)
    ensures Text(e, a1, l1, m1) == Text(e, a2, l2, m2) <==> (a1 == a2 && l1 == l2 && m1 == m2)
  {
    TextBindsAll(chainId, registry, e, a1, l1, m1, a2, l2, m2);
    PreimageBindsAll(chainId, registry, a1, l1, m1, a2, l2, m2);
  }
}
