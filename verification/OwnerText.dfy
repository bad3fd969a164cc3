/** The text an ed25519 owner signs (`owner.rs`, the SEP-53 form): what its lines say, the
    method that appends it, and a reader that undoes it. */
module OwnerText {
  import opened Numbers
  import opened Wrappers
  import opened Printing

  /** One registry a signature is for. */
  datatype KeyLeg = KeyLeg(chainId: u128, registry: Word, nonce: u64)

  datatype KeyMessage =
    | Register(keyCommitment: Word, nonce: u64, deadline: u64)
    | Revoke(nonce: u64)
    | Cancel(nonce: u64)
    | Retire(keyCommitment: Word, validUntil: u64)
    | ApproveMaker(maker: Word, approved: bool, nonce: u64, deadline: u64)
    | Repin(orderHash: Word, fromSlot: u32, toSlot: u32, nonce: u64)

  /** The environments a registry can be initialized for; any other name is refused there. */
  datatype KeysEnv = Local | Testnet | Mainnet

  function EnvName(e: KeysEnv): string {
    match e
    case Local => "local"
    case Testnet => "testnet"
    case Mainnet => "mainnet"
  }

  /** What a signature is for; an approval and its withdrawal have headings of their own. */
  datatype Kind = RegisterKind | RevokeKind | CancelKind | RetireKind | AllowKind | WithdrawKind | RepinKind

  function KindOf(m: KeyMessage): Kind {
    match m
    case Register(_, _, _) => RegisterKind
    case Revoke(_) => RevokeKind
    case Cancel(_) => CancelKind
    case Retire(_, _) => RetireKind
    case ApproveMaker(_, approved, _, _) => if approved then AllowKind else WithdrawKind
    case Repin(_, _, _, _) => RepinKind
  }

  function Purpose(k: Kind): string {
    match k
    case RegisterKind => "register a settlement key"
    case RevokeKind => "remove every settlement key"
    case CancelKind => "cancel a pending key registration"
    case RetireKind => "retire a settlement key"
    case AllowKind => "allow a maker to name" + " this account as settlement signer"
    case WithdrawKind => "withdraw a maker's permission to name" + " this account as settlement signer"
    case RepinKind => "move an order's settlement" + " key to another slot"
  }

  function Heading(m: KeyMessage): string {
    "ProofBridge: " + Purpose(KindOf(m))
  }

  // ---- the lines of the text ----

  function FieldLines(m: KeyMessage): seq<string> {
    match m
    case Register(k, _, _) => ["Key fingerprint: " + Hex(k)]
    case Retire(k, _) => ["Key fingerprint: " + Hex(k)]
    case ApproveMaker(maker, _, _, _) => ["Maker: " + Hex(maker)]
    case Repin(h, f, t, _) => ["Order: " + Hex(h), "From slot: " + Decimal(f), "To slot: " + Decimal(t)]
    case _ => []
  }

  function DeadlineLine(deadline: nat): string {
    "Valid until: " + Utc(deadline) + " (" + Decimal(deadline) + ")"
  }

  function DeadlineLines(m: KeyMessage): seq<string> {
    match m
    case Register(_, _, d) => [DeadlineLine(d)]
    case ApproveMaker(_, _, _, d) => [DeadlineLine(d)]
    case _ => []
  }

  function LegLine(l: KeyLeg): string {
    "Chain " + (Decimal(l.chainId) + (", registry " + (Hex(l.registry) + (", nonce " + Decimal(l.nonce)))))
  }

  function LegLines(legs: seq<KeyLeg>): (ls: seq<string>)
    ensures |ls| == |legs|
  {
    if legs == [] then [] else [LegLine(legs[0])] + LegLines(legs[1..])
  }

  function TailLines(m: KeyMessage, legs: seq<KeyLeg>): seq<string> {
    match m
    case Retire(_, v) => ["Valid until: " + Decimal(v)]
    case _ => LegLines(legs)
  }

  function HeadLines(e: KeysEnv, account: Word, m: KeyMessage): (ls: seq<string>)
    ensures |ls| == 4
  {
    [Heading(m), "", "Network: " + EnvName(e), "Account: " + Hex(account)]
  }

  function Lines(e: KeysEnv, account: Word, legs: seq<KeyLeg>, m: KeyMessage): (ls: seq<string>)
    ensures |ls| >= 5
  {
    HeadLines(e, account, m) + FieldLines(m) + DeadlineLines(m) + [""] + TailLines(m, legs)
  }

  /** Each line after a line break. */
  function Broken(ls: seq<string>): string {
    if ls == [] then "" else "\n" + ls[0] + Broken(ls[1..])
  }

  function Joined(ls: seq<string>): string
    requires ls != []
  {
    ls[0] + Broken(ls[1..])
  }

  /** Lines joined by "\n", no trailing newline. */
  function Text(e: KeysEnv, account: Word, legs: seq<KeyLeg>, m: KeyMessage): string {
    Joined(Lines(e, account, legs, m))
  }

  // ---- appending it ----

  lemma {:induction false} BrokenConcat(a: seq<string>, b: seq<string>)
    ensures Broken(a + b) == Broken(a) + Broken(b)
  {
    if a == [] {
      assert a + b == b;
    } else {
      BrokenConcat(a[1..], b);
      assert (a + b)[1..] == a[1..] + b;
      Associates("\n" + a[0], Broken(a[1..]), Broken(b));
    }
  }

  lemma BrokenOne(l: string)
    ensures Broken([l]) == "\n" + l
  {
    assert Broken([l][1..]) == "";
  }

  method PushHex(t: Buffer, caption: string, w: Word)
    modifies t
    ensures t.data == old(t.data) + Broken([caption + Hex(w)])
  {
    t.Extend("\n" + caption);
    var hex := HexLower(w);
    t.Extend(hex[..]);
    BrokenOne(caption + Hex(w));
    Associates("\n", caption, Hex(w));
    Associates(old(t.data), "\n" + caption, Hex(w));
  }

  method PushNumber(t: Buffer, caption: string, v: nat)
    requires v <= U128_MAX
    modifies t
    ensures t.data == old(t.data) + Broken([caption + Decimal(v)])
  {
    t.Extend("\n" + caption);
    PushDecimal(t, v);
    BrokenOne(caption + Decimal(v));
    Associates("\n", caption, Decimal(v));
    Associates(old(t.data), "\n" + caption, Decimal(v));
  }

  method PushFieldLines(t: Buffer, m: KeyMessage)
    modifies t
    ensures t.data == old(t.data) + Broken(FieldLines(m))
  {
    match m {
      case Register(k, _, _) =>
        PushHex(t, "Key fingerprint: ", k);
      case Retire(k, _) =>
        PushHex(t, "Key fingerprint: ", k);
      case ApproveMaker(maker, _, _, _) =>
        PushHex(t, "Maker: ", maker);
      case Repin(h, f, s, _) =>
        PushHex(t, "Order: ", h);
        PushNumber(t, "From slot: ", f);
        PushNumber(t, "To slot: ", s);
        RepinLines(old(t.data), "Order: " + Hex(h), "From slot: " + Decimal(f), "To slot: " + Decimal(s));
      case Revoke(_) =>
      case Cancel(_) =>
    }
  }

  lemma RepinLines(base: string, a: string, b: string, c: string)
    ensures base + Broken([a]) + Broken([b]) + Broken([c]) == base + Broken([a, b, c])
  {
    BrokenConcat([a], [b]);
    BrokenConcat([a, b], [c]);
    assert [a] + [b] == [a, b] && [a, b] + [c] == [a, b, c];
    Associates(base, Broken([a]), Broken([b]));
    Associates(base, Broken([a, b]), Broken([c]));
  }

  method PushDeadline(t: Buffer, deadline: u64)
    modifies t
    ensures t.data == old(t.data) + Broken([DeadlineLine(deadline)])
  {
    t.Extend("\nValid until: ");
    PushUtc(t, deadline);
    t.Extend(" (");
    PushDecimal(t, deadline);
    t.Extend(")");
    DeadlineAssembles(old(t.data), Utc(deadline), Decimal(deadline));
    BrokenOne(DeadlineLine(deadline));
  }

  lemma DeadlineAssembles(base: string, utc: string, dec: string)
    ensures base + "\nValid until: " + utc + " (" + dec + ")"
         == base + ("\n" + ("Valid until: " + utc + " (" + dec + ")"))
  {
    var c := "Valid until: ";
    assert "\nValid until: " == "\n" + c;
    Associates("\n", c, utc);
    Associates("\n", c + utc, " (");
    Associates("\n", c + utc + " (", dec);
    Associates("\n", c + utc + " (" + dec, ")");
    Associates(base, "\n" + c, utc);
    Associates(base, "\n" + c + utc, " (");
    Associates(base, "\n" + c + utc + " (", dec);
    Associates(base, "\n" + c + utc + " (" + dec, ")");
  }

  method PushDeadlineLines(t: Buffer, m: KeyMessage)
    modifies t
    ensures t.data == old(t.data) + Broken(DeadlineLines(m))
  {
    match m {
      case Register(_, _, d) => PushDeadline(t, d);
      case ApproveMaker(_, _, _, d) => PushDeadline(t, d);
      case _ =>
    }
  }

  method PushTailLines(t: Buffer, m: KeyMessage, legs: seq<KeyLeg>)
    modifies t
    ensures t.data == old(t.data) + Broken(TailLines(m, legs))
  {
    match m {
      case Retire(_, v) => PushNumber(t, "Valid until: ", v);
      case _ => PushLegs(t, legs);
    }
  }

  method PushLeg(t: Buffer, l: KeyLeg)
    modifies t
    ensures t.data == old(t.data) + Broken([LegLine(l)])
  {
    t.Extend("\nChain ");
    PushDecimal(t, l.chainId);
    t.Extend(", registry ");
    var hex := HexLower(l.registry);
    t.Extend(hex[..]);
    t.Extend(", nonce ");
    PushDecimal(t, l.nonce);
    LegAssembles(old(t.data), Decimal(l.chainId), Hex(l.registry), Decimal(l.nonce));
    BrokenOne(LegLine(l));
  }

  lemma LegAssembles(base: string, c: string, r: string, n: string)
    ensures base + "\nChain " + c + ", registry " + r + ", nonce " + n
         == base + ("\n" + ("Chain " + (c + (", registry " + (r + (", nonce " + n))))))
  {
    var nn := ", nonce " + n;
    var rr := r + nn;
    var rg := ", registry " + rr;
    Associates(base + "\nChain " + c + ", registry " + r, ", nonce ", n);
    Associates(base + "\nChain " + c + ", registry ", r, nn);
    Associates(base + "\nChain " + c, ", registry ", rr);
    Associates(base + "\nChain ", c, rg);
    Associates(base, "\nChain ", c + rg);
    assert "\nChain " == "\n" + "Chain ";
    Associates("\n", "Chain ", c + rg);
  }

  method PushLegs(t: Buffer, legs: seq<KeyLeg>)
    modifies t
    ensures t.data == old(t.data) + Broken(LegLines(legs))
  {
    for i := 0 to |legs|
      invariant t.data == old(t.data) + Broken(LegLines(legs[..i]))
    {
      ghost var before := LegLines(legs[..i]);
      PushLeg(t, legs[i]);
      LegLinesSnoc(legs[..i], legs[i]);
      BrokenConcat(before, [LegLine(legs[i])]);
      Associates(old(t.data), Broken(before), Broken([LegLine(legs[i])]));
      assert legs[..i + 1] == legs[..i] + [legs[i]];
    }
    assert legs[..|legs|] == legs;
  }

  lemma {:induction false} LegLinesSnoc(legs: seq<KeyLeg>, l: KeyLeg)
    ensures LegLines(legs + [l]) == LegLines(legs) + [LegLine(l)]
  {
    if legs == [] {
      assert LegLines([l][1..]) == [];
    } else {
      LegLinesSnoc(legs[1..], l);
      assert (legs + [l])[1..] == legs[1..] + [l];
    }
  }

  /** `text`: the appends of the printer, in its order. */
  method BuildText(e: KeysEnv, account: Word, legs: seq<KeyLeg>, m: KeyMessage) returns (t: Buffer)
    ensures fresh(t) && t.data == Text(e, account, legs, m)
  {
    t := new Buffer();
    PushHeadLines(t, e, account, m);
    PushFieldLines(t, m);
    PushDeadlineLines(t, m);
    t.Extend("\n");
    PushTailLines(t, m, legs);
    TextAssembles(HeadLines(e, account, m), FieldLines(m), DeadlineLines(m), TailLines(m, legs));
  }

  method PushHeadLines(t: Buffer, e: KeysEnv, account: Word, m: KeyMessage)
    requires t.data == ""
    modifies t
    ensures t.data == Heading(m) + Broken(HeadLines(e, account, m)[1..])
  {
    t.Extend(Heading(m));
    t.Extend("\n\nNetwork: ");
    t.Extend(EnvName(e));
    HeadAssembles(Heading(m), EnvName(e));
    PushHex(t, "Account: ", account);
    Grow(Heading(m), ["", "Network: " + EnvName(e)], ["Account: " + Hex(account)]);
    assert HeadLines(e, account, m)[1..] == ["", "Network: " + EnvName(e)] + ["Account: " + Hex(account)];
  }

  lemma HeadAssembles(h: string, n: string)
    ensures "" + h + "\n\nNetwork: " + n == h + Broken(["", "Network: " + n])
  {
    BrokenConcat([""], ["Network: " + n]);
    assert [""] + ["Network: " + n] == ["", "Network: " + n];
    BrokenOne("");
    BrokenOne("Network: " + n);
    assert "\n\nNetwork: " == "\n" + ("\n" + "Network: ");
    assert "\n\nNetwork: " + n == "\n" + ("\n" + ("Network: " + n));
    Associates(h, "\n\nNetwork: ", n);
  }

  lemma TextAssembles(head: seq<string>, fields: seq<string>, deadline: seq<string>, tail: seq<string>)
    requires |head| == 4
    ensures Joined(head + fields + deadline + [""] + tail)
            == head[0] + Broken(head[1..]) + Broken(fields) + Broken(deadline) + "\n" + Broken(tail)
  {
    JoinMore(head, fields);
    JoinMore(head + fields, deadline);
    JoinMore(head + fields + deadline, [""]);
    JoinMore(head + fields + deadline + [""], tail);
    BlankLine();
  }

  lemma BlankLine()
    ensures Broken([""]) == "\n"
  {
    BrokenOne("");
  }

  lemma JoinMore(a: seq<string>, b: seq<string>)
    requires a != []
    ensures Joined(a + b) == Joined(a) + Broken(b)
  {
    assert (a + b)[1..] == a[1..] + b;
    Grow(a[0], a[1..], b);
  }

  lemma Grow(h: string, a: seq<string>, b: seq<string>)
    ensures h + Broken(a) + Broken(b) == h + Broken(a + b)
  {
    BrokenConcat(a, b);
    Associates(h, Broken(a), Broken(b));
  }
}
