/** A reader that undoes the owner text: equal texts can only come from equal messages. */
module OwnerReader {
  import opened Numbers
  import opened Wrappers
  import opened Printing
  import opened OwnerText
  import Calendar

  /** What a text says. The message's own nonce is not printed; the legs carry it. */
  datatype Signed = Signed(keysEnv: KeysEnv, account: Word, message: KeyMessage, legs: seq<KeyLeg>)

  function WithoutNonce(m: KeyMessage): KeyMessage {
    match m
    case Register(k, _, d) => Register(k, 0, d)
    case Revoke(_) => Revoke(0)
    case Cancel(_) => Cancel(0)
    case Retire(k, v) => Retire(k, v)
    case ApproveMaker(maker, a, _, d) => ApproveMaker(maker, a, 0, d)
    case Repin(h, f, t, _) => Repin(h, f, t, 0)
  }

  /** The content of a signing request: a retirement names no registry. */
  function Content(e: KeysEnv, account: Word, legs: seq<KeyLeg>, m: KeyMessage): Signed {
    Signed(e, account, WithoutNonce(m), if m.Retire? then [] else legs)
  }

  // ---- lines ----

  predicate OneLine(s: string) {
    forall i :: 0 <= i < |s| ==> s[i] != '\n'
  }

  predicate AllOneLine(ls: seq<string>) {
    forall i :: 0 <= i < |ls| ==> OneLine(ls[i])
  }

  function SplitLines(s: string): (ls: seq<string>)
    ensures ls != []
  {
    if s == "" then [""]
    else if s[0] == '\n' then [""] + SplitLines(s[1..])
    else
      var rest := SplitLines(s[1..]);
      [[s[0]] + rest[0]] + rest[1..]
  }

  lemma {:induction false} SplitFirst(l: string, rest: string)
    requires OneLine(l)
    ensures SplitLines(l + "\n" + rest) == [l] + SplitLines(rest)
  {
    var s := l + "\n" + rest;
    if l == "" {
      assert s[1..] == rest;
    } else {
      SplitFirst(l[1..], rest);
      assert s[1..] == l[1..] + "\n" + rest;
      assert [l[0]] + l[1..] == l;
    }
  }

  lemma {:induction false} SplitLast(l: string)
    requires OneLine(l)
    ensures SplitLines(l) == [l]
  {
    if l != "" {
      SplitLast(l[1..]);
      assert [l[0]] + l[1..] == l;
    }
  }

  lemma {:induction false} SplitJoined(ls: seq<string>)
    requires ls != [] && AllOneLine(ls)
    ensures SplitLines(Joined(ls)) == ls
  {
    if |ls| == 1 {
      assert Broken(ls[1..]) == "" && ls[0] + "" == ls[0];
      SplitLast(ls[0]);
      assert [ls[0]] == ls;
    } else {
      var rest := ls[1..];
      SplitJoined(rest);
      Associates("\n", rest[0], Broken(rest[1..]));
      Associates(ls[0], "\n", Joined(rest));
      SplitFirst(ls[0], Joined(rest));
      assert [ls[0]] + rest == ls;
    }
  }

  // ---- the printed lines hold no line break ----

  lemma DecimalOneLine(v: nat)
    ensures OneLine(Decimal(v)) && forall i :: 0 <= i < |Decimal(v)| ==> Decimal(v)[i] != '('
  {
    DecimalDigits(v);
  }

  lemma {:induction false} HexBytesOneLine(w: seq<byte>)
    ensures OneLine(HexBytes(w))
  {
    if w != [] {
      HexBytesOneLine(w[1..]);
      assert HexValue('\n') == None;
    }
  }

  lemma HexOneLine(w: Word)
    ensures OneLine(Hex(w))
  {
    HexBytesOneLine(w);
  }

  /** A date and time holds neither a line break nor a bracket. */
  predicate Plain(s: string) {
    forall i :: 0 <= i < |s| ==> s[i] != '\n' && s[i] != '('
  }

  lemma PaddedPlain(v: nat, width: nat)
    ensures Plain(Padded(v, width))
  {
    DecimalOneLine(v);
  }

  lemma FieldsPlain(a: string, b: string, c: string, sep: string)
    requires Plain(a) && Plain(b) && Plain(c) && Plain(sep)
    ensures Plain(a + sep + b + sep + c)
  {
  }

  lemma UtcPlain(unix: nat)
    ensures Plain(Utc(unix))
  {
    var d := Calendar.DateAfter(unix / 86_400);
    var sod := unix % 86_400;
    PaddedPlain(d.year, 4);
    PaddedPlain(d.month, 2);
    PaddedPlain(d.day, 2);
    FieldsPlain(Padded(d.year, 4), Padded(d.month, 2), Padded(d.day, 2), "-");
    PaddedPlain(sod / 3_600, 2);
    PaddedPlain(sod % 3_600 / 60, 2);
    PaddedPlain(sod % 60, 2);
    FieldsPlain(Padded(sod / 3_600, 2), Padded(sod % 3_600 / 60, 2), Padded(sod % 60, 2), ":");
    assert Plain(" ") && Plain(" UTC");
  }

  lemma DeadlineOneLine(d: nat)
    ensures OneLine(DeadlineLine(d))
  {
    UtcPlain(d);
    DecimalOneLine(d);
    assert OneLine("Valid until: ") && OneLine(" (") && OneLine(")");
  }

  lemma LegOneLine(l: KeyLeg)
    ensures OneLine(LegLine(l))
  {
    DecimalOneLine(l.chainId);
    HexOneLine(l.registry);
    DecimalOneLine(l.nonce);
    assert OneLine(", nonce " + Decimal(l.nonce));
    assert OneLine(Hex(l.registry) + (", nonce " + Decimal(l.nonce)));
    assert OneLine(", registry " + (Hex(l.registry) + (", nonce " + Decimal(l.nonce))));
  }

  lemma {:induction false} LegLinesOneLine(legs: seq<KeyLeg>)
    ensures AllOneLine(LegLines(legs))
  {
    if legs != [] {
      LegOneLine(legs[0]);
      LegLinesOneLine(legs[1..]);
    }
  }

  lemma FieldLinesOneLine(m: KeyMessage)
    ensures AllOneLine(FieldLines(m))
  {
    match m {
      case Register(k, _, _) => HexOneLine(k);
      case Retire(k, _) => HexOneLine(k);
      case ApproveMaker(maker, _, _, _) => HexOneLine(maker);
      case Repin(h, f, t, _) => RepinLinesOneLine(h, f, t);
      case _ =>
    }
  }

  lemma RepinLinesOneLine(h: Word, f: nat, t: nat)
    ensures AllOneLine(["Order: " + Hex(h), "From slot: " + Decimal(f), "To slot: " + Decimal(t)])
  {
    HexOneLine(h);
    DecimalOneLine(f);
    DecimalOneLine(t);
  }

  lemma HeadLinesOneLine(e: KeysEnv, account: Word, m: KeyMessage)
    ensures AllOneLine(HeadLines(e, account, m))
  {
    HeadingOneLine(m);
    NetworkOneLine(e);
    AccountOneLine(account);
  }

  lemma NetworkOneLine(e: KeysEnv)
    ensures OneLine("Network: " + EnvName(e))
  {
    assert OneLine("Network: ");
    assert OneLine(EnvName(e));
  }

  lemma AccountOneLine(account: Word)
    ensures OneLine("Account: " + Hex(account))
  {
    assert OneLine("Account: ");
    HexOneLine(account);
  }

  lemma HeadingOneLine(m: KeyMessage)
    ensures OneLine(Heading(m))
  {
    PurposeOneLine(KindOf(m));
    assert OneLine("ProofBridge: ");
  }

  lemma PurposeOneLine(k: Kind)
    ensures OneLine(Purpose(k))
  {
    match k {
      case AllowKind => NamingOneLine();
      case WithdrawKind => NamingOneLine();
      case RepinKind => RepinOneLine();
      case _ => KeyPurposeOneLine(k);
    }
  }

  lemma KeyPurposeOneLine(k: Kind)
    requires !k.AllowKind? && !k.WithdrawKind? && !k.RepinKind?
    ensures OneLine(Purpose(k))
  {
    assert OneLine("register a settlement key") && OneLine("remove every settlement key");
    assert OneLine("cancel a pending key registration") && OneLine("retire a settlement key");
  }

  lemma NamingOneLine()
    ensures OneLine(Purpose(AllowKind)) && OneLine(Purpose(WithdrawKind))
  {
    assert OneLine("allow a maker to name") && OneLine("withdraw a maker's permission to name");
    assert OneLine(" this account as settlement signer");
  }

  lemma RepinOneLine()
    ensures OneLine(Purpose(RepinKind))
  {
    assert OneLine("move an order's settlement") && OneLine(" key to another slot");
  }

  lemma DeadlineLinesOneLine(m: KeyMessage)
    ensures AllOneLine(DeadlineLines(m))
  {
    match m {
      case Register(_, _, d) => DeadlineOneLine(d);
      case ApproveMaker(_, _, _, d) => DeadlineOneLine(d);
      case _ =>
    }
  }

  lemma TailLinesOneLine(m: KeyMessage, legs: seq<KeyLeg>)
    ensures AllOneLine(TailLines(m, legs))
  {
    match m {
      case Retire(_, v) =>
        DecimalOneLine(v);
        assert OneLine("Valid until: ");
      case _ => LegLinesOneLine(legs);
    }
  }

  lemma LinesOneLine(e: KeysEnv, account: Word, legs: seq<KeyLeg>, m: KeyMessage)
    ensures AllOneLine(Lines(e, account, legs, m))
  {
    HeadLinesOneLine(e, account, m);
    FieldLinesOneLine(m);
    DeadlineLinesOneLine(m);
    TailLinesOneLine(m, legs);
    Concat5(HeadLines(e, account, m), FieldLines(m), DeadlineLines(m), [""], TailLines(m, legs));
  }

  lemma Concat5(a: seq<string>, b: seq<string>, c: seq<string>, d: seq<string>, e: seq<string>)
    requires AllOneLine(a) && AllOneLine(b) && AllOneLine(c) && AllOneLine(d) && AllOneLine(e)
    ensures AllOneLine(a + b + c + d + e)
  {
    assert AllOneLine(a + b);
    assert AllOneLine(a + b + c);
    assert AllOneLine(a + b + c + d);
  }

  // ---- reading one line ----

  function Strip(caption: string, s: string): Option<string> {
    if caption <= s then Some(s[|caption|..]) else None
  }

  lemma StripBack(caption: string, rest: string)
    ensures Strip(caption, caption + rest) == Some(rest)
  {
    assert (caption + rest)[|caption|..] == rest;
  }

  function ReadHexLine(caption: string, line: string): Option<Word> {
    match Strip(caption, line)
    case None => None
    case Some(s) =>
      match ReadHex(s)
      case Some((w, rest)) => if rest == "" then Some(w) else None
      case None => None
  }

  lemma HexLineReadsBack(caption: string, w: Word)
    ensures ReadHexLine(caption, caption + Hex(w)) == Some(w)
  {
    StripBack(caption, Hex(w));
    HexReadsBack(w, "");
    assert Hex(w) + "" == Hex(w);
  }

  function ReadNumberLine(caption: string, line: string, max: nat): Option<nat> {
    match Strip(caption, line)
    case None => None
    case Some(s) =>
      match ReadDecimal(s)
      case Some((v, rest)) => if rest == "" && v <= max then Some(v) else None
      case None => None
  }

  lemma NumberLineReadsBack(caption: string, v: nat, max: nat)
    requires v <= max
    ensures ReadNumberLine(caption, caption + Decimal(v), max) == Some(v)
  {
    StripBack(caption, Decimal(v));
    DecimalReadsBack(v, "");
    assert Decimal(v) + "" == Decimal(v);
  }

  function AfterBracket(s: string): string {
    if s == "" then "" else if s[0] == '(' then s[1..] else AfterBracket(s[1..])
  }

  lemma {:induction false} AfterBracketSkips(a: string, rest: string)
    requires Plain(a)
    ensures AfterBracket(a + "(" + rest) == rest
  {
    var s := a + "(" + rest;
    if a == "" {
      assert s[1..] == rest;
    } else {
      AfterBracketSkips(a[1..], rest);
      assert s[1..] == a[1..] + "(" + rest;
    }
  }

  /** The bracketed seconds are read, and the line must be the one they print. */
  function ReadDeadlineLine(line: string): Option<u64> {
    match ReadDecimal(AfterBracket(line))
    case Some((v, _)) => if v <= U64_MAX && line == DeadlineLine(v) then Some(v) else None
    case None => None
  }

  lemma DeadlineLineReadsBack(d: u64)
    ensures ReadDeadlineLine(DeadlineLine(d)) == Some(d)
  {
    UtcPlain(d);
    var a := "Valid until: " + Utc(d) + " ";
    assert Plain("Valid until: ") && Plain(" ");
    assert "Valid until: " + Utc(d) + " (" == a + "(";
    Associates(a + "(", Decimal(d), ")");
    AfterBracketSkips(a, Decimal(d) + ")");
    DecimalReadsBack(d, ")");
  }

  function ReadLeg(line: string): Option<KeyLeg> {
    match Strip("Chain ", line)
    case None => None
    case Some(s0) =>
      match ReadDecimal(s0)
      case None => None
      case Some((chain, s1)) =>
        match Strip(", registry ", s1)
        case None => None
        case Some(s2) =>
          match ReadHex(s2)
          case None => None
          case Some((registry, s3)) =>
            match ReadNumberLine(", nonce ", s3, U64_MAX)
            case None => None
            case Some(nonce) => if chain <= U128_MAX then Some(KeyLeg(chain, registry, nonce)) else None
  }

  lemma LegReadsBack(l: KeyLeg)
    ensures ReadLeg(LegLine(l)) == Some(l)
  {
    var s3 := ", nonce " + Decimal(l.nonce);
    var s2 := Hex(l.registry) + s3;
    var s1 := ", registry " + s2;
    var s0 := Decimal(l.chainId) + s1;
    StripBack("Chain ", s0);
    DecimalReadsBack(l.chainId, s1);
    StripBack(", registry ", s2);
    HexReadsBack(l.registry, s3);
    NumberLineReadsBack(", nonce ", l.nonce, U64_MAX);
  }

  function ReadLegs(ls: seq<string>): Option<seq<KeyLeg>> {
    if ls == [] then Some([])
    else
      match (ReadLeg(ls[0]), ReadLegs(ls[1..]))
      case (Some(l), Some(legs)) => Some([l] + legs)
      case _ => None
  }

  lemma {:induction false} LegsReadBack(legs: seq<KeyLeg>)
    ensures ReadLegs(LegLines(legs)) == Some(legs)
  {
    if legs != [] {
      LegReadsBack(legs[0]);
      LegsReadBack(legs[1..]);
      OneLegMore(LegLines(legs), legs);
    }
  }

  lemma OneLegMore(ls: seq<string>, legs: seq<KeyLeg>)
    requires ls != [] && legs != [] && ReadLeg(ls[0]) == Some(legs[0]) && ReadLegs(ls[1..]) == Some(legs[1..])
    ensures ReadLegs(ls) == Some(legs)
  {
    assert [legs[0]] + legs[1..] == legs;
  }

  function ReadEnv(line: string): Option<KeysEnv> {
    if line == "Network: local" then Some(Local)
    else if line == "Network: testnet" then Some(Testnet)
    else if line == "Network: mainnet" then Some(Mainnet)
    else None
  }

  lemma EnvReadsBack(e: KeysEnv)
    ensures ReadEnv("Network: " + EnvName(e)) == Some(e)
  {
    match e {
      case Local => assert "Network: " + "local" == "Network: local";
      case Testnet =>
        assert "Network: " + "testnet" == "Network: testnet";
        assert "Network: testnet"[9] == 't';
      case Mainnet =>
        assert "Network: " + "mainnet" == "Network: mainnet";
        assert "Network: mainnet"[9] == 'm';
    }
  }

  // ---- reading a whole text ----

  /** The lines after the head, by the kind of message. */
  function ReadRegister(ls: seq<string>): Option<(KeyMessage, seq<KeyLeg>)> {
    if |ls| < 3 || ls[2] != "" then None
    else
      match (ReadHexLine("Key fingerprint: ", ls[0]), ReadDeadlineLine(ls[1]), ReadLegs(ls[3..]))
      case (Some(k), Some(d), Some(legs)) => Some((Register(k, 0, d), legs))
      case _ => None
  }

  function ReadApproval(approved: bool, ls: seq<string>): Option<(KeyMessage, seq<KeyLeg>)> {
    if |ls| < 3 || ls[2] != "" then None
    else
      match (ReadHexLine("Maker: ", ls[0]), ReadDeadlineLine(ls[1]), ReadLegs(ls[3..]))
      case (Some(maker), Some(d), Some(legs)) => Some((ApproveMaker(maker, approved, 0, d), legs))
      case _ => None
  }

  function ReadBare(m: KeyMessage, ls: seq<string>): Option<(KeyMessage, seq<KeyLeg>)> {
    if |ls| < 1 || ls[0] != "" then None
    else
      match ReadLegs(ls[1..])
      case Some(legs) => Some((m, legs))
      case None => None
  }

  function ReadRetire(ls: seq<string>): Option<(KeyMessage, seq<KeyLeg>)> {
    if |ls| != 3 || ls[1] != "" then None
    else
      match (ReadHexLine("Key fingerprint: ", ls[0]), ReadNumberLine("Valid until: ", ls[2], U64_MAX))
      case (Some(k), Some(v)) => Some((Retire(k, v), []))
      case _ => None
  }

  function ReadRepin(ls: seq<string>): Option<(KeyMessage, seq<KeyLeg>)> {
    if |ls| < 4 || ls[3] != "" then None
    else
      match (ReadHexLine("Order: ", ls[0]), ReadNumberLine("From slot: ", ls[1], U32_MAX),
             ReadNumberLine("To slot: ", ls[2], U32_MAX), ReadLegs(ls[4..]))
      case (Some(h), Some(f), Some(t), Some(legs)) => Some((Repin(h, f, t, 0), legs))
      case _ => None
  }

  /** The first letters already tell the purposes apart. */
  function ReadKind(heading: string): Option<Kind> {
    match Strip("ProofBridge: ", heading)
    case None => None
    case Some(p) =>
      if p == Purpose(RegisterKind) then Some(RegisterKind)
      else if p == Purpose(RevokeKind) then Some(RevokeKind)
      else if p == Purpose(CancelKind) then Some(CancelKind)
      else if p == Purpose(RetireKind) then Some(RetireKind)
      else if p == Purpose(AllowKind) then Some(AllowKind)
      else if p == Purpose(WithdrawKind) then Some(WithdrawKind)
      else if p == Purpose(RepinKind) then Some(RepinKind)
      else None
  }

  function ReadBody(k: Kind, ls: seq<string>): Option<(KeyMessage, seq<KeyLeg>)> {
    match k
    case RegisterKind => ReadRegister(ls)
    case RevokeKind => ReadBare(Revoke(0), ls)
    case CancelKind => ReadBare(Cancel(0), ls)
    case RetireKind => ReadRetire(ls)
    case AllowKind => ReadApproval(true, ls)
    case WithdrawKind => ReadApproval(false, ls)
    case RepinKind => ReadRepin(ls)
  }

  function Read(s: string): Option<Signed> {
    var ls := SplitLines(s);
    if |ls| < 5 || ls[1] != "" then None
    else
      match (ReadKind(ls[0]), ReadEnv(ls[2]), ReadHexLine("Account: ", ls[3]))
      case (Some(k), Some(e), Some(account)) =>
        (match ReadBody(k, ls[4..])
         case Some((m, legs)) => Some(Signed(e, account, m, legs))
         case None => None)
      case _ => None
  }

  // ---- the reader undoes the printer ----

  lemma KindReadsBack(k: Kind)
    ensures ReadKind("ProofBridge: " + Purpose(k)) == Some(k)
  {
    StripBack("ProofBridge: ", Purpose(k));
    FirstLetters(k);
  }

  lemma FirstLetters(k: Kind)
    ensures k.RegisterKind? ==> Purpose(k)[0] == 'r' && Purpose(k)[2] == 'g'
    ensures k.RevokeKind? ==> Purpose(k)[0] == 'r' && Purpose(k)[2] == 'm'
    ensures k.RetireKind? ==> Purpose(k)[0] == 'r' && Purpose(k)[2] == 't'
    ensures k.CancelKind? ==> Purpose(k)[0] == 'c'
    ensures k.AllowKind? ==> Purpose(k)[0] == 'a'
    ensures k.WithdrawKind? ==> Purpose(k)[0] == 'w'
    ensures k.RepinKind? ==> Purpose(k)[0] == 'm'
  {
  }

  function BodyLines(m: KeyMessage, legs: seq<KeyLeg>): seq<string> {
    FieldLines(m) + DeadlineLines(m) + [""] + TailLines(m, legs)
  }

  lemma LinesAreHeadAndBody(e: KeysEnv, account: Word, legs: seq<KeyLeg>, m: KeyMessage)
    ensures Lines(e, account, legs, m) == HeadLines(e, account, m) + BodyLines(m, legs)
  {
    Regroup(HeadLines(e, account, m), FieldLines(m), DeadlineLines(m), [""], TailLines(m, legs));
  }

  lemma Regroup(a: seq<string>, b: seq<string>, c: seq<string>, d: seq<string>, e: seq<string>)
    ensures a + b + c + d + e == a + (b + c + d + e)
  {
    assert a + b + c == a + (b + c);
    assert a + (b + c) + d == a + (b + c + d);
  }

  lemma RegisterReadsBack(ls: seq<string>, k: Word, d: u64, legs: seq<KeyLeg>)
    requires |ls| >= 3 && ls[0] == "Key fingerprint: " + Hex(k) && ls[1] == DeadlineLine(d) && ls[2] == ""
    requires ls[3..] == LegLines(legs)
    ensures ReadRegister(ls) == Some((Register(k, 0, d), legs))
  {
    HexLineReadsBack("Key fingerprint: ", k);
    DeadlineLineReadsBack(d);
    LegsReadBack(legs);
  }

  lemma ApprovalReadsBack(ls: seq<string>, maker: Word, approved: bool, d: u64, legs: seq<KeyLeg>)
    requires |ls| >= 3 && ls[0] == "Maker: " + Hex(maker) && ls[1] == DeadlineLine(d) && ls[2] == ""
    requires ls[3..] == LegLines(legs)
    ensures ReadApproval(approved, ls) == Some((ApproveMaker(maker, approved, 0, d), legs))
  {
    HexLineReadsBack("Maker: ", maker);
    DeadlineLineReadsBack(d);
    LegsReadBack(legs);
  }

  lemma BareReadsBack(ls: seq<string>, m: KeyMessage, legs: seq<KeyLeg>)
    requires |ls| >= 1 && ls[0] == "" && ls[1..] == LegLines(legs)
    ensures ReadBare(m, ls) == Some((m, legs))
  {
    LegsReadBack(legs);
  }

  lemma RetireReadsBack(ls: seq<string>, k: Word, v: u64)
    requires |ls| == 3 && ls[0] == "Key fingerprint: " + Hex(k) && ls[1] == "" && ls[2] == "Valid until: " + Decimal(v)
    ensures ReadRetire(ls) == Some((Retire(k, v), []))
  {
    HexLineReadsBack("Key fingerprint: ", k);
    NumberLineReadsBack("Valid until: ", v, U64_MAX);
  }

  lemma RepinReadsBack(ls: seq<string>, h: Word, f: u32, t: u32, legs: seq<KeyLeg>)
    requires |ls| >= 4 && ls[0] == "Order: " + Hex(h) && ls[1] == "From slot: " + Decimal(f)
    requires ls[2] == "To slot: " + Decimal(t) && ls[3] == "" && ls[4..] == LegLines(legs)
    ensures ReadRepin(ls) == Some((Repin(h, f, t, 0), legs))
  {
    HexLineReadsBack("Order: ", h);
    NumberLineReadsBack("From slot: ", f, U32_MAX);
    NumberLineReadsBack("To slot: ", t, U32_MAX);
    LegsReadBack(legs);
  }

  /** Where each group of lines sits in the body. */
  lemma Places(a: seq<string>, b: seq<string>, c: seq<string>)
    ensures var ls := a + b + [""] + c;
            && |ls| == |a| + |b| + 1 + |c|
            && ls[..|a|] == a && ls[|a|..|a| + |b|] == b && ls[|a| + |b|] == "" && ls[|a| + |b| + 1..] == c
  {
  }

  lemma RegisterBody(m: KeyMessage, legs: seq<KeyLeg>)
    requires m.Register?
    ensures ReadRegister(BodyLines(m, legs)) == Some((WithoutNonce(m), legs))
  {
    var ls := BodyLines(m, legs);
    Places(["Key fingerprint: " + Hex(m.keyCommitment)], [DeadlineLine(m.deadline)], LegLines(legs));
    assert ls[0] == ls[..1][0] && ls[1] == ls[1..2][0];
    RegisterReadsBack(ls, m.keyCommitment, m.deadline, legs);
  }

  lemma ApprovalBody(m: KeyMessage, legs: seq<KeyLeg>)
    requires m.ApproveMaker?
    ensures ReadApproval(m.approved, BodyLines(m, legs)) == Some((WithoutNonce(m), legs))
  {
    var ls := BodyLines(m, legs);
    Places(["Maker: " + Hex(m.maker)], [DeadlineLine(m.deadline)], LegLines(legs));
    assert ls[0] == ls[..1][0] && ls[1] == ls[1..2][0];
    ApprovalReadsBack(ls, m.maker, m.approved, m.deadline, legs);
  }

  lemma BareBody(m: KeyMessage, legs: seq<KeyLeg>)
    requires m.Revoke? || m.Cancel?
    ensures ReadBare(WithoutNonce(m), BodyLines(m, legs)) == Some((WithoutNonce(m), legs))
  {
    Places([], [], LegLines(legs));
    BareReadsBack(BodyLines(m, legs), WithoutNonce(m), legs);
  }

  lemma RetireBody(m: KeyMessage, legs: seq<KeyLeg>)
    requires m.Retire?
    ensures ReadRetire(BodyLines(m, legs)) == Some((WithoutNonce(m), []))
  {
    var ls := BodyLines(m, legs);
    Places(["Key fingerprint: " + Hex(m.keyCommitment)], [], ["Valid until: " + Decimal(m.validUntil)]);
    assert ls[0] == ls[..1][0] && ls[2] == ls[2..][0];
    RetireReadsBack(ls, m.keyCommitment, m.validUntil);
  }

  lemma RepinBody(m: KeyMessage, legs: seq<KeyLeg>)
    requires m.Repin?
    ensures ReadRepin(BodyLines(m, legs)) == Some((WithoutNonce(m), legs))
  {
    var ls := BodyLines(m, legs);
    Places(["Order: " + Hex(m.orderHash), "From slot: " + Decimal(m.fromSlot), "To slot: " + Decimal(m.toSlot)], [], LegLines(legs));
    assert ls[0] == ls[..3][0] && ls[1] == ls[..3][1] && ls[2] == ls[..3][2];
    RepinReadsBack(ls, m.orderHash, m.fromSlot, m.toSlot, legs);
  }

  function ReadByMessage(m: KeyMessage, ls: seq<string>): Option<(KeyMessage, seq<KeyLeg>)> {
    match m
    case Register(_, _, _) => ReadRegister(ls)
    case Revoke(_) => ReadBare(Revoke(0), ls)
    case Cancel(_) => ReadBare(Cancel(0), ls)
    case Retire(_, _) => ReadRetire(ls)
    case ApproveMaker(_, a, _, _) => ReadApproval(a, ls)
    case Repin(_, _, _, _) => ReadRepin(ls)
  }

  lemma KindChoosesReader(m: KeyMessage, ls: seq<string>)
    ensures ReadBody(KindOf(m), ls) == ReadByMessage(m, ls)
  {
    match m {
      case Register(_, _, _) => assert ReadBody(RegisterKind, ls) == ReadRegister(ls);
      case Revoke(_) => assert ReadBody(RevokeKind, ls) == ReadBare(Revoke(0), ls);
      case Cancel(_) => assert ReadBody(CancelKind, ls) == ReadBare(Cancel(0), ls);
      case Retire(_, _) => assert ReadBody(RetireKind, ls) == ReadRetire(ls);
      case ApproveMaker(_, a, _, _) => ApprovalReader(a, ls);
      case Repin(_, _, _, _) => assert ReadBody(RepinKind, ls) == ReadRepin(ls);
    }
  }

  lemma ApprovalReader(approved: bool, ls: seq<string>)
    ensures ReadBody(if approved then AllowKind else WithdrawKind, ls) == ReadApproval(approved, ls)
  {
  }

  lemma MessageReadsBack(m: KeyMessage, legs: seq<KeyLeg>)
    ensures ReadByMessage(m, BodyLines(m, legs)) == Some((WithoutNonce(m), if m.Retire? then [] else legs))
  {
    match m {
      case Register(_, _, _) => RegisterBody(m, legs);
      case Revoke(_) => BareBody(m, legs);
      case Cancel(_) => BareBody(m, legs);
      case Retire(_, _) => RetireBody(m, legs);
      case ApproveMaker(_, _, _, _) => ApprovalBody(m, legs);
      case Repin(_, _, _, _) => RepinBody(m, legs);
    }
  }

  lemma BodyReadsBack(m: KeyMessage, legs: seq<KeyLeg>)
    ensures ReadBody(KindOf(m), BodyLines(m, legs)) == Some((WithoutNonce(m), if m.Retire? then [] else legs))
  {
    KindChoosesReader(m, BodyLines(m, legs));
    MessageReadsBack(m, legs);
  }

  /** The printer loses nothing but the message's own copy of the nonce: reading a text gives
      back its environment, account, fields, deadline and legs. */
  lemma TextReadsBack(e: KeysEnv, account: Word, legs: seq<KeyLeg>, m: KeyMessage)
    ensures Read(Text(e, account, legs, m)) == Some(Content(e, account, legs, m))
  {
    LinesOneLine(e, account, legs, m);
    SplitJoined(Lines(e, account, legs, m));
    LinesAreHeadAndBody(e, account, legs, m);
    BodyReadsBack(m, legs);
    WholeReadsBack(Text(e, account, legs, m), e, account, m, BodyLines(m, legs));
  }

  lemma WholeReadsBack(text: string, e: KeysEnv, account: Word, m: KeyMessage, body: seq<string>)
    requires SplitLines(text) == HeadLines(e, account, m) + body && body != []
    requires ReadBody(KindOf(m), body).Some?
    ensures var (message, legs) := ReadBody(KindOf(m), body).value;
            Read(text) == Some(Signed(e, account, message, legs))
  {
    KindReadsBack(KindOf(m));
    EnvReadsBack(e);
    HexLineReadsBack("Account: ", account);
    assert SplitLines(text)[4..] == body;
  }

  /** Equal bytes come from one content only. */
  lemma TextUnambiguous(
    e1: KeysEnv, a1: Word, l1: seq<KeyLeg>, m1: KeyMessage, e2: KeysEnv, a2: Word, l2: seq<KeyLeg>, m2: KeyMessage)
    ensures Text(e1, a1, l1, m1) == Text(e2, a2, l2, m2) <==> Content(e1, a1, l1, m1) == Content(e2, a2, l2, m2)
  {
    TextReadsBack(e1, a1, l1, m1);
    TextReadsBack(e2, a2, l2, m2);
    if Content(e1, a1, l1, m1) == Content(e2, a2, l2, m2) {
      SameContentSameLines(e1, a1, l1, m1, l2, m2);
    }
  }

  lemma SameContentSameLines(e: KeysEnv, a: Word, l1: seq<KeyLeg>, m1: KeyMessage, l2: seq<KeyLeg>, m2: KeyMessage)
    requires Content(e, a, l1, m1) == Content(e, a, l2, m2)
    ensures Lines(e, a, l1, m1) == Lines(e, a, l2, m2)
  {
  }

  // ---- what the owner reads first ----

  /** The word after "ProofBridge: " says what is signed: an approval allows, its withdrawal withdraws. */
  function Verb(m: KeyMessage): string {
    match m
    case Register(_, _, _) => "register"
    case Revoke(_) => "remove"
    case Cancel(_) => "cancel"
    case Retire(_, _) => "retire"
    case ApproveMaker(_, approved, _, _) => if approved then "allow" else "withdraw"
    case Repin(_, _, _, _) => "move"
  }

  lemma PurposeStarts(m: KeyMessage)
    ensures Verb(m) <= Purpose(KindOf(m))
  {
    match m {
      case ApproveMaker(_, _, _, _) => NamingStarts();
      case Repin(_, _, _, _) => assert "move" <= "move an order's settlement";
      case Register(_, _, _) => assert "register" <= "register a settlement key";
      case Revoke(_) => assert "remove" <= "remove every settlement key";
      case Cancel(_) => CancelStarts();
      case Retire(_, _) => assert "retire" <= "retire a settlement key";
    }
  }

  lemma NamingStarts()
    ensures "allow" <= Purpose(AllowKind) && "withdraw" <= Purpose(WithdrawKind)
  {
    assert "allow" <= "allow a maker to name" && "withdraw" <= "withdraw a maker's permission to name";
  }

  lemma CancelStarts()
    ensures "cancel" <= Purpose(CancelKind)
  {
    assert "cancel" <= "cancel a pending key registration";
  }

  lemma HeadingStarts(m: KeyMessage)
    ensures "ProofBridge: " + Verb(m) <= Heading(m)
  {
    PurposeStarts(m);
    assert Heading(m) == "ProofBridge: " + Purpose(KindOf(m));
  }

  /** Every text opens with what it is for. */
  lemma TextNamesItsAct(e: KeysEnv, account: Word, legs: seq<KeyLeg>, m: KeyMessage)
    ensures "ProofBridge: " + Verb(m) <= Text(e, account, legs, m)
  {
    HeadingStarts(m);
    assert Lines(e, account, legs, m)[0] == Heading(m);
  }
}
