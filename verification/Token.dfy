/** Action plans, risk tiers and the signed execution token. SHA-256 and HMAC are parameters. */
module Token {
  import opened Prelude
  import opened Json
  import opened JsonRoundTrip
  import opened Canon
  import opened Timestamps

  datatype RiskTier = Green | Yellow | OrangeA | OrangeB | OrangeC | Red
  {
    function Level(): int
    {
      match this
      case Green => 0 case Yellow => 1 case OrangeA => 2 case OrangeB => 3 case OrangeC => 4 case Red => 5
    }

    function Name(): string
    {
      match this
      case Green => "GREEN" case Yellow => "YELLOW" case OrangeA => "ORANGE_A"
      case OrangeB => "ORANGE_B" case OrangeC => "ORANGE_C" case Red => "RED"
    }

    /** `_AUTO_TIERS`; the other tiers wait for a person. */
    predicate Auto() { Green? || Yellow? || OrangeA? || OrangeB? }
  }

  /** The tiers by number. */
  lemma TiersByLevel(t: RiskTier)
    ensures 0 <= t.Level() < 6
    ensures t.Name() == ["GREEN", "YELLOW", "ORANGE_A", "ORANGE_B", "ORANGE_C", "RED"][t.Level()]
  {}

  type Args = j: Json | j.JObj? && j.WellFormed() witness JObj([])

  datatype ActionPlan = ActionPlan(actionId: string, toolId: string, args: Args, intent: string, risk: RiskTier)

  type Byte = x: int | 0 <= x < 256
  type Digest = d: seq<Byte> | |d| == 32 witness seq(32, _ => 0)
  type Aware = s: Stamp | s.offset.Some? witness DateTime(1, 1, 1, 0, 0, 0, 0, Some(0))

  datatype Crypto = Crypto(sha256: string -> Digest, hmac: (string, string) -> Digest)

  datatype HarnessToken = HarnessToken(actionId: string, argsHash: Digest, expiresAt: Aware,
                                       signature: Digest, secret: Option<string>)

  datatype Check = Verified | ActionMismatch | Expired | NoKey | BadSignature

  function HexText(bytes: seq<Byte>): string
  {
    if bytes == [] then "" else [HexDigit(bytes[0] / 16), HexDigit(bytes[0] % 16)] + HexText(bytes[1..])
  }

  function ArgsHash(args: Args, crypto: Crypto): Digest
  {
    crypto.sha256(CanonText(args, COMPACT))
  }

  function Message(actionId: string, argsHash: Digest, expiresAt: Aware): string
  {
    actionId + "|" + HexText(argsHash) + "|" + IsoFormat(expiresAt)
  }

  function Signature(actionId: string, argsHash: Digest, expiresAt: Aware, key: string, crypto: Crypto): Digest
  {
    crypto.hmac(key, Message(actionId, argsHash, expiresAt))
  }

  /** `HarnessToken.verify`, read at clock time `now`. */
  function Verify(t: HarnessToken, actionId: string, key: Option<string>, now: Aware, crypto: Crypto): Check
  {
    if actionId != t.actionId then ActionMismatch
    else if Instant(now) >= Instant(t.expiresAt) then Expired
    else
      var effective := if key.Some? then key else t.secret;
      if effective.None? then NoKey
      else if Signature(t.actionId, t.argsHash, t.expiresAt, effective.value, crypto) != t.signature then BadSignature
      else Verified
  }

  /** `TokenFactory.issue`; `None` when the expiry is past the last year `datetime` can hold. */
  function Issue(secret: string, ttl: int, actionId: string, args: Args, now: Aware,
                 crypto: Crypto): Option<HarnessToken>
  {
    var expires :- Plus(now, ttl);
    var hash := ArgsHash(args, crypto);
    Some(HarnessToken(actionId, hash, expires, Signature(actionId, hash, expires, secret, crypto), Some(secret)))
  }

  // ---- what a token authorises ------------------------------------------------------------

  /** An issued token verifies at a time exactly when the action is its own and the expiry, ttl seconds
      after issue, has not come. */
  lemma IssuedTokenVerifies(secret: string, ttl: int, actionId: string, args: Args, issued: Aware,
                            id: string, now: Aware, crypto: Crypto)
    requires Issue(secret, ttl, actionId, args, issued, crypto).Some?
    ensures var t := Issue(secret, ttl, actionId, args, issued, crypto).value;
            && (Verify(t, id, None, now, crypto) == Verified
                <==> id == actionId && Instant(now) < Instant(issued) + ttl * 1_000_000)
            && Verify(t, id, Some(secret), now, crypto) == Verify(t, id, None, now, crypto)
  {}

  /** Once expired, always expired. */
  lemma ExpiryIsPermanent(t: HarnessToken, id: string, key: Option<string>, now: Aware, later: Aware, crypto: Crypto)
    requires Verify(t, id, key, now, crypto) == Expired && Instant(now) <= Instant(later)
    ensures Verify(t, id, key, later, crypto) == Expired
  {}

  // ---- the signed message -----------------------------------------------------------------

  predicate NoBar(s: string) { '|' !in s }

  lemma {:induction false} PadHasNoBar(n: nat, w: nat)
    ensures NoBar(Pad(n, w))
  {
    if w > 0 { PadHasNoBar(n / 10, w - 1); }
  }

  lemma FractionHasNoBar(n: nat)
    ensures NoBar(Fraction(n))
  {
    PadHasNoBar(n, 6);
  }

  lemma SpanHasNoBar(negative: bool, hh: nat, mm: nat, ss: nat, micros: nat)
    ensures NoBar(OffsetFields(negative, hh, mm, ss, micros))
  {
    PadHasNoBar(hh, 2);
    PadHasNoBar(mm, 2);
    PadHasNoBar(ss, 2);
    FractionHasNoBar(micros);
  }

  lemma OffsetHasNoBar(o: Option<int>)
    ensures NoBar(OffsetText(o))
  {
    if o.Some? { SpanTextHasNoBar(o.value < 0, if o.value < 0 then 0 - o.value else o.value); }
  }

  lemma SpanTextHasNoBar(negative: bool, abs: nat)
    ensures NoBar(SpanText(negative, abs))
  {
    var parts := Split(abs);
    SpanHasNoBar(negative, parts.0, parts.1, parts.2, parts.3);
  }

  lemma TimeHasNoBar(d: DateTime, rest: string)
    requires NoBar(rest)
    ensures NoBar(TimeText(d, rest))
  {
    PadHasNoBar(d.hour, 2);
    PadHasNoBar(d.minute, 2);
    PadHasNoBar(d.second, 2);
  }

  lemma DateHasNoBar(d: DateTime, rest: string)
    requires NoBar(rest)
    ensures NoBar(DateText(d, rest))
  {
    PadHasNoBar(d.year, 4);
    PadHasNoBar(d.month, 2);
    PadHasNoBar(d.day, 2);
  }

  lemma IsoHasNoBar(d: DateTime)
    ensures NoBar(IsoFormat(d))
  {
    FractionHasNoBar(d.micro);
    OffsetHasNoBar(d.offset);
    TimeHasNoBar(d, Fraction(d.micro) + OffsetText(d.offset));
    DateHasNoBar(d, TimeText(d, Fraction(d.micro) + OffsetText(d.offset)));
  }

  lemma {:induction false} HexTextLength(bytes: seq<Byte>)
    ensures |HexText(bytes)| == 2 * |bytes|
  {
    if bytes != [] { HexTextLength(bytes[1..]); }
  }

  lemma HexPairDetermines(x: Byte, y: Byte)
    requires HexDigit(x / 16) == HexDigit(y / 16) && HexDigit(x % 16) == HexDigit(y % 16)
    ensures x == y
  {
    HexDigitReadsBack(x / 16);
    HexDigitReadsBack(y / 16);
    HexDigitReadsBack(x % 16);
    HexDigitReadsBack(y % 16);
  }

  lemma {:induction false} HexTextIsInjective(a: seq<Byte>, b: seq<Byte>)
    requires HexText(a) == HexText(b)
    ensures a == b
  {
    HexTextLength(a);
    HexTextLength(b);
    if a != [] {
      var s, t := HexText(a), HexText(b);
      assert s[0] == t[0] && s[1] == t[1];
      HexPairDetermines(a[0], b[0]);
      assert s[2..] == HexText(a[1..]) && t[2..] == HexText(b[1..]);
      HexTextIsInjective(a[1..], b[1..]);
      assert a == [a[0]] + a[1..] && b == [b[0]] + b[1..];
    }
  }

  /** A text splits in one way at its last bar. */
  lemma LastBarSplits(x: string, y: string, x': string, y': string)
    requires NoBar(y) && NoBar(y') && x + "|" + y == x' + "|" + y'
    ensures x == x' && y == y'
  {
    var t, t' := x + "|" + y, x' + "|" + y';
    forall k | |x| < k < |t| ensures t[k] != '|' { assert t[k] == y[k - |x| - 1]; }
    forall k | |x'| < k < |t'| ensures t'[k] != '|' { assert t'[k] == y'[k - |x'| - 1]; }
    assert t[|x|] == '|' && t'[|x'|] == '|';
    assert x == t[..|x|] && x' == t'[..|x'|];
    assert y == t[|x| + 1..] && y' == t'[|x'| + 1..];
  }

  /** The signed message determines the action, the argument digest and the expiry, even when the
      action id itself contains bars. */
  lemma {:induction false} MessageDecodesUniquely(a: string, h: Digest, e: Aware, a': string, h': Digest, e': Aware)
    requires Message(a, h, e) == Message(a', h', e')
    ensures a == a' && h == h' && e == e'
  {
    IsoHasNoBar(e);
    IsoHasNoBar(e');
    var x, x' := a + "|" + HexText(h), a' + "|" + HexText(h');
    LastBarSplits(x, IsoFormat(e), x', IsoFormat(e'));
    HexTextLength(h);
    HexTextLength(h');
    assert |a| == |a'| && x[..|a|] == a && x'[..|a|] == a';
    assert x[|a| + 1..] == HexText(h) && x'[|a| + 1..] == HexText(h');
    HexTextIsInjective(h, h');
    FromIsoFormatIsoFormat(e);
    FromIsoFormatIsoFormat(e');
  }

  /** The function gives these two texts different digests if they differ. */
  predicate NoCollision(digest: string -> Digest, x: string, y: string)
  {
    digest(x) == digest(y) ==> x == y
  }

  /** A token that carries the signature of an issued one and verifies under its key is the issued one, same action,
      same expiry, equal arguments, unless it exhibits a collision of HMAC under the key or of SHA-256: the two signed
      messages, or the two canonical argument texts. */
  lemma {:induction false} SignatureBindsToken(secret: string, ttl: int, actionId: string, args: Args, issued: Aware,
                                               crypto: Crypto, forged: HarnessToken, forgedArgs: Args, id: string,
                                               now: Aware)
    requires Issue(secret, ttl, actionId, args, issued, crypto).Some?
    requires forged.signature == Issue(secret, ttl, actionId, args, issued, crypto).value.signature
    requires forged.argsHash == ArgsHash(forgedArgs, crypto)
    requires Verify(forged, id, Some(secret), now, crypto) == Verified
    ensures var t := Issue(secret, ttl, actionId, args, issued, crypto).value;
            && NoCollision(m => crypto.hmac(secret, m), Message(forged.actionId, forged.argsHash, forged.expiresAt),
                           Message(t.actionId, t.argsHash, t.expiresAt))
            && NoCollision(crypto.sha256, CanonText(forgedArgs, COMPACT), CanonText(args, COMPACT))
            ==> id == actionId == forged.actionId
                && forged.expiresAt == t.expiresAt
                && Denote(forgedArgs) == Denote(args)
  {
    var t := Issue(secret, ttl, actionId, args, issued, crypto).value;
    if Message(forged.actionId, forged.argsHash, forged.expiresAt) == Message(t.actionId, t.argsHash, t.expiresAt) {
      MessageDecodesUniquely(forged.actionId, forged.argsHash, forged.expiresAt, t.actionId, t.argsHash, t.expiresAt);
      CanonTextIsInjective(forgedArgs, args, COMPACT);
    }
  }

  /** The premises are met, collision clauses included, by every issued token itself before its expiry. */
  lemma IssuedTokenMeetsBinding(secret: string, ttl: int, actionId: string, args: Args, issued: Aware, crypto: Crypto,
                                now: Aware)
    requires Issue(secret, ttl, actionId, args, issued, crypto).Some?
    requires Instant(now) < Instant(issued) + ttl * 1_000_000
    ensures var t := Issue(secret, ttl, actionId, args, issued, crypto).value;
            t.argsHash == ArgsHash(args, crypto) && Verify(t, actionId, Some(secret), now, crypto) == Verified
  {
    IssuedTokenVerifies(secret, ttl, actionId, args, issued, actionId, now, crypto);
  }
}
