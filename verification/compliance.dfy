/** Signed audit packages and custody statements: what their bytes determine, and single use. */
module Compliance {
  import opened Bytes

  const U64: nat := 0x1_0000_0000_0000_0000
  const U16: nat := 0x1_0000

  /** "coincync/audit-package/v1" and "coincync/treasury-custody/v1". */
  const AUDIT_TAG: seq<Byte> := [
    99, 111, 105, 110, 99, 121, 110, 99, 47, 97, 117, 100, 105, 116, 45, 112, 97, 99, 107, 97, 103, 101, 47, 118, 49]
  const CUSTODY_TAG: seq<Byte> := [
    99, 111, 105, 110, 99, 121, 110, 99, 47, 116, 114, 101, 97, 115, 117, 114, 121, 45, 99, 117, 115, 116, 111, 100,
    121,
    47, 118, 49]

  type Key = k: seq<Byte> | |k| == 32 witness seq(32, _ => 0)

  // ---- the audit-package message ----

  datatype AuditFields = AuditFields(package: seq<Byte>, issuer: Key, auditId: Key, audience: seq<Byte>)

  function AuditMessage(f: AuditFields): seq<Byte> {
    AUDIT_TAG + (LittleEndian(|f.package|, 8) + (f.package + (f.issuer + (f.auditId
      + (LittleEndian(|f.audience|, 8) + f.audience)))))
  }

  /** The buffer, built by appending. */
  method SigningBytes(f: AuditFields) returns (m: seq<Byte>)
    ensures m == AuditMessage(f)
  {
    m := [];
    m := m + AUDIT_TAG;
    m := m + LittleEndian(|f.package|, 8);
    m := m + f.package;
    m := m + f.issuer;
    m := m + f.auditId;
    m := m + LittleEndian(|f.audience|, 8);
    m := m + f.audience;
    var tail := LittleEndian(|f.audience|, 8) + f.audience;
    assert AuditMessage(f) == AUDIT_TAG + LittleEndian(|f.package|, 8) + f.package + f.issuer + f.auditId + tail;
  }

  lemma Pow256Of8()
    ensures Pow256(8) == U64 && Pow256(2) == U16
  {
    assert Pow256(4) == 0x1_0000_0000;
    assert Pow256(8) == 256 * (256 * (256 * (256 * Pow256(4))));
  }

  /** A length-prefixed field, followed by anything, can be read back. */
  lemma PrefixedField(x: seq<Byte>, a: seq<Byte>, y: seq<Byte>, b: seq<Byte>)
    requires |x| < U64 && |y| < U64
    requires LittleEndian(|x|, 8) + (x + a) == LittleEndian(|y|, 8) + (y + b)
    ensures x == y && a == b
  {
    CutEqual(LittleEndian(|x|, 8), x + a, LittleEndian(|y|, 8), y + b);
    Pow256Of8();
    LittleEndianInjective(|x|, |y|, 8);
    CutEqual(x, a, y, b);
  }

  /** The signed message determines the package, the issuer, the audit id and the audience. */
  lemma AuditMessageInjective(f: AuditFields, g: AuditFields)
    requires |f.package| < U64 && |g.package| < U64 && |f.audience| < U64 && |g.audience| < U64
    requires AuditMessage(f) == AuditMessage(g)
    ensures f == g
  {
    hide LittleEndian;
    var s, t := LittleEndian(|f.audience|, 8) + f.audience, LittleEndian(|g.audience|, 8) + g.audience;
    var a, b := f.issuer + (f.auditId + s), g.issuer + (g.auditId + t);
    CutEqual(AUDIT_TAG, LittleEndian(|f.package|, 8) + (f.package + a),
             AUDIT_TAG, LittleEndian(|g.package|, 8) + (g.package + b));
    PrefixedField(f.package, a, g.package, b);
    CutEqual(f.issuer, f.auditId + s, g.issuer, g.auditId + t);
    CutEqual(f.auditId, s, g.auditId, t);
    assert f.audience + [] == f.audience && g.audience + [] == g.audience;
    PrefixedField(f.audience, [], g.audience, []);
  }

  // ---- the custody statement ----

  datatype CustodyFields = CustodyFields(
    org: seq<Byte>, threshold: nat, participants: nat, group: Key, txHash: Key, outputIndex: Byte)

  function CustodyMessage(f: CustodyFields): seq<Byte> {
    CUSTODY_TAG + (LittleEndian(|f.org|, 8) + (f.org + (LittleEndian(f.threshold, 2)
      + (LittleEndian(f.participants, 2) + (f.group + (f.txHash + [f.outputIndex]))))))
  }

  method StatementBytes(f: CustodyFields) returns (m: seq<Byte>)
    ensures m == CustodyMessage(f)
  {
    m := [];
    m := m + CUSTODY_TAG;
    m := m + LittleEndian(|f.org|, 8);
    m := m + f.org;
    m := m + LittleEndian(f.threshold, 2);
    m := m + LittleEndian(f.participants, 2);
    m := m + f.group;
    m := m + f.txHash;
    m := m + [f.outputIndex];
    var tail := f.group + (f.txHash + [f.outputIndex]);
    assert CustodyMessage(f) == CUSTODY_TAG + LittleEndian(|f.org|, 8) + f.org + LittleEndian(f.threshold, 2)
      + LittleEndian(f.participants, 2) + tail;
  }

  /** The statement determines every field. */
  lemma CustodyMessageInjective(f: CustodyFields, g: CustodyFields)
    requires |f.org| < U64 && |g.org| < U64
    requires f.threshold < U16 && g.threshold < U16 && f.participants < U16 && g.participants < U16
    requires CustodyMessage(f) == CustodyMessage(g)
    ensures f == g
  {
    hide LittleEndian, Pow256;
    Pow256Of8();
    var s, t := f.group + (f.txHash + [f.outputIndex]), g.group + (g.txHash + [g.outputIndex]);
    var p, q := LittleEndian(f.participants, 2) + s, LittleEndian(g.participants, 2) + t;
    var a, b := LittleEndian(f.threshold, 2) + p, LittleEndian(g.threshold, 2) + q;
    CutEqual(CUSTODY_TAG, LittleEndian(|f.org|, 8) + (f.org + a), CUSTODY_TAG, LittleEndian(|g.org|, 8) + (g.org + b));
    PrefixedField(f.org, a, g.org, b);
    CustodyTail(f, g);
  }

  /** The fixed-width part of a statement, once the organisation is known to agree. */
  lemma CustodyTail(f: CustodyFields, g: CustodyFields)
    requires f.threshold < U16 && g.threshold < U16 && f.participants < U16 && g.participants < U16
    requires LittleEndian(f.threshold, 2) + (LittleEndian(f.participants, 2) + (f.group + (f.txHash + [f.outputIndex])))
          == LittleEndian(g.threshold, 2) + (LittleEndian(g.participants, 2) + (g.group + (g.txHash + [g.outputIndex])))
    ensures f.(org := g.org) == g
  {
    Pow256Of8();
    hide LittleEndian, Pow256;
    var s, t := f.group + (f.txHash + [f.outputIndex]), g.group + (g.txHash + [g.outputIndex]);
    LittleEndianLength(f, g);
    CutEqual(LittleEndian(f.threshold, 2), LittleEndian(f.participants, 2) + s,
             LittleEndian(g.threshold, 2), LittleEndian(g.participants, 2) + t);
    CutEqual(LittleEndian(f.participants, 2), s, LittleEndian(g.participants, 2), t);
    LittleEndianInjective(f.threshold, g.threshold, 2);
    LittleEndianInjective(f.participants, g.participants, 2);
    CutEqual(f.group, f.txHash + [f.outputIndex], g.group, g.txHash + [g.outputIndex]);
    CutEqual(f.txHash, [f.outputIndex], g.txHash, [g.outputIndex]);
  }

  lemma LittleEndianLength(f: CustodyFields, g: CustodyFields)
    ensures |LittleEndian(f.threshold, 2)| == |LittleEndian(g.threshold, 2)| == 2
    ensures |LittleEndian(f.participants, 2)| == |LittleEndian(g.participants, 2)| == 2
  {
  }

  /** No message of one kind is a message of the other. */
  lemma KindsApart(f: AuditFields, g: CustodyFields)
    ensures AuditMessage(f) != CustodyMessage(g)
  {
    assert AuditMessage(f)[9] == AUDIT_TAG[9] == 97;
    assert CustodyMessage(g)[9] == CUSTODY_TAG[9] == 116;
  }

  // ---- single use ----

  /** A signed package as it travels: keys, id and signature are hexadecimal text. */
  datatype Signed = Signed(package: nat, issuer: string, auditId: string, audience: seq<Byte>, signature: string)

  datatype Verdict = Yes | No | Fault

  datatype Json = Unserializable | Text(bytes: seq<Byte>)

  /** Serialization, signature check and anchored verification. */
  datatype Checks = Checks(
    json: nat -> Json,
    verify: (Key, seq<Byte>, seq<Byte>) -> bool,
    anchored: (nat, nat) -> Verdict)

  /** `decode_hex_array`: hexadecimal of exactly `n` bytes. */
  function DecodeArray(s: string, n: nat): Decoded {
    match HexDecode(s)
    case Malformed => Malformed
    case Value(b) => if |b| == n then Value(b) else Malformed
  }

  /** What `verify_signature` answers. */
  function SignatureVerdict(ck: Checks, p: Signed, issuer: Key, auditor: seq<Byte>): Verdict {
    var key := DecodeArray(p.issuer, 32);
    if key.Malformed? then Fault
    else if key.bytes != issuer || p.audience != auditor then No
    else
      var id, sig, text := DecodeArray(p.auditId, 32), DecodeArray(p.signature, 64), ck.json(p.package);
      if id.Malformed? || sig.Malformed? || text.Unserializable? then Fault
      else if ck.verify(issuer, AuditMessage(AuditFields(text.bytes, issuer, id.bytes, p.audience)), sig.bytes) then Yes
      else No
  }

  datatype Request = Request(p: Signed, issuer: Key, auditor: seq<Byte>, now: nat)

  /** Signature and anchored checks together, before single use is claimed. */
  function Verified(ck: Checks, r: Request): Verdict {
    match SignatureVerdict(ck, r.p, r.issuer, r.auditor)
    case Yes => ck.anchored(r.p.package, r.now)
    case v => v
  }

  /** An auditor's set of consumed ids. */
  class Auditor {
    var consumed: set<string>

    constructor ()
      ensures consumed == {}
    {
      consumed := {};
    }

    method ClaimSingleUse(p: Signed) returns (claimed: bool)
      modifies this
      ensures claimed == (p.auditId !in old(consumed)) && consumed == old(consumed) + {p.auditId}
    {
      claimed := p.auditId !in consumed;
      consumed := consumed + {p.auditId};
    }

    /** Accepted exactly when verified and not used before; only then is the id consumed. */
    method Accept(ck: Checks, r: Request) returns (v: Verdict)
      modifies this
      ensures v == Answer(ck, old(consumed), r)
      ensures consumed == if v == Yes then old(consumed) + {r.p.auditId} else old(consumed)
    {
      var signed := SignatureVerdict(ck, r.p, r.issuer, r.auditor);
      if signed != Yes { return signed; }
      var anchored := ck.anchored(r.p.package, r.now);
      if anchored != Yes { return anchored; }
      var claimed := ClaimSingleUse(r.p);
      v := if claimed then Yes else No;
    }
  }

  function Answer(ck: Checks, consumed: set<string>, r: Request): Verdict {
    if Verified(ck, r) == Yes then (if r.p.auditId in consumed then No else Yes) else Verified(ck, r)
  }

  /** The consumed set after a sequence of calls. */
  function ConsumedAfter(ck: Checks, consumed: set<string>, rs: seq<Request>): set<string> {
    if rs == [] then consumed
    else
      var before, r := ConsumedAfter(ck, consumed, rs[..|rs| - 1]), rs[|rs| - 1];
      if Answer(ck, before, r) == Yes then before + {r.p.auditId} else before
  }

  /** Call `i` of the sequence is accepted. */
  predicate AcceptedAt(ck: Checks, consumed: set<string>, rs: seq<Request>, i: nat)
    requires i < |rs|
  {
    Answer(ck, ConsumedAfter(ck, consumed, rs[..i]), rs[i]) == Yes
  }

  /** The consumed set is exactly the initial one plus the accepted ids. */
  lemma {:induction false} ConsumedExactly(ck: Checks, consumed: set<string>, rs: seq<Request>, id: string)
    ensures id in ConsumedAfter(ck, consumed, rs) <==>
            id in consumed || exists i | 0 <= i < |rs| :: AcceptedAt(ck, consumed, rs, i) && rs[i].p.auditId == id
  {
    hide Answer;
    if rs != [] {
      var init, k := rs[..|rs| - 1], |rs| - 1;
      ConsumedExactly(ck, consumed, init, id);
      forall i | 0 <= i < k ensures AcceptedAt(ck, consumed, rs, i) == AcceptedAt(ck, consumed, init, i)
        && init[i] == rs[i] {
        assert init[..i] == rs[..i];
      }
      assert rs[..k] == init;
      if id in ConsumedAfter(ck, consumed, init) && id !in consumed {
        var i :| 0 <= i < |init| && AcceptedAt(ck, consumed, init, i) && init[i].p.auditId == id;
        assert AcceptedAt(ck, consumed, rs, i) && rs[i].p.auditId == id;
      }
      if AcceptedAt(ck, consumed, rs, k) { assert rs[k].p.auditId in ConsumedAfter(ck, consumed, rs); }
    }
  }

  /** No id text is accepted twice. */
  lemma {:induction false} TextOnce(ck: Checks, consumed: set<string>, rs: seq<Request>, i: nat, j: nat)
    requires i < j < |rs| && AcceptedAt(ck, consumed, rs, i) && AcceptedAt(ck, consumed, rs, j)
    ensures rs[i].p.auditId != rs[j].p.auditId
  {
    var upto := rs[..j];
    assert upto[i] == rs[i] && upto[..i] == rs[..i];
    assert AcceptedAt(ck, consumed, upto, i);
    ConsumedExactly(ck, consumed, upto, rs[i].p.auditId);
  }

  /** With ids in the lower-case text that signing writes, no audit id is accepted twice. */
  lemma SingleUse(ck: Checks, consumed: set<string>, rs: seq<Request>, i: nat, j: nat)
    requires i < j < |rs| && AcceptedAt(ck, consumed, rs, i) && AcceptedAt(ck, consumed, rs, j)
    requires LowerCase(rs[i].p.auditId) && LowerCase(rs[j].p.auditId)
    ensures HexDecode(rs[i].p.auditId).Value? && HexDecode(rs[j].p.auditId).Value?
    ensures HexDecode(rs[i].p.auditId) != HexDecode(rs[j].p.auditId)
  {
    TextOnce(ck, consumed, rs, i, j);
    AcceptedDecodes(ck, ConsumedAfter(ck, consumed, rs[..i]), rs[i]);
    AcceptedDecodes(ck, ConsumedAfter(ck, consumed, rs[..j]), rs[j]);
    LowerIsCanonical(rs[i].p.auditId);
    LowerIsCanonical(rs[j].p.auditId);
  }

  lemma AcceptedDecodes(ck: Checks, consumed: set<string>, r: Request)
    requires Answer(ck, consumed, r) == Yes
    ensures HexDecode(r.p.auditId).Value?
  {
  }

  /** A package replayed right after it was accepted, with its id written as `text`, is accepted again exactly when
      that text is new: the signature covers the id's bytes and not its spelling. */
  lemma ReplayIff(ck: Checks, consumed: set<string>, r: Request, text: string)
    requires Answer(ck, consumed, r) == Yes && DecodeArray(text, 32) == DecodeArray(r.p.auditId, 32)
    ensures
      var again := r.(p := r.p.(auditId := text));
      Answer(ck, consumed + {r.p.auditId}, again) == Yes <==> text != r.p.auditId && text !in consumed
  {
  }

  /** `n` bytes 0xAA, spelled with either case of the letter. */
  lemma {:induction false} Spelled(c: char, n: nat)
    requires c == 'a' || c == 'A'
    ensures HexDecode(seq(2 * n, _ => c)) == Value(seq(n, _ => 0xaa))
  {
    var s := seq(2 * n, _ => c);
    if n > 0 {
      Spelled(c, n - 1);
      assert s[2..] == seq(2 * (n - 1), _ => c);
      assert [0xaa] + seq(n - 1, _ => 0xaa) == seq(n, _ => 0xaa);
    }
  }

  /** Upper-case spelling defeats single use: the same id is accepted twice. */
  lemma UpperCaseAcceptedTwice(ck: Checks, r: Request)
    requires r.p.auditId == seq(64, _ => 'a') && Verified(ck, r) == Yes
    ensures
      var again := r.(p := r.p.(auditId := seq(64, _ => 'A')));
      && DecodeArray(again.p.auditId, 32) == DecodeArray(r.p.auditId, 32)
      && Answer(ck, {}, r) == Yes && Answer(ck, {r.p.auditId}, again) == Yes
  {
    Spelled('a', 32);
    Spelled('A', 32);
    var again := r.(p := r.p.(auditId := seq(64, _ => 'A')));
    assert again.p.auditId[0] != r.p.auditId[0];
    assert {} + {r.p.auditId} == {r.p.auditId};
    ReplayIff(ck, {}, r, again.p.auditId);
  }

  /** What signing writes is lower-case and decodes to the id that was signed. */
  lemma SignedIdIsLower(id: Key)
    ensures LowerCase(HexEncode(id)) && DecodeArray(HexEncode(id), 32) == Value(id)
  {
    HexIsLower(id);
    HexBack(id);
  }
}
