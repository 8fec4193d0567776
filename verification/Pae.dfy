/** Length-prefixed pre-images of agent signatures (tet-core/src/agent.rs:121-159, 194-225).
    Byte strings are written as strings. */
module Pae {
  import opened Basics
  import opened Text

  const AGENT_PAYLOAD_DOMAIN_V1: string := "tet agent payload v1"
  const AGENT_MANIFEST_PAYLOAD_TYPE: string := "tet agent manifest v1"

  // ----- decimal numbers

  function Digit(d: nat): (c: char)
    requires d < 10
    ensures '0' <= c <= '9'
  {
    '0' + d as char
  }

  function Decimal(n: nat): (s: string)
    ensures s != ""
  {
    if n < 10 then [Digit(n)] else Decimal(n / 10) + [Digit(n % 10)]
  }

  // The number a run of digits spells.
  function Value(s: string): Option<nat> {
    if s == "" then Some(0)
    else
      var c := s[|s| - 1];
      match Value(s[..|s| - 1])
      case None => None
      case Some(v) => if '0' <= c <= '9' then Some(10 * v + (c - '0') as nat) else None
  }

  lemma {:induction false} DecimalReads(n: nat)
    ensures Value(Decimal(n)) == Some(n) && ' ' !in Decimal(n)
  {
    if n >= 10 {
      DecimalReads(n / 10);
      assert Decimal(n)[..|Decimal(n)| - 1] == Decimal(n / 10);
    } else {
      assert Decimal(n)[..0] == "";
    }
  }

  // ----- the encoding

  function Field(f: string): string {
    Decimal(|f|) + " " + f + " "
  }

  function PaeFields(fields: seq<string>): string {
    if fields == [] then "" else PaeFields(fields[..|fields| - 1]) + Field(fields[|fields| - 1])
  }

  method EncodeFields(fields: seq<string>) returns (out: string)
    ensures out == PaeFields(fields)
  {
    out := "";
    for i := 0 to |fields|
      invariant out == PaeFields(fields[..i])
    {
      out := out + Decimal(|fields[i]|);
      out := out + " ";
      out := out + fields[i];
      out := out + " ";
      assert fields[..i + 1][..i] == fields[..i];
      assert out == PaeFields(fields[..i]) + Field(fields[i]);
    }
    assert fields[..|fields|] == fields;
  }

  function Pae(domain: string, fields: seq<string>): string {
    domain + " " + PaeFields(fields)
  }

  lemma FieldsLook()
    ensures Field("a") == "1 a " && Field("bc") == "2 bc "
  {
    assert Decimal(1) == "1" && Decimal(2) == "2";
  }

  // The layout, on the documentation's two fields: each is its length in decimal, a space, itself, a space.
  lemma LayoutOfTwo()
    ensures Pae("d", ["a", "bc"]) == "d 1 a 2 bc "
  {
    hide Field;
    FieldsLook();
    var one, two := ["a"], ["a", "bc"];
    assert one[..0] == [] && two[..1] == one;
    assert PaeFields([]) == "";
    assert PaeFields(one) == "1 a ";
    assert PaeFields(two) == PaeFields(one) + "2 bc ";
  }

  // ----- a reader for the encoding

  function SpaceAt(s: string): (i: nat)
    ensures i <= |s| && (forall k :: 0 <= k < i ==> s[k] != ' ') && (i < |s| ==> s[i] == ' ')
  {
    if s == "" || s[0] == ' ' then 0 else 1 + SpaceAt(s[1..])
  }

  // The field a string starts with, and what follows it; the length must be written as `Decimal` does.
  function Take(s: string): (r: Option<(string, string)>)
    ensures r.Some? ==> |r.value.1| < |s|
  {
    var i := SpaceAt(s);
    match Value(s[..i])
    case None => None
    case Some(len) =>
      if s[..i] == Decimal(len) && i + len + 1 < |s| && s[i + 1 + len] == ' '
      then Some((s[i + 1..i + 1 + len], s[i + len + 2..])) else None
  }

  function Parse(s: string): Option<seq<string>>
    decreases |s|
  {
    if s == "" then Some([])
    else
      match Take(s)
      case None => None
      case Some((f, rest)) =>
        match Parse(rest)
        case None => None
        case Some(fields) => Some([f] + fields)
  }

  lemma {:induction false} PaeFieldsConcat(a: seq<string>, b: seq<string>)
    ensures PaeFields(a + b) == PaeFields(a) + PaeFields(b)
  {
    hide Field;
    if b == [] {
      assert a + b == a;
    } else {
      var n := |b| - 1;
      assert (a + b)[..|a| + n] == a + b[..n] && (a + b)[|a| + n] == b[n];
      PaeFieldsConcat(a, b[..n]);
      assert PaeFields(a) + (PaeFields(b[..n]) + Field(b[n])) == PaeFields(a) + PaeFields(b[..n]) + Field(b[n]);
    }
  }

  lemma PaeFieldsFirst(f: string, rest: seq<string>)
    ensures PaeFields([f] + rest) == Field(f) + PaeFields(rest)
  {
    PaeFieldsConcat([f], rest);
    assert [f][..0] == [];
    assert PaeFields([f]) == Field(f);
  }

  // The first space is the one that ends the length, whatever the field holds.
  lemma FirstSpaceEndsTheLength(d: string, rest: string)
    requires ' ' !in d
    ensures SpaceAt(d + " " + rest) == |d|
  {
    var s := d + " " + rest;
    assert s[|d|] == ' ';
    assert forall k :: 0 <= k < |d| ==> s[k] == d[k];
  }

  lemma FieldReadsBack(f: string, rest: string)
    ensures Take(Field(f) + rest) == Some((f, rest))
  {
    hide SpaceAt, Decimal, Value;
    var d := Decimal(|f|);
    var s := Field(f) + rest;
    DecimalReads(|f|);
    FirstSpaceEndsTheLength(d, f + " " + rest);
    assert s == d + " " + (f + " " + rest);
    var i := |d|;
    assert s[..i] == d;
    assert s[i + 1..i + 1 + |f|] == f;
    assert s[i + 1 + |f|] == ' ';
    assert s[i + |f| + 2..] == rest;
  }

  lemma TakenIsAField(s: string)
    requires Take(s).Some?
    ensures s == Field(Take(s).value.0) + Take(s).value.1
  {
    var i := SpaceAt(s);
    var len := Value(s[..i]).value;
    assert s == s[..i] + [s[i]] + s[i + 1..i + 1 + len] + [s[i + 1 + len]] + s[i + len + 2..];
  }

  /** Unique decoding: any list of byte strings is read back from its encoding. */
  lemma {:induction false} EncodingReadsBack(fields: seq<string>)
    ensures Parse(PaeFields(fields)) == Some(fields)
  {
    if fields != [] {
      var rest := fields[1..];
      assert fields == [fields[0]] + rest;
      PaeFieldsFirst(fields[0], rest);
      FieldReadsBack(fields[0], PaeFields(rest));
      EncodingReadsBack(rest);
    }
  }

  /** And only encodings are read. */
  lemma {:induction false} OnlyEncodingsParse(s: string)
    ensures Parse(s).Some? ==> PaeFields(Parse(s).value) == s
    decreases |s|
  {
    if s != "" && Take(s).Some? && Parse(Take(s).value.1).Some? {
      var (f, rest) := Take(s).value;
      OnlyEncodingsParse(rest);
      TakenIsAField(s);
      PaeFieldsFirst(f, Parse(rest).value);
    }
  }

  lemma PaeIsInjective(domain: string, a: seq<string>, b: seq<string>)
    ensures Pae(domain, a) == Pae(domain, b) <==> a == b
  {
    if Pae(domain, a) == Pae(domain, b) {
      assert Pae(domain, a)[|domain| + 1..] == PaeFields(a);
      assert Pae(domain, b)[|domain| + 1..] == PaeFields(b);
      EncodingReadsBack(a);
      EncodingReadsBack(b);
    }
  }

  // ----- agent messages

  /** The chain a node signs for. */
  datatype Network = Network(chainId: string, genesisHash: string)

  function PayloadMessage(net: Network, payloadType: string, payload: string): string {
    Pae(AGENT_PAYLOAD_DOMAIN_V1, [net.chainId, net.genesisHash, Trim(payloadType), payload])
  }

  datatype Manifest = Manifest(
    v: nat, kind: string, agentId: string, agentEd25519: string, agentMldsa44: string, ownerWallet: string,
    createdAt: nat, expiresAt: nat, declaredAutomated: bool, capabilities: seq<string>)

  function ManifestFields(m: Manifest, ownerKey: string): seq<string> {
    [Decimal(m.v), Trim(m.kind), m.agentId, Norm(m.agentEd25519), Trim(m.agentMldsa44), Norm(m.ownerWallet),
     Decimal(m.createdAt), Decimal(m.expiresAt), if m.declaredAutomated then "1" else "0",
     Decimal(|m.capabilities|), Trim(ownerKey)] + m.capabilities
  }

  function ManifestMessage(net: Network, m: Manifest, ownerKey: string): string {
    PayloadMessage(net, AGENT_MANIFEST_PAYLOAD_TYPE, PaeFields(ManifestFields(m, ownerKey)))
  }

  /** A signature over one message covers another exactly when chain, genesis, trimmed type and payload agree. */
  lemma PayloadMessageBindsAll(n1: Network, t1: string, p1: string, n2: Network, t2: string, p2: string)
    ensures PayloadMessage(n1, t1, p1) == PayloadMessage(n2, t2, p2)
            <==> n1 == n2 && Trim(t1) == Trim(t2) && p1 == p2
  {
    hide Pae, Trim;
    var a := [n1.chainId, n1.genesisHash, Trim(t1), p1];
    var b := [n2.chainId, n2.genesisHash, Trim(t2), p2];
    PaeIsInjective(AGENT_PAYLOAD_DOMAIN_V1, a, b);
    if a == b {
      assert a[0] == b[0] && a[1] == b[1] && a[2] == b[2] && a[3] == b[3];
    }
  }

  lemma DecimalIsInjective(a: nat, b: nat)
    ensures Decimal(a) == Decimal(b) <==> a == b
  {
    DecimalReads(a);
    DecimalReads(b);
  }

  /** What a manifest message commits to. */
  datatype Commitment = Commitment(
    v: nat, kind: string, agentId: string, agentEd25519: string, agentMldsa44: string, ownerWallet: string,
    createdAt: nat, expiresAt: nat, declaredAutomated: bool, capabilities: seq<string>, ownerKey: string)

  function Committed(m: Manifest, ownerKey: string): Commitment {
    Commitment(m.v, Trim(m.kind), m.agentId, Norm(m.agentEd25519), Trim(m.agentMldsa44), Norm(m.ownerWallet),
               m.createdAt, m.expiresAt, m.declaredAutomated, m.capabilities, Trim(ownerKey))
  }

  lemma FieldsAreTheCommitment(m1: Manifest, k1: string, m2: Manifest, k2: string)
    ensures ManifestFields(m1, k1) == ManifestFields(m2, k2) <==> Committed(m1, k1) == Committed(m2, k2)
  {
    hide Trim, Norm, Decimal;
    var a, b := ManifestFields(m1, k1), ManifestFields(m2, k2);
    DecimalIsInjective(m1.v, m2.v);
    DecimalIsInjective(m1.createdAt, m2.createdAt);
    DecimalIsInjective(m1.expiresAt, m2.expiresAt);
    if a == b {
      assert a[0] == b[0] && a[1] == b[1] && a[2] == b[2] && a[3] == b[3] && a[4] == b[4] && a[5] == b[5];
      assert a[6] == b[6] && a[7] == b[7] && a[8] == b[8] && a[10] == b[10];
      assert a[8][0] == b[8][0];
      assert a[11..] == m1.capabilities && b[11..] == m2.capabilities;
    }
  }

  /** Two manifest messages are equal exactly when the networks and everything committed to are, the
      capability list included, through both layers of the encoding. */
  lemma ManifestMessageBindsAll(n1: Network, m1: Manifest, k1: string, n2: Network, m2: Manifest, k2: string)
    ensures ManifestMessage(n1, m1, k1) == ManifestMessage(n2, m2, k2)
            <==> n1 == n2 && Committed(m1, k1) == Committed(m2, k2)
  {
    hide PayloadMessage, ManifestFields, Committed, PaeFields;
    var a, b := ManifestFields(m1, k1), ManifestFields(m2, k2);
    PayloadMessageBindsAll(n1, AGENT_MANIFEST_PAYLOAD_TYPE, PaeFields(a), n2, AGENT_MANIFEST_PAYLOAD_TYPE,
                           PaeFields(b));
    EncodingReadsBack(a);
    EncodingReadsBack(b);
    FieldsAreTheCommitment(m1, k1, m2, k2);
  }

  /** No manifest message is also a payload message of another type. */
  lemma ManifestsAreNotOtherPayloads(n1: Network, m: Manifest, ownerKey: string, n2: Network, payloadType: string,
                                     payload: string)
    requires Trim(payloadType) != Trim(AGENT_MANIFEST_PAYLOAD_TYPE)
    ensures ManifestMessage(n1, m, ownerKey) != PayloadMessage(n2, payloadType, payload)
  {
    hide PayloadMessage, ManifestFields, PaeFields, Trim;
    PayloadMessageBindsAll(n1, AGENT_MANIFEST_PAYLOAD_TYPE, PaeFields(ManifestFields(m, ownerKey)), n2, payloadType,
                           payload);
  }
}
