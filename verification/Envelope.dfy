/**
 The signed envelope (crates/cursdel-license/src/envelope.rs). Parsing, base64url decoding and signature checking are
 functions the model knows nothing about.
 */
module Envelope {
  import opened Wrappers

  type Bytes = seq<bv8>

  const MAX_ENVELOPE_BYTES := 64 * 1024
  const MAX_SIGNATURES := 8

  datatype SignatureAlgorithm = Ed25519 | EcdsaP256Sha256 | MlDsa65 {
    function Id(): string {
      match this
      case Ed25519 => "Ed25519"
      case EcdsaP256Sha256 => "ECDSA-P256-SHA256"
      case MlDsa65 => "ML-DSA-65"
    }
  }

  function AlgorithmFromId(id: string): Option<SignatureAlgorithm> {
    if id == "Ed25519" then Some(Ed25519)
    else if id == "ECDSA-P256-SHA256" then Some(EcdsaP256Sha256)
    else if id == "ML-DSA-65" then Some(MlDsa65)
    else None
  }

  lemma IdsRoundTrip(id: string, a: SignatureAlgorithm)
    ensures AlgorithmFromId(id) == Some(a) <==> a.Id() == id
  {
  }

  datatype EnvelopeKind = License | Activation {
    function Format(): string {
      match this
      case License => "repass-license-v1"
      case Activation => "repass-activation-v1"
    }
  }

  datatype RawSignature = RawSignature(signatureAlgorithm: string, keyId: string, signature: string)

  datatype RawEnvelope = RawEnvelope(format: string, payload: string, signatures: seq<RawSignature>)

  datatype TrustedKey = TrustedKey(id: string, algorithm: SignatureAlgorithm, material: Bytes)

  /** The set of trusted keys: at most one per id. */
  type TrustedKeySet = map<string, TrustedKey>

  /** What the libraries do: parse the text, decode base64url, check a signature. */
  datatype Library = Library(
    parse: Bytes -> Option<RawEnvelope>,
    decode: string -> Option<Bytes>,
    verify: (TrustedKey, Bytes, Bytes) -> bool)

  datatype Defect =
    | TooLarge | NotAnEnvelope | BadPayload | WrongSignatureCount | DuplicateKey(keyId: string)
    | WrongAlgorithm(keyId: string) | BadSignatureEncoding

  datatype EnvelopeError =
    | Malformed(defect: Defect)
    | UnsupportedFormat(format: string)
    | UnsupportedAlgorithm(algorithms: seq<string>)
    | DisallowedAlgorithm(algorithms: seq<string>)
    | UntrustedKey(keyIds: seq<string>)
    | InvalidSignature(keyId: string)

  datatype VerifiedSignature = VerifiedSignature(keyId: string, algorithm: SignatureAlgorithm)

  datatype VerifiedPayload = VerifiedPayload(payload: Bytes, verifiedBy: seq<VerifiedSignature>)

  // ---------------------------------------------------------------------------------------------------------------
  // The signed message
  // ---------------------------------------------------------------------------------------------------------------

  predicate IsAscii(s: string) {
    forall k :: 0 <= k < |s| ==> s[k] < 128 as char
  }

  function Ascii(s: string): (b: Bytes)
    requires IsAscii(s)
    ensures |b| == |s|
  {
    seq(|s|, i requires 0 <= i < |s| => s[i] as bv8)
  }

  const NEWLINE: bv8 := 10

  function Message(kind: EnvelopeKind, payload: Bytes): Bytes {
    Ascii(kind.Format()) + [NEWLINE] + payload
  }

  method SignedMessage(kind: EnvelopeKind, payload: Bytes) returns (message: Bytes)
    ensures message == Message(kind, payload)
  {
    message := Ascii(kind.Format());
    message := message + [NEWLINE];
    message := message + payload;
  }

  /** No signature can be replayed: different kinds or payloads are signed as different messages. */
  lemma SignedMessageIsInjective(k: EnvelopeKind, p: Bytes, l: EnvelopeKind, q: Bytes)
    requires Message(k, p) == Message(l, q)
    ensures k == l && p == q
  {
    var a, b := Ascii(k.Format()), Ascii(l.Format());
    assert Message(k, p)[7] == a[7] && Message(l, q)[7] == b[7];
    assert k.Format()[7] == (if k.License? then 'l' else 'a');
    assert l.Format()[7] == (if l.License? then 'l' else 'a');
    assert Message(k, p)[|a| + 1..] == p && Message(l, q)[|b| + 1..] == q;
  }

  // ---------------------------------------------------------------------------------------------------------------
  // One signature
  // ---------------------------------------------------------------------------------------------------------------

  /** How one signature fares: skipped for one of three reasons, fatal for one of three, or good. */
  datatype Fate = SkipUnsupported | SkipDisallowed | SkipUntrusted | Fatal(error: EnvelopeError) | Good

  /** Everything a signature is judged by. */
  datatype Judge = Judge(lib: Library, keys: TrustedKeySet, allowed: set<SignatureAlgorithm>, message: Bytes)
  {
    function FateOf(sig: RawSignature): Fate {
      var algorithm := AlgorithmFromId(sig.signatureAlgorithm);
      if algorithm.None? then SkipUnsupported
      else if algorithm.value !in allowed then SkipDisallowed
      else if sig.keyId !in keys then SkipUntrusted
      else if keys[sig.keyId].algorithm != algorithm.value then Fatal(Malformed(WrongAlgorithm(keys[sig.keyId].id)))
      else if lib.decode(sig.signature).None? then Fatal(Malformed(BadSignatureEncoding))
      else if !lib.verify(keys[sig.keyId], message, lib.decode(sig.signature).value) then
        Fatal(InvalidSignature(sig.keyId))
      else Good
    }

    /** The signature claims an allowed algorithm and a trusted key. */
    predicate Relevant(sig: RawSignature) {
      AlgorithmFromId(sig.signatureAlgorithm).Some? && AlgorithmFromId(sig.signatureAlgorithm).value in allowed
      && sig.keyId in keys
    }

    /** The signature is by that key, with the key's own algorithm, and covers the message. */
    predicate Verifies(sig: RawSignature) {
      && sig.keyId in keys
      && AlgorithmFromId(sig.signatureAlgorithm) == Some(keys[sig.keyId].algorithm)
      && lib.decode(sig.signature).Some?
      && lib.verify(keys[sig.keyId], message, lib.decode(sig.signature).value)
    }

    lemma FateMeaning(sig: RawSignature)
      ensures FateOf(sig).Good? <==> Relevant(sig) && Verifies(sig)
      ensures FateOf(sig).Fatal? <==> Relevant(sig) && !Verifies(sig)
    {
    }

    /** Position of the first fatal signature. */
    function FirstFatal(sigs: seq<RawSignature>, from: nat): (k: nat)
      requires from <= |sigs|
      ensures from <= k <= |sigs|
      ensures k < |sigs| ==> FateOf(sigs[k]).Fatal?
      ensures forall i :: from <= i < k ==> !FateOf(sigs[i]).Fatal?
      decreases |sigs| - from
    {
      if from == |sigs| || FateOf(sigs[from]).Fatal? then from else FirstFatal(sigs, from + 1)
    }

    /** The signatures that meet one fate, in order. */
    function Those(sigs: seq<RawSignature>, fate: Fate): seq<RawSignature> {
      if |sigs| == 0 then []
      else Those(sigs[..|sigs| - 1], fate) + if FateOf(sigs[|sigs| - 1]) == fate then [sigs[|sigs| - 1]] else []
    }

    lemma {:induction false} ThoseMeaning(sigs: seq<RawSignature>, fate: Fate, sig: RawSignature)
      ensures sig in Those(sigs, fate) <==> sig in sigs && FateOf(sig) == fate
    {
      if |sigs| > 0 {
        ThoseMeaning(sigs[..|sigs| - 1], fate, sig);
        assert sigs == sigs[..|sigs| - 1] + [sigs[|sigs| - 1]];
      }
    }
  }

  // ---------------------------------------------------------------------------------------------------------------
  // The envelope
  // ---------------------------------------------------------------------------------------------------------------

  predicate HasDuplicateBefore(sigs: seq<RawSignature>, k: nat) {
    k < |sigs| && exists j :: 0 <= j < k && sigs[j].keyId == sigs[k].keyId
  }

  /** Position of the first signature whose key has signed before. */
  function FirstDuplicate(sigs: seq<RawSignature>, from: nat): (k: nat)
    requires from <= |sigs|
    ensures from <= k <= |sigs|
    ensures k < |sigs| ==> HasDuplicateBefore(sigs, k)
    ensures forall j: nat :: from <= j < k ==> !HasDuplicateBefore(sigs, j)
    decreases |sigs| - from
  {
    if from == |sigs| || HasDuplicateBefore(sigs, from) then from else FirstDuplicate(sigs, from + 1)
  }

  function Ids(sigs: seq<RawSignature>): seq<string> {
    seq(|sigs|, i requires 0 <= i < |sigs| => sigs[i].keyId)
  }

  function AlgorithmIds(sigs: seq<RawSignature>): seq<string> {
    seq(|sigs|, i requires 0 <= i < |sigs| => sigs[i].signatureAlgorithm)
  }

  function AsVerified(sig: RawSignature): VerifiedSignature {
    var algorithm := AlgorithmFromId(sig.signatureAlgorithm);
    VerifiedSignature(sig.keyId, if algorithm.Some? then algorithm.value else Ed25519)
  }

  function AllVerified(sigs: seq<RawSignature>): seq<VerifiedSignature> {
    seq(|sigs|, i requires 0 <= i < |sigs| => AsVerified(sigs[i]))
  }

  /** What is wrong with the shape of the envelope, or its payload. */
  function Shape(lib: Library, raw: RawEnvelope, kind: EnvelopeKind): Result<Bytes, EnvelopeError> {
    if raw.format != kind.Format() then Err(UnsupportedFormat(raw.format))
    else if lib.decode(raw.payload).None? then Err(Malformed(BadPayload))
    else if |raw.signatures| == 0 || |raw.signatures| > MAX_SIGNATURES then Err(Malformed(WrongSignatureCount))
    else
      var dup := FirstDuplicate(raw.signatures, 0);
      if dup < |raw.signatures| then Err(Malformed(DuplicateKey(raw.signatures[dup].keyId)))
      else Ok(lib.decode(raw.payload).value)
  }

  function Verdict(j: Judge, payload: Bytes, sigs: seq<RawSignature>): Result<VerifiedPayload, EnvelopeError> {
    var fatal := j.FirstFatal(sigs, 0);
    if fatal < |sigs| then Err(j.FateOf(sigs[fatal]).error)
    else if j.Those(sigs, Good) != [] then Ok(VerifiedPayload(payload, AllVerified(j.Those(sigs, Good))))
    else if j.Those(sigs, SkipUntrusted) != [] then Err(UntrustedKey(Ids(j.Those(sigs, SkipUntrusted))))
    else if j.Those(sigs, SkipDisallowed) != [] then
      Err(DisallowedAlgorithm(AlgorithmIds(j.Those(sigs, SkipDisallowed))))
    else Err(UnsupportedAlgorithm(AlgorithmIds(j.Those(sigs, SkipUnsupported))))
  }

  function OpenRaw(
    lib: Library, raw: RawEnvelope, kind: EnvelopeKind, keys: TrustedKeySet, allowed: set<SignatureAlgorithm>)
    : Result<VerifiedPayload, EnvelopeError>
  {
    match Shape(lib, raw, kind)
    case Err(e) => Err(e)
    case Ok(payload) => Verdict(Judge(lib, keys, allowed, Message(kind, payload)), payload, raw.signatures)
  }

  function Opened(
    lib: Library, text: Bytes, kind: EnvelopeKind, keys: TrustedKeySet, allowed: set<SignatureAlgorithm>)
    : Result<VerifiedPayload, EnvelopeError>
  {
    if |text| > MAX_ENVELOPE_BYTES then Err(Malformed(TooLarge))
    else if lib.parse(text).None? then Err(Malformed(NotAnEnvelope))
    else OpenRaw(lib, lib.parse(text).value, kind, keys, allowed)
  }

  /** The search for a key that signs twice. */
  method FindDuplicate(sigs: seq<RawSignature>) returns (k: nat)
    ensures k == FirstDuplicate(sigs, 0)
  {
    var keyIds: set<string> := {};
    k := 0;
    while k < |sigs|
      invariant k <= |sigs|
      invariant forall id :: id in keyIds <==> exists j :: 0 <= j < k && sigs[j].keyId == id
      invariant FirstDuplicate(sigs, 0) == FirstDuplicate(sigs, k)
    {
      if sigs[k].keyId in keyIds {
        return;
      }
      keyIds := keyIds + {sigs[k].keyId};
      k := k + 1;
    }
  }

  lemma NoneOfNone(j: Judge)
    ensures forall fate :: j.Those([], fate) == []
  {
  }

  /** What one more signature adds to the lists. */
  lemma ThoseNext(j: Judge, sigs: seq<RawSignature>, i: nat, fate: Fate)
    requires i < |sigs|
    ensures j.Those(sigs[..i + 1], fate)
            == j.Those(sigs[..i], fate) + if j.FateOf(sigs[i]) == fate then [sigs[i]] else []
  {
    assert sigs[..i + 1][..i] == sigs[..i];
  }

  /** The loop over the signatures, with its early returns and its four lists. */
  method CheckSignatures(
    lib: Library, keys: TrustedKeySet, allowed: set<SignatureAlgorithm>, message: Bytes, payload: Bytes,
    sigs: seq<RawSignature>)
    returns (r: Result<VerifiedPayload, EnvelopeError>)
    ensures r == Verdict(Judge(lib, keys, allowed, message), payload, sigs)
  {
    hide Judge.Those, AlgorithmFromId, SignatureAlgorithm.Id;
    ghost var j := Judge(lib, keys, allowed, message);
    NoneOfNone(j);
    var verifiedBy: seq<VerifiedSignature>, unsupported: seq<string> := [], [];
    var disallowed: seq<string>, untrusted: seq<string> := [], [];
    for i := 0 to |sigs|
      invariant j.FirstFatal(sigs, 0) == j.FirstFatal(sigs, i)
      invariant verifiedBy == AllVerified(j.Those(sigs[..i], Good))
      invariant untrusted == Ids(j.Those(sigs[..i], SkipUntrusted))
      invariant disallowed == AlgorithmIds(j.Those(sigs[..i], SkipDisallowed))
      invariant unsupported == AlgorithmIds(j.Those(sigs[..i], SkipUnsupported))
    {
      var sig := sigs[i];
      ThoseNext(j, sigs, i, Good);
      ThoseNext(j, sigs, i, SkipUntrusted);
      ThoseNext(j, sigs, i, SkipDisallowed);
      ThoseNext(j, sigs, i, SkipUnsupported);
      var algorithm := AlgorithmFromId(sig.signatureAlgorithm);
      if algorithm.None? {
        unsupported := unsupported + [sig.signatureAlgorithm];
        continue;
      }
      if algorithm.value !in allowed {
        IdsRoundTrip(sig.signatureAlgorithm, algorithm.value);
        disallowed := disallowed + [algorithm.value.Id()];
        continue;
      }
      if sig.keyId !in keys {
        untrusted := untrusted + [sig.keyId];
        continue;
      }
      var key := keys[sig.keyId];
      if key.algorithm != algorithm.value {
        return Err(Malformed(WrongAlgorithm(key.id)));
      }
      var signature := lib.decode(sig.signature);
      if signature.None? {
        return Err(Malformed(BadSignatureEncoding));
      }
      if !lib.verify(key, message, signature.value) {
        return Err(InvalidSignature(sig.keyId));
      }
      verifiedBy := verifiedBy + [VerifiedSignature(sig.keyId, algorithm.value)];
    }
    assert sigs[..|sigs|] == sigs;
    if |verifiedBy| > 0 {
      return Ok(VerifiedPayload(payload, verifiedBy));
    } else if |untrusted| > 0 {
      return Err(UntrustedKey(untrusted));
    } else if |disallowed| > 0 {
      return Err(DisallowedAlgorithm(disallowed));
    } else {
      return Err(UnsupportedAlgorithm(unsupported));
    }
  }

  method Open(lib: Library, text: Bytes, kind: EnvelopeKind, keys: TrustedKeySet, allowed: set<SignatureAlgorithm>)
    returns (r: Result<VerifiedPayload, EnvelopeError>)
    ensures r == Opened(lib, text, kind, keys, allowed)
  {
    if |text| > MAX_ENVELOPE_BYTES {
      return Err(Malformed(TooLarge));
    }
    var parsed := lib.parse(text);
    if parsed.None? {
      return Err(Malformed(NotAnEnvelope));
    }
    var raw := parsed.value;
    if raw.format != kind.Format() {
      return Err(UnsupportedFormat(raw.format));
    }
    var payload := lib.decode(raw.payload);
    if payload.None? {
      return Err(Malformed(BadPayload));
    }
    if |raw.signatures| == 0 || |raw.signatures| > MAX_SIGNATURES {
      return Err(Malformed(WrongSignatureCount));
    }
    var dup := FindDuplicate(raw.signatures);
    if dup < |raw.signatures| {
      return Err(Malformed(DuplicateKey(raw.signatures[dup].keyId)));
    }
    var message := SignedMessage(kind, payload.value);
    r := CheckSignatures(lib, keys, allowed, message, payload.value, raw.signatures);
  }

  // ---------------------------------------------------------------------------------------------------------------
  // Main results
  // ---------------------------------------------------------------------------------------------------------------

  predicate KeysDistinct(sigs: seq<RawSignature>) {
    forall j, k :: 0 <= j < k < |sigs| ==> sigs[j].keyId != sigs[k].keyId
  }

  /** The shape of the envelope is right. */
  predicate WellShaped(lib: Library, raw: RawEnvelope, kind: EnvelopeKind) {
    && raw.format == kind.Format()
    && lib.decode(raw.payload).Some?
    && 1 <= |raw.signatures| <= MAX_SIGNATURES
    && KeysDistinct(raw.signatures)
  }

  lemma VerdictMeaning(j: Judge, payload: Bytes, sigs: seq<RawSignature>)
    ensures Verdict(j, payload, sigs).Ok?
            <==> && (exists k :: 0 <= k < |sigs| && j.Relevant(sigs[k]) && j.Verifies(sigs[k]))
                 && (forall k :: 0 <= k < |sigs| && j.Relevant(sigs[k]) ==> j.Verifies(sigs[k]))
    ensures Verdict(j, payload, sigs).Ok? ==>
              && Verdict(j, payload, sigs).value.payload == payload
              && forall v ::
                   v in Verdict(j, payload, sigs).value.verifiedBy
                   <==> exists sig :: sig in sigs && AsVerified(sig) == v && j.Relevant(sig) && j.Verifies(sig)
  {
    hide Judge.FateOf, Judge.Relevant, Judge.Verifies;
    var good := j.Those(sigs, Good);
    forall sig
      ensures j.FateOf(sig).Good? <==> j.Relevant(sig) && j.Verifies(sig)
      ensures j.FateOf(sig).Fatal? <==> j.Relevant(sig) && !j.Verifies(sig)
      ensures sig in good <==> sig in sigs && j.FateOf(sig) == Good
    {
      j.FateMeaning(sig);
      j.ThoseMeaning(sigs, Good, sig);
    }
    if good != [] {
      assert good[0] in sigs;
    }
    if k :| 0 <= k < |sigs| && j.Relevant(sigs[k]) && j.Verifies(sigs[k]) {
      assert sigs[k] in good;
    }
    forall v ensures v in AllVerified(good) <==> exists sig :: sig in good && AsVerified(sig) == v {
      if v in AllVerified(good) {
        var k :| 0 <= k < |good| && AllVerified(good)[k] == v;
        assert good[k] in good && AsVerified(good[k]) == v;
      }
      if sig :| sig in good && AsVerified(sig) == v {
        var k :| 0 <= k < |good| && good[k] == sig;
        assert AllVerified(good)[k] == v;
      }
    }
  }

  /**
   An envelope opens exactly when its shape is right, some signature by a trusted key with an allowed algorithm
   verifies, and no such signature fails to. What comes out is the payload that was signed, and the keys that verify.
   */
  lemma OpensIff(
    lib: Library, raw: RawEnvelope, kind: EnvelopeKind, keys: TrustedKeySet, allowed: set<SignatureAlgorithm>)
    ensures var r := OpenRaw(lib, raw, kind, keys, allowed);
            && (r.Ok? <==>
                  && WellShaped(lib, raw, kind)
                  && var j := Judge(lib, keys, allowed, Message(kind, lib.decode(raw.payload).value));
                  && (exists k :: 0 <= k < |raw.signatures| && j.Relevant(raw.signatures[k])
                                  && j.Verifies(raw.signatures[k]))
                  && (forall k :: 0 <= k < |raw.signatures| && j.Relevant(raw.signatures[k]) ==>
                        j.Verifies(raw.signatures[k])))
            && (r.Ok? ==>
                  && lib.decode(raw.payload) == Some(r.value.payload)
                  && forall v :: v in r.value.verifiedBy <==>
                       exists sig :: sig in raw.signatures && AsVerified(sig) == v
                                     && var j := Judge(lib, keys, allowed, Message(kind, r.value.payload));
                                     j.Relevant(sig) && j.Verifies(sig))
  {
    var sigs := raw.signatures;
    if Shape(lib, raw, kind).Ok? {
      var payload := lib.decode(raw.payload).value;
      VerdictMeaning(Judge(lib, keys, allowed, Message(kind, payload)), payload, sigs);
    }
    if WellShaped(lib, raw, kind) {
      assert forall k: nat :: k < |sigs| ==> !HasDuplicateBefore(sigs, k);
    } else if raw.format == kind.Format() && lib.decode(raw.payload).Some? && 1 <= |sigs| <= MAX_SIGNATURES {
      var a, b :| 0 <= a < b < |sigs| && sigs[a].keyId == sigs[b].keyId;
      assert HasDuplicateBefore(sigs, b);
    }
  }

  /** The same for the text of an envelope: it must be small enough, parse, and what it parses to must open. */
  lemma TextOpensIff(
    lib: Library, text: Bytes, kind: EnvelopeKind, keys: TrustedKeySet, allowed: set<SignatureAlgorithm>)
    ensures var r := Opened(lib, text, kind, keys, allowed);
            && (r.Ok? <==>
                  && |text| <= MAX_ENVELOPE_BYTES && lib.parse(text).Some?
                  && var raw := lib.parse(text).value;
                  && WellShaped(lib, raw, kind)
                  && var j := Judge(lib, keys, allowed, Message(kind, lib.decode(raw.payload).value));
                  && (exists k :: 0 <= k < |raw.signatures| && j.Relevant(raw.signatures[k])
                                  && j.Verifies(raw.signatures[k]))
                  && (forall k :: 0 <= k < |raw.signatures| && j.Relevant(raw.signatures[k]) ==>
                        j.Verifies(raw.signatures[k])))
            && (r.Ok? ==>
                  && lib.decode(lib.parse(text).value.payload) == Some(r.value.payload)
                  && forall v :: v in r.value.verifiedBy <==>
                       exists sig :: sig in lib.parse(text).value.signatures && AsVerified(sig) == v
                                     && var j := Judge(lib, keys, allowed, Message(kind, r.value.payload));
                                     j.Relevant(sig) && j.Verifies(sig))
  {
    hide OpenRaw, WellShaped, Judge.Relevant, Judge.Verifies, Message;
    if lib.parse(text).Some? {
      OpensIff(lib, lib.parse(text).value, kind, keys, allowed);
    }
  }

  lemma {:induction false} PlacesOf(sigs: seq<RawSignature>, x: RawSignature)
    ensures multiset(sigs)[x] >= 2 <==> exists j, k :: 0 <= j < k < |sigs| && sigs[j] == x && sigs[k] == x
    ensures multiset(sigs)[x] >= 1 <==> x in sigs
  {
    if |sigs| > 0 {
      var n := |sigs| - 1;
      PlacesOf(sigs[..n], x);
      assert sigs == sigs[..n] + [sigs[n]];
      if j, k :| 0 <= j < k < n && sigs[..n][j] == x && sigs[..n][k] == x {
        assert sigs[j] == x && sigs[k] == x;
      }
      if sigs[n] == x && x in sigs[..n] {
        var j :| 0 <= j < n && sigs[..n][j] == x;
        assert sigs[j] == x;
      }
    }
  }

  lemma DistinctInAnyOrder(sigs: seq<RawSignature>, other: seq<RawSignature>)
    requires multiset(sigs) == multiset(other) && KeysDistinct(sigs)
    ensures KeysDistinct(other)
  {
    forall a, b | 0 <= a < b < |other| ensures other[a].keyId != other[b].keyId {
      var x, y := other[a], other[b];
      PlacesOf(sigs, x);
      PlacesOf(other, x);
      PlacesOf(sigs, y);
      PlacesOf(other, y);
      var j :| 0 <= j < |sigs| && sigs[j] == x;
      var k :| 0 <= k < |sigs| && sigs[k] == y;
    }
  }

  /** Whether an envelope opens, what comes out and which keys vouch for it does not depend on the signatures' order. */
  lemma OrderDoesNotMatter(
    lib: Library, raw: RawEnvelope, sigs: seq<RawSignature>, kind: EnvelopeKind, keys: TrustedKeySet,
    allowed: set<SignatureAlgorithm>)
    requires multiset(sigs) == multiset(raw.signatures)
    ensures var r, q := OpenRaw(lib, raw, kind, keys, allowed),
                        OpenRaw(lib, raw.(signatures := sigs), kind, keys, allowed);
            && (r.Ok? <==> q.Ok?)
            && (r.Ok? ==> r.value.payload == q.value.payload
                          && forall v :: v in r.value.verifiedBy <==> v in q.value.verifiedBy)
  {
    var other := raw.(signatures := sigs);
    hide OpenRaw;
    OpensIff(lib, raw, kind, keys, allowed);
    OpensIff(lib, other, kind, keys, allowed);
    forall x ensures x in sigs <==> x in raw.signatures {
      PlacesOf(sigs, x);
      PlacesOf(raw.signatures, x);
    }
    assert |sigs| == |multiset(sigs)| == |raw.signatures|;
    if KeysDistinct(sigs) {
      DistinctInAnyOrder(sigs, raw.signatures);
    }
    if KeysDistinct(raw.signatures) {
      DistinctInAnyOrder(raw.signatures, sigs);
    }
    SameSuccess(lib, raw, sigs, kind, keys, allowed);
  }

  lemma SameSuccess(
    lib: Library, raw: RawEnvelope, sigs: seq<RawSignature>, kind: EnvelopeKind, keys: TrustedKeySet,
    allowed: set<SignatureAlgorithm>)
    requires forall x :: x in sigs <==> x in raw.signatures
    requires |sigs| == |raw.signatures| && (KeysDistinct(sigs) <==> KeysDistinct(raw.signatures))
    ensures OpenRaw(lib, raw, kind, keys, allowed).Ok?
            <==> OpenRaw(lib, raw.(signatures := sigs), kind, keys, allowed).Ok?
  {
    hide OpenRaw, Judge.Relevant, Judge.Verifies;
    OpensIff(lib, raw, kind, keys, allowed);
    OpensIff(lib, raw.(signatures := sigs), kind, keys, allowed);
    assert WellShaped(lib, raw, kind) <==> WellShaped(lib, raw.(signatures := sigs), kind);
    forall k | 0 <= k < |sigs| ensures sigs[k] in raw.signatures {
    }
    forall k | 0 <= k < |sigs| ensures raw.signatures[k] in sigs {
    }
  }

  // ---------------------------------------------------------------------------------------------------------------
  // What the answer says
  // ---------------------------------------------------------------------------------------------------------------

  /** The signature names this algorithm. */
  predicate Claims(sig: RawSignature, a: SignatureAlgorithm) {
    sig.signatureAlgorithm == a.Id()
  }

  lemma ClaimsOf(sig: RawSignature)
    ensures forall a :: Claims(sig, a) <==> AlgorithmFromId(sig.signatureAlgorithm) == Some(a)
  {
    forall a ensures Claims(sig, a) <==> AlgorithmFromId(sig.signatureAlgorithm) == Some(a) {
      IdsRoundTrip(sig.signatureAlgorithm, a);
    }
  }

  /** Every key that is said to vouch for a payload is trusted, and has signed it with its own, allowed algorithm. */
  lemma KeysVouch(
    lib: Library, raw: RawEnvelope, kind: EnvelopeKind, keys: TrustedKeySet, allowed: set<SignatureAlgorithm>,
    v: VerifiedSignature)
    requires OpenRaw(lib, raw, kind, keys, allowed).Ok?
    requires v in OpenRaw(lib, raw, kind, keys, allowed).value.verifiedBy
    ensures v.keyId in keys && keys[v.keyId].algorithm == v.algorithm && v.algorithm in allowed
    ensures exists sig :: sig in raw.signatures && sig.keyId == v.keyId && Claims(sig, v.algorithm)
                          && lib.decode(sig.signature).Some?
                          && lib.verify(keys[v.keyId],
                                        Message(kind, OpenRaw(lib, raw, kind, keys, allowed).value.payload),
                                        lib.decode(sig.signature).value)
  {
    hide OpenRaw, Message;
    OpensIff(lib, raw, kind, keys, allowed);
    var payload := OpenRaw(lib, raw, kind, keys, allowed).value.payload;
    var sig :| sig in raw.signatures && AsVerified(sig) == v
               && var j := Judge(lib, keys, allowed, Message(kind, payload)); j.Relevant(sig) && j.Verifies(sig);
    ClaimsOf(sig);
  }

  /** Whose turn it is to be reported: a signature by a trusted key, with an allowed algorithm, that does not verify. */
  predicate IsBad(j: Judge, sigs: seq<RawSignature>, k: nat) {
    && k < |sigs| && sigs[k].keyId in j.keys
    && (exists a :: a in j.allowed && Claims(sigs[k], a))
    && (|| !Claims(sigs[k], j.keys[sigs[k].keyId].algorithm)
        || j.lib.decode(sigs[k].signature).None?
        || !j.lib.verify(j.keys[sigs[k].keyId], j.message, j.lib.decode(sigs[k].signature).value))
  }

  lemma BadIsFatal(j: Judge, sigs: seq<RawSignature>, k: nat)
    requires k < |sigs|
    ensures IsBad(j, sigs, k) <==> j.FateOf(sigs[k]).Fatal?
    ensures IsBad(j, sigs, k) ==>
              j.FateOf(sigs[k]).error
              == if !Claims(sigs[k], j.keys[sigs[k].keyId].algorithm) then
                   Malformed(WrongAlgorithm(j.keys[sigs[k].keyId].id))
                 else if j.lib.decode(sigs[k].signature).None? then Malformed(BadSignatureEncoding)
                 else InvalidSignature(sigs[k].keyId)
  {
    ClaimsOf(sigs[k]);
  }

  /** The signature names an algorithm that is allowed here. */
  predicate ClaimsAllowed(j: Judge, sig: RawSignature) {
    exists a :: a in j.allowed && Claims(sig, a)
  }

  predicate ClaimsKnown(sig: RawSignature) {
    exists a :: Claims(sig, a)
  }

  lemma SkipMeans(j: Judge, sig: RawSignature)
    ensures j.FateOf(sig) == SkipUntrusted <==> ClaimsAllowed(j, sig) && sig.keyId !in j.keys
    ensures j.FateOf(sig) == SkipDisallowed <==> ClaimsKnown(sig) && !ClaimsAllowed(j, sig)
    ensures j.FateOf(sig) == SkipUnsupported <==> !ClaimsKnown(sig)
  {
    ClaimsOf(sig);
  }

  /**
   Why an envelope of the right shape does not open. The first bad signature is reported. If none is bad, there is none
   to go by, and the report names the keys that are not trusted, if any signature has an allowed algorithm; else the
   algorithms that are not allowed, if any is known; else the unknown ones.
   */
  lemma ErrorsTellWhy(j: Judge, payload: Bytes, sigs: seq<RawSignature>)
    requires Verdict(j, payload, sigs).Err?
    ensures var e := Verdict(j, payload, sigs).error;
            && (e.InvalidSignature? || e.Malformed? <==> exists k: nat :: IsBad(j, sigs, k))
            && ((exists k: nat :: IsBad(j, sigs, k)) ==>
                  exists k: nat ::
                    && IsBad(j, sigs, k) && (forall i: nat :: i < k ==> !IsBad(j, sigs, i))
                    && e == if !Claims(sigs[k], j.keys[sigs[k].keyId].algorithm) then
                              Malformed(WrongAlgorithm(j.keys[sigs[k].keyId].id))
                            else if j.lib.decode(sigs[k].signature).None? then Malformed(BadSignatureEncoding)
                            else InvalidSignature(sigs[k].keyId))
            && ((forall k: nat :: !IsBad(j, sigs, k)) ==>
                  if exists sig :: sig in sigs && ClaimsAllowed(j, sig) then
                    e.UntrustedKey? && forall id :: id in e.keyIds <==>
                      exists sig :: sig in sigs && ClaimsAllowed(j, sig) && sig.keyId == id
                  else if exists sig :: sig in sigs && ClaimsKnown(sig) then
                    e.DisallowedAlgorithm? && forall id :: id in e.algorithms <==>
                      exists sig :: sig in sigs && ClaimsKnown(sig) && sig.signatureAlgorithm == id
                  else
                    e.UnsupportedAlgorithm? && forall id :: id in e.algorithms <==>
                      exists sig :: sig in sigs && sig.signatureAlgorithm == id)
  {
    hide Judge.FateOf, IsBad, ClaimsAllowed, ClaimsKnown, Judge.Those, Ids, AlgorithmIds;
    var fatal := j.FirstFatal(sigs, 0);
    forall k: nat | k < |sigs| ensures IsBad(j, sigs, k) <==> j.FateOf(sigs[k]).Fatal? {
      BadIsFatal(j, sigs, k);
    }
    assert forall k: nat :: IsBad(j, sigs, k) ==> k < |sigs| by {
      BadIsInside(j, sigs);
    }
    if fatal < |sigs| {
      BadIsFatal(j, sigs, fatal);
    } else {
      NoneBad(j, payload, sigs);
    }
  }

  lemma BadIsInside(j: Judge, sigs: seq<RawSignature>)
    ensures forall k: nat :: IsBad(j, sigs, k) ==> k < |sigs|
  {
  }

  /** The same, when there is no bad signature. */
  lemma NoneBad(j: Judge, payload: Bytes, sigs: seq<RawSignature>)
    requires Verdict(j, payload, sigs).Err? && j.FirstFatal(sigs, 0) == |sigs|
    ensures var e := Verdict(j, payload, sigs).error;
            if exists sig :: sig in sigs && ClaimsAllowed(j, sig) then
              e.UntrustedKey? && forall id :: id in e.keyIds <==>
                exists sig :: sig in sigs && ClaimsAllowed(j, sig) && sig.keyId == id
            else if exists sig :: sig in sigs && ClaimsKnown(sig) then
              e.DisallowedAlgorithm? && forall id :: id in e.algorithms <==>
                exists sig :: sig in sigs && ClaimsKnown(sig) && sig.signatureAlgorithm == id
            else
              e.UnsupportedAlgorithm? && forall id :: id in e.algorithms <==>
                exists sig :: sig in sigs && sig.signatureAlgorithm == id
  {
    hide Judge.FateOf, ClaimsAllowed, ClaimsKnown, Judge.Those, Ids, AlgorithmIds, AllVerified;
    var untrusted, disallowed := j.Those(sigs, SkipUntrusted), j.Those(sigs, SkipDisallowed);
    var unsupported := j.Those(sigs, SkipUnsupported);
    forall sig
      ensures sig in untrusted <==> sig in sigs && ClaimsAllowed(j, sig)
      ensures sig in disallowed <==> sig in sigs && ClaimsKnown(sig) && !ClaimsAllowed(j, sig)
      ensures sig in unsupported <==> sig in sigs && !ClaimsKnown(sig)
    {
      j.ThoseMeaning(sigs, SkipUntrusted, sig);
      j.ThoseMeaning(sigs, SkipDisallowed, sig);
      j.ThoseMeaning(sigs, SkipUnsupported, sig);
      j.ThoseMeaning(sigs, Good, sig);
      SkipMeans(j, sig);
      FatesOf(j, sig);
      if sig in sigs {
        var k :| 0 <= k < |sigs| && sigs[k] == sig;
        assert !j.FateOf(sigs[k]).Fatal?;
      }
    }
    IdsMean(untrusted);
    IdsMean(disallowed);
    IdsMean(unsupported);
    Found(untrusted);
    Found(disallowed);
  }

  lemma Found(sigs: seq<RawSignature>)
    ensures sigs != [] <==> exists sig :: sig in sigs
  {
    if sigs != [] {
      assert sigs[0] in sigs;
    }
  }

  lemma FatesOf(j: Judge, sig: RawSignature)
    ensures ClaimsAllowed(j, sig) ==> ClaimsKnown(sig)
    ensures ClaimsAllowed(j, sig) && sig.keyId in j.keys ==> j.FateOf(sig).Fatal? || j.FateOf(sig).Good?
  {
    ClaimsOf(sig);
  }

  lemma IdsMean(sigs: seq<RawSignature>)
    ensures forall id :: id in Ids(sigs) <==> exists sig :: sig in sigs && sig.keyId == id
    ensures forall id :: id in AlgorithmIds(sigs) <==> exists sig :: sig in sigs && sig.signatureAlgorithm == id
  {
    forall sig | sig in sigs ensures sig.keyId in Ids(sigs) && sig.signatureAlgorithm in AlgorithmIds(sigs) {
      var k :| 0 <= k < |sigs| && sigs[k] == sig;
      assert Ids(sigs)[k] == sig.keyId && AlgorithmIds(sigs)[k] == sig.signatureAlgorithm;
    }
  }

  /** What is said about a text that is refused before its signatures are looked at; the first reason counts. */
  lemma RefusalsSay(
    lib: Library, text: Bytes, kind: EnvelopeKind, keys: TrustedKeySet, allowed: set<SignatureAlgorithm>)
    ensures var r := Opened(lib, text, kind, keys, allowed);
            if |text| > 65536 then r == Err(Malformed(TooLarge))
            else if lib.parse(text).None? then r == Err(Malformed(NotAnEnvelope))
            else
              var raw := lib.parse(text).value;
              if raw.format != kind.Format() then r == Err(UnsupportedFormat(raw.format))
              else if lib.decode(raw.payload).None? then r == Err(Malformed(BadPayload))
              else if !(1 <= |raw.signatures| <= 8) then r == Err(Malformed(WrongSignatureCount))
              else
                !KeysDistinct(raw.signatures) ==>
                  exists k: nat :: HasDuplicateBefore(raw.signatures, k)
                              && r == Err(Malformed(DuplicateKey(raw.signatures[k].keyId)))
  {
    if lib.parse(text).Some? && !KeysDistinct(lib.parse(text).value.signatures) {
      var sigs := lib.parse(text).value.signatures;
      var a, b :| 0 <= a < b < |sigs| && sigs[a].keyId == sigs[b].keyId;
      assert HasDuplicateBefore(sigs, b);
    }
  }
}
