/**
 Offline licence validation (crates/cursdel-license/src/validate.rs). Reading claims from a payload is a function the
 model knows nothing about; times are instants on one clock.
 */
module Validate {
  import opened Wrappers
  import opened Envelope

  type Time = int

  /** Declaration order is precedence. */
  datatype Edition = Community | Education | Business | Enterprise {
    function Rank(): nat {
      match this
      case Community => 0
      case Education => 1
      case Business => 2
      case Enterprise => 3
    }

    predicate RequiresActivation() {
      Business?
    }
  }

  datatype Term = Perpetual | Subscription(expiresAt: Time)

  datatype LicenseClaims = LicenseClaims(
    licenseId: string, productId: string, majorVersion: nat, edition: Edition, term: Term)

  datatype ActivationClaims = ActivationClaims(
    activationId: string, licenseId: string, productId: string, majorVersion: nat, deviceId: string,
    issuedAt: Time, expiresAt: Option<Time>)

  datatype ClaimsError = UnsupportedSchema(version: nat) | BadClaims

  datatype Rejection =
    | Unreadable
    | BadEnvelope(envelopeError: EnvelopeError)
    | BadPayload(claimsError: ClaimsError)
    | WrongProduct(expected: string, found: string)
    | WrongMajorVersion(expectedMajor: nat, foundMajor: nat)
    | Expired(at: Time)
    | Revoked
    | ActivationRequired
    | ActivationInvalid(why: ActivationDefect)

  datatype ActivationDefect =
    | CertificateRejected(reason: Rejection) | OtherLicense(other: string) | OtherDevice
    | CertificateExpired(when: Time) | NotRefreshed

  datatype VerifiedLicense = VerifiedLicense(claims: LicenseClaims, signedBy: seq<VerifiedSignature>)

  function ToAsciiLowercase(ch: char): char {
    if 'A' <= ch <= 'Z' then ch - 'A' + 'a' else ch
  }

  predicate EqIgnoreAsciiCase(s: string, t: string) {
    |s| == |t| && forall k :: 0 <= k < |s| ==> ToAsciiLowercase(s[k]) == ToAsciiLowercase(t[k])
  }

  /** The same character, or the same letter in the other case. */
  predicate SameButForCase(a: char, b: char) {
    || a == b
    || ('a' <= a <= 'z' && 'A' <= b <= 'Z' && a as int - 'a' as int == b as int - 'A' as int)
    || ('A' <= a <= 'Z' && 'a' <= b <= 'z' && a as int - 'A' as int == b as int - 'a' as int)
  }

  lemma SameInAnyCase(s: string, t: string)
    ensures EqIgnoreAsciiCase(s, t)
            <==> |s| == |t| && forall k :: 0 <= k < |t| ==> SameButForCase(s[k], t[k])
  {
    forall a: char, b: char ensures ToAsciiLowercase(a) == ToAsciiLowercase(b) <==> SameButForCase(a, b) {
    }
  }

  /** Everything one application build validates licences with. */
  datatype LicensePolicy = LicensePolicy(
    lib: Library,
    parseLicense: Bytes -> Result<LicenseClaims, ClaimsError>,
    parseActivation: Bytes -> Result<ActivationClaims, ClaimsError>,
    productId: string,
    majorVersion: nat,
    trustedKeys: TrustedKeySet,
    allowedAlgorithms: set<SignatureAlgorithm>,
    businessOfflineLimit: Option<nat>)
  {
    function CheckIdentity(product: string, major: nat): Result<(), Rejection> {
      if product != productId then Err(WrongProduct(productId, product))
      else if major != majorVersion then Err(WrongMajorVersion(majorVersion, major))
      else Ok(())
    }

    function VerifyLicenseIdentity(text: Bytes): Result<VerifiedLicense, Rejection> {
      match Opened(lib, text, EnvelopeKind.License, trustedKeys, allowedAlgorithms)
      case Err(e) => Err(BadEnvelope(e))
      case Ok(envelope) =>
        match parseLicense(envelope.payload)
        case Err(e) => Err(Rejection.BadPayload(e))
        case Ok(claims) =>
          match CheckIdentity(claims.productId, claims.majorVersion)
          case Err(e) => Err(e)
          case Ok(_) => Ok(VerifiedLicense(claims, envelope.verifiedBy))
    }

    function VerifyLicense(text: Bytes, now: Time): Result<VerifiedLicense, Rejection> {
      match VerifyLicenseIdentity(text)
      case Err(e) => Err(e)
      case Ok(verified) =>
        if verified.claims.term.Subscription? && now >= verified.claims.term.expiresAt then
          Err(Expired(verified.claims.term.expiresAt))
        else Ok(verified)
    }

    function VerifyActivation(text: Bytes, license: LicenseClaims, deviceId: string, now: Time)
      : Result<ActivationClaims, Rejection>
    {
      match Opened(lib, text, EnvelopeKind.Activation, trustedKeys, allowedAlgorithms)
      case Err(e) => Err(ActivationInvalid(CertificateRejected(BadEnvelope(e))))
      case Ok(envelope) =>
        match parseActivation(envelope.payload)
        case Err(e) => Err(ActivationInvalid(CertificateRejected(Rejection.BadPayload(e))))
        case Ok(cert) =>
          match CheckIdentity(cert.productId, cert.majorVersion)
          case Err(e) => Err(ActivationInvalid(CertificateRejected(e)))
          case Ok(_) =>
            if cert.licenseId != license.licenseId then Err(ActivationInvalid(OtherLicense(cert.licenseId)))
            else if !EqIgnoreAsciiCase(cert.deviceId, deviceId) then Err(ActivationInvalid(OtherDevice))
            else if cert.expiresAt.Some? && now >= cert.expiresAt.value then
              Err(ActivationInvalid(CertificateExpired(cert.expiresAt.value)))
            else if businessOfflineLimit.Some? && now >= cert.issuedAt + businessOfflineLimit.value then
              Err(ActivationInvalid(NotRefreshed))
            else Ok(cert)
    }

    /** A text is a licence of ours exactly when it opens as one, says what a licence says, and is for this build. */
    lemma IdentifiedIff(text: Bytes)
      ensures var envelope, r := Opened(lib, text, EnvelopeKind.License, trustedKeys, allowedAlgorithms),
                               VerifyLicenseIdentity(text);
              && (r.Ok? <==>
                    && envelope.Ok? && parseLicense(envelope.value.payload).Ok?
                    && var claims := parseLicense(envelope.value.payload).value;
                    claims.productId == productId && claims.majorVersion == majorVersion)
              && (r.Ok? ==>
                    parseLicense(envelope.value.payload) == Ok(r.value.claims)
                    && r.value.signedBy == envelope.value.verifiedBy)
    {
    }

    /** It is good at this time exactly when, in addition, its term has not run out; an expired one is said to be so. */
    lemma VerifiedIff(text: Bytes, now: Time)
      ensures var identity, r := VerifyLicenseIdentity(text), VerifyLicense(text, now);
              && (r.Ok? <==> identity.Ok? && (identity.value.claims.term.Subscription? ==>
                                                now < identity.value.claims.term.expiresAt))
              && (r.Ok? ==> r == identity)
              && (identity.Ok? && r.Err? ==> r.error == Expired(identity.value.claims.term.expiresAt))
              && (identity.Err? ==> r.Err? && r.error == identity.error)
    {
    }

    /**
     A certificate activates a licence exactly when it opens as a certificate, is for this build, this licence and this
     device, and has neither expired nor gone without a refresh for too long.
     */
    lemma ActivatesIff(text: Bytes, license: LicenseClaims, deviceId: string, now: Time)
      ensures var envelope, r := Opened(lib, text, EnvelopeKind.Activation, trustedKeys, allowedAlgorithms),
                               VerifyActivation(text, license, deviceId, now);
              && (r.Ok? <==>
                    && envelope.Ok? && parseActivation(envelope.value.payload).Ok?
                    && var cert := parseActivation(envelope.value.payload).value;
                    && cert.productId == productId && cert.majorVersion == majorVersion
                    && cert.licenseId == license.licenseId
                    && |cert.deviceId| == |deviceId|
                    && (forall k :: 0 <= k < |deviceId| ==> SameButForCase(cert.deviceId[k], deviceId[k]))
                    && (cert.expiresAt.Some? ==> now < cert.expiresAt.value)
                    && (businessOfflineLimit.Some? ==> now - cert.issuedAt < businessOfflineLimit.value))
              && (r.Ok? ==> parseActivation(envelope.value.payload) == Ok(r.value))
              && (r.Err? ==> r.error.ActivationInvalid?)
    {
      var envelope := Opened(lib, text, EnvelopeKind.Activation, trustedKeys, allowedAlgorithms);
      if envelope.Ok? && parseActivation(envelope.value.payload).Ok? {
        SameInAnyCase(parseActivation(envelope.value.payload).value.deviceId, deviceId);
      }
    }

    /** A licence once verified is identified for ever after, as the same licence, and was good at all earlier times. */
    lemma VerifiedForEver(text: Bytes, now: Time, before: Time)
      requires VerifyLicense(text, now).Ok? && before <= now
      ensures VerifyLicenseIdentity(text) == VerifyLicense(text, now)
      ensures VerifyLicense(text, before) == VerifyLicense(text, now)
    {
    }

    /**
     Features need a signature over the claims that are used: whatever is accepted, as a licence or as a certificate,
     some trusted key with an allowed algorithm signed for this very purpose, for this product and version.
     */
    lemma NothingUnsignedIsAccepted(text: Bytes, license: LicenseClaims, deviceId: string, now: Time)
      ensures VerifyLicenseIdentity(text).Ok? ==>
                SignedFor(text, EnvelopeKind.License)
                && parseLicense(SignedPayload(text)) == Ok(VerifyLicenseIdentity(text).value.claims)
                && VerifyLicenseIdentity(text).value.claims.productId == productId
                && VerifyLicenseIdentity(text).value.claims.majorVersion == majorVersion
      ensures VerifyActivation(text, license, deviceId, now).Ok? ==>
                SignedFor(text, EnvelopeKind.Activation)
                && parseActivation(SignedPayload(text)) == Ok(VerifyActivation(text, license, deviceId, now).value)
      ensures !(VerifyLicenseIdentity(text).Ok? && VerifyActivation(text, license, deviceId, now).Ok?)
    {
      hide Opened, SignedFor, SignedPayload;
      if VerifyLicenseIdentity(text).Ok? {
        OpenedIsSigned(text, EnvelopeKind.License);
      }
      if VerifyActivation(text, license, deviceId, now).Ok? {
        OpenedIsSigned(text, EnvelopeKind.Activation);
      }
      assert EnvelopeKind.License.Format()[7] == 'l' && EnvelopeKind.Activation.Format()[7] == 'a';
    }

    lemma OpenedIsSigned(text: Bytes, kind: EnvelopeKind)
      requires Opened(lib, text, kind, trustedKeys, allowedAlgorithms).Ok?
      ensures SignedFor(text, kind) && lib.parse(text).value.format == kind.Format()
      ensures Opened(lib, text, kind, trustedKeys, allowedAlgorithms).value.payload == SignedPayload(text)
    {
      var raw := lib.parse(text).value;
      OpensIff(lib, raw, kind, trustedKeys, allowedAlgorithms);
      var j := Judge(lib, trustedKeys, allowedAlgorithms, Message(kind, SignedPayload(text)));
      var k :| 0 <= k < |raw.signatures| && j.Relevant(raw.signatures[k]) && j.Verifies(raw.signatures[k]);
      assert raw.signatures[k] in raw.signatures;
    }

    function SignedPayload(text: Bytes): Bytes {
      if lib.parse(text).Some? && lib.decode(lib.parse(text).value.payload).Some? then
        lib.decode(lib.parse(text).value.payload).value
      else []
    }

    /** Some trusted key has signed the text's payload for this purpose, with the algorithm the key is for. */
    predicate SignedFor(text: Bytes, kind: EnvelopeKind) {
      && lib.parse(text).Some?
      && exists sig :: sig in lib.parse(text).value.signatures
                       && var j := Judge(lib, trustedKeys, allowedAlgorithms, Message(kind, SignedPayload(text)));
                       j.Relevant(sig) && j.Verifies(sig)
    }
  }
}
