/**
 The licence commands that change local state (crates/cursdel-cli/src/license_cmd.rs). The server's answer is an
 argument; messages to the user are left out.
 */
module LicenseCommands {
  import opened Wrappers
  import opened Envelope
  import opened Validate
  import opened Resolve
  import opened Store
  import opened Report

  datatype Context = Context(policy: LicensePolicy, deviceId: string, now: Time) {

    function SettingOn(disk: Disk): Setting {
      Setting(policy, LocalState(disk.ActivationCertificates(), disk.RevokedLicenseIds(), deviceId), now)
    }

    function ResolveOn(disk: Disk): Resolution {
      SettingOn(disk).Resolve(disk.Candidates())
    }
  }

  datatype Grant = Grant(license: Bytes, activation: Option<Bytes>)

  datatype ServiceError = NotConfigured | Unavailable | RevokedByServer | Rejected(code: string) | Protocol

  const CODE_ACTIVATION_INACTIVE := "activation_inactive"

  predicate IsInactive(e: ServiceError) {
    e == ServiceError.Rejected(CODE_ACTIVATION_INACTIVE)
  }

  // ---------------------------------------------------------------------------------------------------------------
  // Which licence to renew
  // ---------------------------------------------------------------------------------------------------------------

  /** The readable texts of the candidates, in order. */
  function Texts(cs: seq<Candidate>): seq<Bytes> {
    if |cs| == 0 then []
    else Texts(cs[..|cs| - 1]) + if cs[|cs| - 1].contents.Ok? then [cs[|cs| - 1].contents.value] else []
  }

  function FirstValid(ctx: Context, texts: seq<Bytes>): Option<VerifiedLicense> {
    if |texts| == 0 then None
    else if ctx.policy.VerifyLicense(texts[0], ctx.now).Ok? then Some(ctx.policy.VerifyLicense(texts[0], ctx.now).value)
    else FirstValid(ctx, texts[1..])
  }

  function FirstIdentified(ctx: Context, texts: seq<Bytes>): Option<VerifiedLicense> {
    if |texts| == 0 then None
    else if ctx.policy.VerifyLicenseIdentity(texts[0]).Ok? then
      Some(ctx.policy.VerifyLicenseIdentity(texts[0]).value)
    else FirstIdentified(ctx, texts[1..])
  }

  function Renewable(ctx: Context, disk: Disk, scope: Scope): Option<VerifiedLicense> {
    var texts := Texts(disk.CandidatesIn(scope));
    if FirstValid(ctx, texts).Some? then FirstValid(ctx, texts) else FirstIdentified(ctx, texts)
  }

  lemma {:induction false} FirstIdentifiedFinds(ctx: Context, texts: seq<Bytes>)
    ensures FirstIdentified(ctx, texts).None? <==> forall t :: t in texts ==> ctx.policy.VerifyLicenseIdentity(t).Err?
    ensures FirstValid(ctx, texts).Some? ==>
              exists t :: t in texts && ctx.policy.VerifyLicense(t, ctx.now) == Ok(FirstValid(ctx, texts).value)
    ensures FirstValid(ctx, texts).None? <==> forall t :: t in texts ==> ctx.policy.VerifyLicense(t, ctx.now).Err?
  {
    hide LicensePolicy.VerifyLicense, LicensePolicy.VerifyLicenseIdentity;
    if |texts| > 0 {
      FirstIdentifiedFinds(ctx, texts[1..]);
      assert texts == [texts[0]] + texts[1..];
    }
  }

  lemma {:induction false} TextsAreReadable(cs: seq<Candidate>, t: Bytes)
    ensures t in Texts(cs) <==> exists c :: c in cs && c.contents == Ok(t)
  {
    if |cs| > 0 {
      TextsAreReadable(cs[..|cs| - 1], t);
      assert cs == cs[..|cs| - 1] + [cs[|cs| - 1]];
    }
  }

  /**
   Something can be renewed exactly when some readable licence in the scope is identified as one of ours, expired or
   not; and while one of them is still good, a good one is taken.
   */
  lemma RenewableIff(ctx: Context, disk: Disk, scope: Scope)
    ensures Renewable(ctx, disk, scope).Some?
            <==> exists c :: c in disk.CandidatesIn(scope) && c.contents.Ok?
                             && ctx.policy.VerifyLicenseIdentity(c.contents.value).Ok?
    ensures (exists c :: c in disk.CandidatesIn(scope) && c.contents.Ok?
                         && ctx.policy.VerifyLicense(c.contents.value, ctx.now).Ok?)
            ==> exists c :: c in disk.CandidatesIn(scope) && c.contents.Ok?
                            && ctx.policy.VerifyLicense(c.contents.value, ctx.now)
                               == Ok(Renewable(ctx, disk, scope).value)
  {
    var cs := disk.CandidatesIn(scope);
    var texts := Texts(cs);
    FirstIdentifiedFinds(ctx, texts);
    forall t ensures t in texts <==> exists c :: c in cs && c.contents == Ok(t) {
      TextsAreReadable(cs, t);
    }
    forall t ensures ctx.policy.VerifyLicense(t, ctx.now).Ok? ==> ctx.policy.VerifyLicenseIdentity(t).Ok? {
    }
  }

  /** Candidate k can be read and is good now. */
  predicate VerifiesAt(ctx: Context, cs: seq<Candidate>, k: nat) {
    k < |cs| && cs[k].contents.Ok? && ctx.policy.VerifyLicense(cs[k].contents.value, ctx.now).Ok?
  }

  /** Candidate k can be read and is one of ours, expired or not. */
  predicate IdentifiesAt(ctx: Context, cs: seq<Candidate>, k: nat) {
    k < |cs| && cs[k].contents.Ok? && ctx.policy.VerifyLicenseIdentity(cs[k].contents.value).Ok?
  }

  lemma {:induction false} TextAt(cs: seq<Candidate>, m: nat) returns (k: nat)
    requires m < |Texts(cs)|
    ensures k < |cs| && cs[k].contents == Ok(Texts(cs)[m])
    ensures forall j: nat :: j < k && cs[j].contents.Ok? ==>
              exists i: nat :: i < m && Texts(cs)[i] == cs[j].contents.value
  {
    var n := |cs| - 1;
    if m < |Texts(cs[..n])| {
      k := TextAt(cs[..n], m);
      forall j: nat | j < k && cs[j].contents.Ok?
        ensures exists i: nat :: i < m && Texts(cs)[i] == cs[j].contents.value
      {
        assert cs[..n][j] == cs[j];
        var i: nat :| i < m && Texts(cs[..n])[i] == cs[j].contents.value;
        assert Texts(cs)[i] == cs[j].contents.value;
      }
    } else {
      k := n;
      forall j: nat | j < n && cs[j].contents.Ok?
        ensures exists i: nat :: i < m && Texts(cs)[i] == cs[j].contents.value
      {
        TextsAreReadable(cs[..n], cs[j].contents.value);
        assert cs[..n][j] in cs[..n];
        var i: nat :| i < |Texts(cs[..n])| && Texts(cs[..n])[i] == cs[j].contents.value;
        assert Texts(cs)[i] == cs[j].contents.value;
      }
    }
  }

  lemma {:induction false} FirstAt(ctx: Context, texts: seq<Bytes>)
    returns (v: nat, i: nat)
    ensures FirstValid(ctx, texts).Some? ==>
              && v < |texts| && ctx.policy.VerifyLicense(texts[v], ctx.now) == Ok(FirstValid(ctx, texts).value)
              && forall j :: 0 <= j < v ==> ctx.policy.VerifyLicense(texts[j], ctx.now).Err?
    ensures FirstIdentified(ctx, texts).Some? ==>
              && i < |texts| && ctx.policy.VerifyLicenseIdentity(texts[i]) == Ok(FirstIdentified(ctx, texts).value)
              && forall j :: 0 <= j < i ==> ctx.policy.VerifyLicenseIdentity(texts[j]).Err?
  {
    hide LicensePolicy.VerifyLicense, LicensePolicy.VerifyLicenseIdentity;
    v, i := 0, 0;
    if |texts| > 0 {
      var v', i' := FirstAt(ctx, texts[1..]);
      if ctx.policy.VerifyLicense(texts[0], ctx.now).Err? {
        v := v' + 1;
      }
      if ctx.policy.VerifyLicenseIdentity(texts[0]).Err? {
        i := i' + 1;
      }
    }
  }

  /** What is renewed is the first readable licence that is good now, or if none is, the first that is one of ours. */
  lemma RenewsTheFirst(ctx: Context, disk: Disk, scope: Scope)
    requires Renewable(ctx, disk, scope).Some?
    ensures var cs, r := disk.CandidatesIn(scope), Renewable(ctx, disk, scope).value;
            exists k: nat ::
              || (&& VerifiesAt(ctx, cs, k) && ctx.policy.VerifyLicense(cs[k].contents.value, ctx.now) == Ok(r)
                  && forall j: nat :: j < k ==> !VerifiesAt(ctx, cs, j))
              || (&& IdentifiesAt(ctx, cs, k) && ctx.policy.VerifyLicenseIdentity(cs[k].contents.value) == Ok(r)
                  && (forall j: nat :: j < k ==> !IdentifiesAt(ctx, cs, j))
                  && (forall j: nat :: j < |cs| ==> !VerifiesAt(ctx, cs, j)))
  {
    hide LicensePolicy.VerifyLicense, LicensePolicy.VerifyLicenseIdentity, Texts, FirstValid, FirstIdentified;
    var cs := disk.CandidatesIn(scope);
    var texts := Texts(cs);
    var v, i := FirstAt(ctx, texts);
    if FirstValid(ctx, texts).Some? {
      var k := TextAt(cs, v);
      assert VerifiesAt(ctx, cs, k);
    } else {
      FirstIdentifiedFinds(ctx, texts);
      var k := TextAt(cs, i);
      assert IdentifiesAt(ctx, cs, k);
      forall j: nat | j < |cs| ensures !VerifiesAt(ctx, cs, j) {
        if cs[j].contents.Ok? {
          TextsAreReadable(cs, cs[j].contents.value);
          assert cs[j] in cs;
        }
      }
    }
  }

  // ---------------------------------------------------------------------------------------------------------------
  // What a command may do
  // ---------------------------------------------------------------------------------------------------------------

  /** The text is a licence this build accepts at this time. */
  predicate Accepts(ctx: Context, text: Bytes) {
    ctx.policy.VerifyLicense(text, ctx.now).Ok?
  }

  /** The certificate activates the licence on this device at this time. */
  predicate Activates(ctx: Context, license: Bytes, certificate: Bytes) {
    && Accepts(ctx, license)
    && ctx.policy.VerifyActivation(
         certificate, ctx.policy.VerifyLicense(license, ctx.now).value.claims, ctx.deviceId, ctx.now).Ok?
  }

  /** An installed licence is as it was, or is one that was accepted. */
  predicate LicenseFits(ctx: Context, was: File<Bytes>, now: File<Bytes>) {
    now == was || (now.Holds? && Accepts(ctx, now.value))
  }

  /**
   The licences installed on `d1`, given those on `d0` before the command: each as it was or accepted. Nothing else is
   ever installed.
   */
  predicate LicensesFit(ctx: Context, d0: Disk, d1: Disk) {
    forall scope :: LicenseFits(ctx, d0.LicenseIn(scope), d1.LicenseIn(scope))
  }

  function LicenseIdOf(ctx: Context, text: Bytes): string {
    if Accepts(ctx, text) then ctx.policy.VerifyLicense(text, ctx.now).value.claims.licenseId else ""
  }

  function EditionOf(ctx: Context, text: Bytes): Edition {
    if Accepts(ctx, text) then ctx.policy.VerifyLicense(text, ctx.now).value.claims.edition else Community
  }

  function ActivationIdOf(ctx: Context, license: Bytes, certificate: Bytes): string {
    if Activates(ctx, license, certificate) then
      ctx.policy.VerifyActivation(
        certificate, ctx.policy.VerifyLicense(license, ctx.now).value.claims, ctx.deviceId, ctx.now).value.activationId
    else ""
  }

  /** `d0` with the licence installed and its revocation cleared, unless clearing failed. */
  predicate Installed(ctx: Context, d0: Disk, d1: Disk, scope: Scope, license: Bytes) {
    var d := Changed(d0, scope, SetLicense(license));
    d1 == d || d1 == RevocationCleared(d, scope, LicenseIdOf(ctx, license))
  }

  /** What must be on disk after a successful activation. */
  predicate ActivatedAs(ctx: Context, d0: Disk, d1: Disk, scope: Scope, grant: Grant, secret: string) {
    && d0.DirOf(scope).Some? && Accepts(ctx, grant.license)
    && if EditionOf(ctx, grant.license).RequiresActivation() then
         && grant.activation.Some? && Activates(ctx, grant.license, grant.activation.value)
         && var credentials := Credentials(ActivationIdOf(ctx, grant.license, grant.activation.value), secret);
         Installed(ctx, Activated(d0, scope, grant.activation.value, credentials), d1, scope, grant.license)
       else Installed(ctx, d0, d1, scope, grant.license)
  }

  /** With an accepted licence on disk, not revoked and activated if need be, the edition is at least that licence's. */
  lemma InstalledLicenseCounts(ctx: Context, disk: Disk, scope: Scope, text: Bytes)
    requires disk.LicenseIn(scope) == Holds(text) && Accepts(ctx, text)
    requires LicenseIdOf(ctx, text) !in disk.RevokedLicenseIds()
    requires EditionOf(ctx, text).RequiresActivation() ==>
               exists certificate :: certificate in disk.ActivationCertificates() && Activates(ctx, text, certificate)
    ensures ctx.ResolveOn(disk).Edition().Rank() >= EditionOf(ctx, text).Rank()
  {
    hide LicensePolicy.VerifyLicense, LicensePolicy.VerifyActivation;
    var w := ctx.SettingOn(disk);
    var source := if scope.User? then "user" else "system";
    var c := Candidate(source, Ok(text));
    assert c in FromFile(source, Holds(text));
    assert c in disk.CandidatesIn(scope);
    assert c in disk.Candidates();
    if EditionOf(ctx, text).RequiresActivation() {
      var certificate :| certificate in disk.ActivationCertificates() && Activates(ctx, text, certificate);
      AnyGoodCertificateActivates(w, ctx.policy.VerifyLicense(text, ctx.now).value.claims, certificate);
    }
    assert RankOf(w, c) == EditionOf(ctx, text).Rank();
    EditionIsHighest(w, disk.Candidates());
  }

  /** After a successful activation the granted edition is in effect, if the licence is not listed as revoked. */
  lemma ActivationTakesEffect(ctx: Context, d0: Disk, d1: Disk, scope: Scope, grant: Grant, secret: string)
    requires ActivatedAs(ctx, d0, d1, scope, grant, secret)
    requires LicenseIdOf(ctx, grant.license) !in d1.RevokedLicenseIds()
    ensures ctx.ResolveOn(d1).Edition().Rank() >= EditionOf(ctx, grant.license).Rank()
  {
    hide LicensePolicy.VerifyLicense, LicensePolicy.VerifyActivation;
    if EditionOf(ctx, grant.license).RequiresActivation() {
      var certificate := grant.activation.value;
      assert d1.CertificateIn(scope) == [certificate];
      assert certificate in d1.ActivationCertificates();
    }
    InstalledLicenseCounts(ctx, d1, scope, grant.license);
  }

  // ---------------------------------------------------------------------------------------------------------------
  // The commands
  // ---------------------------------------------------------------------------------------------------------------

  /**
   The history since the method began: complete, safe if the disk was safe, and no licence installed that was not
   accepted.
   */
  twostate predicate Careful(ctx: Context, store: LicenseStore)
    reads store
  {
    && store.SafeSince() && store.Recorded()
    && LicensesFit(ctx, old(store.disk), store.disk)
    && (forall k :: |old(store.history)| <= k < |store.history| ==> LicensesFit(ctx, old(store.disk), store.history[k]))
  }

  method Install(ctx: Context, file: File<Bytes>, scope: Scope, store: LicenseStore) returns (code: ExitCode)
    modifies store
    ensures code == Success ==>
              && file.Holds? && Accepts(ctx, file.value) && old(store.disk).DirOf(scope).Some?
              && store.disk == Changed(old(store.disk), scope, SetLicense(file.value))
    ensures code != Success ==> store.disk == old(store.disk)
    ensures code == CliUsageError <==> !file.Holds?
    ensures code == LicenseRequired <==> file.Holds? && !Accepts(ctx, file.value)
    ensures code == Success <==> file.Holds? && Accepts(ctx, file.value) && !store.Thwarted(scope)
    ensures code in {Success, CliUsageError, LicenseRequired, UnexpectedFatal}
    ensures code != Success ==> store.LicensesKept()
    ensures Careful(ctx, store)
  {
    if !file.Holds? {
      return CliUsageError;
    }
    var verified := ctx.policy.VerifyLicense(file.value, ctx.now);
    if verified.Err? {
      return LicenseRequired;
    }
    var ok := store.WriteLicense(scope, file.value);
    code := if ok then Success else UnexpectedFatal;
  }

  /** The last steps of `activate` and `renew`: install the licence, then clear its revocation if possible. */
  method InstallGranted(ctx: Context, license: Bytes, scope: Scope, store: LicenseStore) returns (ok: bool)
    requires Accepts(ctx, license)
    modifies store
    ensures ok ==> old(store.disk).DirOf(scope).Some? && Installed(ctx, old(store.disk), store.disk, scope, license)
    ensures !ok ==> store.disk == old(store.disk) && store.LicensesKept()
    ensures !ok ==> store.Thwarted(scope)
    ensures ok && !store.OperationFailed() ==> LicenseIdOf(ctx, license) !in store.disk.RevokedIn(scope)
    ensures old(store.operations) <= store.operations <= old(store.operations) + 2
    ensures Careful(ctx, store)
  {
    ok := store.WriteLicense(scope, license);
    if ok {
      var cleared := store.ClearRevocation(scope, LicenseIdOf(ctx, license));
    }
  }

  /** `d0` after some first part of writing an activation. */
  predicate PartlyActivated(d0: Disk, d1: Disk, scope: Scope, certificate: Bytes, credentials: Credentials) {
    d1 == d0 || d1 == Changed(d0, scope, SetCredentials(credentials))
    || d1 == Activated(d0, scope, certificate, credentials)
  }

  /** The server's answer gives nothing that this build could use. */
  predicate ActivationRefused(ctx: Context, reply: Result<Grant, ServiceError>) {
    || reply.Err?
    || !Accepts(ctx, reply.value.license)
    || (EditionOf(ctx, reply.value.license).RequiresActivation()
        && (reply.value.activation.None? || !Activates(ctx, reply.value.license, reply.value.activation.value)))
  }

  method Activate(ctx: Context, reply: Result<Grant, ServiceError>, secret: string, scope: Scope, store: LicenseStore)
    returns (code: ExitCode)
    modifies store
    ensures code in {Success, LicenseRequired, UnexpectedFatal}
    ensures code == LicenseRequired <==> ActivationRefused(ctx, reply)
    ensures code == UnexpectedFatal ==>
              && store.Thwarted(scope)
              && (store.disk == old(store.disk)
                  || (reply.value.activation.Some?
                      && var certificate := reply.value.activation.value;
                      PartlyActivated(old(store.disk), store.disk, scope, certificate,
                                      Credentials(ActivationIdOf(ctx, reply.value.license, certificate), secret))))
    ensures code == Success && !store.OperationFailed() ==>
              LicenseIdOf(ctx, reply.value.license) !in store.disk.RevokedIn(scope)
    ensures code == Success ==> reply.Ok? && ActivatedAs(ctx, old(store.disk), store.disk, scope, reply.value, secret)
    ensures code == Success && LicenseIdOf(ctx, reply.value.license) !in store.disk.RevokedLicenseIds() ==>
              ctx.ResolveOn(store.disk).Edition().Rank() >= EditionOf(ctx, reply.value.license).Rank()
    ensures code == LicenseRequired ==> store.disk == old(store.disk)
    ensures code != Success ==> store.LicensesKept()
    ensures Careful(ctx, store)
  {
    hide LicensePolicy.VerifyLicense, LicensePolicy.VerifyActivation;
    if reply.Err? {
      return LicenseRequired;
    }
    var grant := reply.value;
    var license := ctx.policy.VerifyLicense(grant.license, ctx.now);
    if license.Err? {
      return LicenseRequired;
    }
    if license.value.claims.edition.RequiresActivation() {
      if grant.activation.None? {
        return LicenseRequired;
      }
      var certificate := grant.activation.value;
      var claims := ctx.policy.VerifyActivation(certificate, license.value.claims, ctx.deviceId, ctx.now);
      if claims.Err? {
        return LicenseRequired;
      }
      var credentials := Credentials(claims.value.activationId, secret);
      var written := store.WriteActivation(scope, certificate, credentials);
      if !written {
        return UnexpectedFatal;
      }
    }
    var ok := InstallGranted(ctx, grant.license, scope, store);
    if !ok {
      return UnexpectedFatal;
    }
    if LicenseIdOf(ctx, grant.license) !in store.disk.RevokedLicenseIds() {
      ActivationTakesEffect(ctx, old(store.disk), store.disk, scope, grant, secret);
    }
    return Success;
  }

  method Deactivate(ctx: Context, reply: Result<(), ServiceError>, scope: Scope, store: LicenseStore)
    returns (code: ExitCode)
    modifies store
    ensures var found := old(store.disk).ReadCredentials(scope);
            && (found == Some(None) ==> code == Success && store.disk == old(store.disk))
            && (found.None? ==> code == UnexpectedFatal && store.disk == old(store.disk))
            && (found.Some? && found.value.Some? ==>
                  var released := reply.Ok? || IsInactive(reply.error) || reply.error.RevokedByServer?;
                  && (code == Success ==> released && store.disk == Deactivated(old(store.disk), scope))
                  && (code == LicenseRequired <==> !released)
                  && (code == LicenseRequired ==> store.disk == old(store.disk))
                  && (code == Success <==> released && !store.OperationFailed())
                  && (code == UnexpectedFatal ==>
                        store.disk == old(store.disk)
                        || store.disk == Changed(old(store.disk), scope, DropActivation))
                  && code in {Success, LicenseRequired, UnexpectedFatal})
    ensures store.LicensesKept() && Careful(ctx, store)
  {
    var found := store.disk.ReadCredentials(scope);
    if found.None? {
      return UnexpectedFatal;
    }
    if found.value.None? {
      return Success;
    }
    if reply.Err? && !IsInactive(reply.error) && !reply.error.RevokedByServer? {
      return LicenseRequired;
    }
    var ok := store.RemoveActivation(scope);
    code := if ok then Success else UnexpectedFatal;
  }

  /** The credentials a renewal works with. */
  function RenewalCredentials(ctx: Context, disk: Disk, scope: Scope): Option<Credentials> {
    var current := Renewable(ctx, disk, scope);
    if current.Some? && current.value.claims.edition.RequiresActivation() && disk.ReadCredentials(scope).Some? then
      disk.ReadCredentials(scope).value
    else None
  }

  /** A renewal has credentials to work with exactly if a Business licence is renewed and they are on disk. */
  lemma RenewalCredentialsIff(ctx: Context, disk: Disk, scope: Scope, credentials: Credentials)
    ensures RenewalCredentials(ctx, disk, scope) == Some(credentials)
            <==> && Renewable(ctx, disk, scope).Some?
                 && Renewable(ctx, disk, scope).value.claims.edition == Business
                 && disk.DirOf(scope).Some? && disk.DirOf(scope).value.credentials == Holds(credentials)
  {
    hide Renewable;
  }

  /** What must be on disk after a successful renewal. */
  predicate RenewedAs(ctx: Context, d0: Disk, d1: Disk, scope: Scope, grant: Grant) {
    && d0.DirOf(scope).Some? && Accepts(ctx, grant.license)
    && var credentials := RenewalCredentials(ctx, d0, scope);
    if grant.activation.Some? && credentials.Some? then
      && Activates(ctx, grant.license, grant.activation.value)
      && var renewed :=
           Credentials(ActivationIdOf(ctx, grant.license, grant.activation.value), credentials.value.clientSecret);
      Installed(ctx, Activated(d0, scope, grant.activation.value, renewed), d1, scope, grant.license)
    else Installed(ctx, d0, d1, scope, grant.license)
  }

  /** There is nothing to renew, or the server's answer gives nothing to act upon. */
  predicate RenewalRefused(ctx: Context, disk: Disk, scope: Scope, reply: Result<Grant, ServiceError>) {
    || Renewable(ctx, disk, scope).None?
    || (reply.Err? && !reply.error.RevokedByServer? && !IsInactive(reply.error))
    || (reply.Ok?
        && (|| !Accepts(ctx, reply.value.license)
            || (reply.value.activation.Some? && RenewalCredentials(ctx, disk, scope).Some?
                && !Activates(ctx, reply.value.license, reply.value.activation.value))))
  }

  method Renew(ctx: Context, reply: Result<Grant, ServiceError>, scope: Scope, store: LicenseStore)
    returns (code: ExitCode)
    modifies store
    ensures code in {Success, LicenseRequired, UnexpectedFatal}
    ensures code == UnexpectedFatal ==>
              && store.Thwarted(scope)
              && (|| store.disk == old(store.disk)
                  || (reply.Err? && IsInactive(reply.error)
                      && store.disk == Changed(old(store.disk), scope, DropActivation))
                  || (reply.Ok? && reply.value.activation.Some?
                      && var certificate, was := reply.value.activation.value,
                                                 RenewalCredentials(ctx, old(store.disk), scope);
                      was.Some?
                      && PartlyActivated(old(store.disk), store.disk, scope, certificate,
                                         Credentials(ActivationIdOf(ctx, reply.value.license, certificate),
                                                     was.value.clientSecret))))
    ensures RenewalRefused(ctx, old(store.disk), scope, reply) ==>
              code == LicenseRequired && store.disk == old(store.disk)
    ensures !RenewalRefused(ctx, old(store.disk), scope, reply) ==>
              && (reply.Ok? ==> code != LicenseRequired)
              && (reply.Err? ==> code != Success)
              && (reply.Err? && reply.error.RevokedByServer? && code == LicenseRequired ==>
                    var id := Renewable(ctx, old(store.disk), scope).value.claims.licenseId;
                    && store.disk == RevocationRecorded(old(store.disk), scope, id)
                    && id in store.disk.RevokedLicenseIds())
              && (reply.Err? && IsInactive(reply.error) && code == LicenseRequired ==>
                    store.disk == Deactivated(old(store.disk), scope))
    ensures code == Success ==> reply.Ok? && RenewedAs(ctx, old(store.disk), store.disk, scope, reply.value)
    ensures code == Success && !store.OperationFailed() ==>
              LicenseIdOf(ctx, reply.value.license) !in store.disk.RevokedIn(scope)
    ensures code != Success ==> store.LicensesKept()
    ensures Careful(ctx, store)
  {
    hide LicensePolicy.VerifyLicense, LicensePolicy.VerifyActivation, Renewable;
    var current := Renewable(ctx, store.disk, scope);
    if current.None? {
      return LicenseRequired;
    }
    var credentials := RenewalCredentials(ctx, store.disk, scope);
    if reply.Err? {
      if reply.error.RevokedByServer? {
        var recorded := store.RecordRevocation(scope, current.value.claims.licenseId);
        return if recorded then LicenseRequired else UnexpectedFatal;
      }
      if IsInactive(reply.error) {
        var removed := store.RemoveActivation(scope);
        return if removed then LicenseRequired else UnexpectedFatal;
      }
      return LicenseRequired;
    }
    var grant := reply.value;
    var renewed := ctx.policy.VerifyLicense(grant.license, ctx.now);
    if renewed.Err? {
      return LicenseRequired;
    }
    if grant.activation.Some? && credentials.Some? {
      var certificate := grant.activation.value;
      var claims := ctx.policy.VerifyActivation(certificate, renewed.value.claims, ctx.deviceId, ctx.now);
      if claims.Err? {
        return LicenseRequired;
      }
      var updated := Credentials(claims.value.activationId, credentials.value.clientSecret);
      var written := store.WriteActivation(scope, certificate, updated);
      if !written {
        return UnexpectedFatal;
      }
    }
    var ok := InstallGranted(ctx, grant.license, scope, store);
    code := if ok then Success else UnexpectedFatal;
  }

  // ---------------------------------------------------------------------------------------------------------------
  // Runs of commands
  // ---------------------------------------------------------------------------------------------------------------

  datatype Command =
    | InstallFile(file: File<Bytes>)
    | ActivateKey(reply: Result<Grant, ServiceError>, secret: string)
    | DeactivateDevice(released: Result<(), ServiceError>)
    | RenewLicense(reply: Result<Grant, ServiceError>)

  /** A command, where it acts, and when and on which device it is given. */
  datatype Invocation = Invocation(command: Command, scope: Scope, deviceId: string, now: Time)

  /** Each installed licence is the one that was there at first, or one that this build will always recognise. */
  predicate LicensesKnown(policy: LicensePolicy, d0: Disk, d1: Disk) {
    forall scope ::
      d1.LicenseIn(scope) == d0.LicenseIn(scope)
      || (d1.LicenseIn(scope).Holds? && policy.VerifyLicenseIdentity(d1.LicenseIn(scope).value).Ok?)
  }

  lemma FitIsKnown(ctx: Context, d0: Disk, d1: Disk, d2: Disk)
    requires LicensesKnown(ctx.policy, d0, d1) && LicensesFit(ctx, d1, d2)
    ensures LicensesKnown(ctx.policy, d0, d2)
  {
    hide LicensePolicy.VerifyLicense, LicensePolicy.VerifyLicenseIdentity;
    forall scope
      ensures d2.LicenseIn(scope) == d0.LicenseIn(scope)
              || (d2.LicenseIn(scope).Holds? && ctx.policy.VerifyLicenseIdentity(d2.LicenseIn(scope).value).Ok?)
    {
      assert LicenseFits(ctx, d1.LicenseIn(scope), d2.LicenseIn(scope));
      if d2.LicenseIn(scope).Holds? && Accepts(ctx, d2.LicenseIn(scope).value) {
        ctx.policy.VerifiedForEver(d2.LicenseIn(scope).value, ctx.now, ctx.now);
      }
    }
  }

  predicate SameLicenses(d0: Disk, d1: Disk) {
    forall scope :: d1.LicenseIn(scope) == d0.LicenseIn(scope)
  }

  /** One command of a run: the disk it found, the disks its file operations left, and how it ended. */
  datatype Episode = Episode(invocation: Invocation, before: Disk, moments: seq<Disk>, code: ExitCode) {
    function After(): Disk {
      if |moments| > 0 then moments[|moments| - 1] else before
    }
  }

  /**
   Without Success no licence changes, not even for a moment, and a licence that is new is accepted when and where the
   command is given.
   */
  ghost predicate EpisodeFits(policy: LicensePolicy, e: Episode) {
    && (forall k :: 0 <= k < |e.moments| ==>
          LicensesFit(Context(policy, e.invocation.deviceId, e.invocation.now), e.before, e.moments[k]))
    && (e.code != Success ==> forall k :: 0 <= k < |e.moments| ==> SameLicenses(e.before, e.moments[k]))
  }

  /** The disk after some commands. */
  function DiskAfter(first: Disk, run: seq<Episode>): Disk {
    if |run| == 0 then first else run[|run| - 1].After()
  }

  function MomentsOf(run: seq<Episode>): seq<Disk> {
    if |run| == 0 then [] else MomentsOf(run[..|run| - 1]) + run[|run| - 1].moments
  }

  /** Each command does what it may, to the disk that the one before it left. */
  ghost predicate RunFits(policy: LicensePolicy, first: Disk, run: seq<Episode>) {
    forall i: nat :: i < |run| ==> EpisodeFits(policy, run[i]) && run[i].before == DiskAfter(first, run[..i])
  }

  lemma {:induction false} NothingRunYet(policy: LicensePolicy, first: Disk)
    ensures RunFits(policy, first, []) && DiskAfter(first, []) == first && MomentsOf([]) == []
  {
  }

  lemma {:induction false} OneMoreFits(policy: LicensePolicy, first: Disk, run: seq<Episode>, e: Episode)
    requires RunFits(policy, first, run) && EpisodeFits(policy, e) && e.before == DiskAfter(first, run)
    ensures RunFits(policy, first, run + [e]) && DiskAfter(first, run + [e]) == e.After()
    ensures MomentsOf(run + [e]) == MomentsOf(run) + e.moments
  {
    assert (run + [e])[..|run|] == run;
    forall i: nat | i < |run + [e]|
      ensures EpisodeFits(policy, (run + [e])[i]) && (run + [e])[i].before == DiskAfter(first, (run + [e])[..i])
    {
      if i < |run| {
        assert (run + [e])[..i] == run[..i];
      }
    }
  }

  /** What a command has done, as an episode. */
  lemma {:induction false} EpisodeDone(
    policy: LicensePolicy, i: Invocation, code: ExitCode, d0: Disk, d1: Disk, h0: seq<Disk>, h1: seq<Disk>)
    requires h0 <= h1 && d1 == if |h1| > |h0| then h1[|h1| - 1] else d0
    requires forall k :: |h0| <= k < |h1| ==> LicensesFit(Context(policy, i.deviceId, i.now), d0, h1[k])
    requires code != Success ==>
               forall k, scope :: |h0| <= k < |h1| ==> h1[k].LicenseIn(scope) == d0.LicenseIn(scope)
    ensures var e := Episode(i, d0, h1[|h0|..], code);
            h1 == h0 + e.moments && EpisodeFits(policy, e) && d1 == e.After()
  {
    hide LicensesFit;
  }

  method RunOne(policy: LicensePolicy, i: Invocation, store: LicenseStore) returns (code: ExitCode)
    modifies store
    ensures Careful(Context(policy, i.deviceId, i.now), store)
    ensures code != Success ==> store.LicensesKept()
    ensures var e := Episode(i, old(store.disk), store.history[|old(store.history)|..], code);
            && old(store.history) <= store.history && store.history == old(store.history) + e.moments
            && EpisodeFits(policy, e) && store.disk == e.After()
  {
    hide LicensesFit, EpisodeFits, Episode.After, PartlyActivated, ActivatedAs, RenewedAs, ActivationRefused,
         RenewalRefused, RevocationRecorded, Deactivated, Changed, Accepts, EditionOf, LicenseIdOf, ActivationIdOf,
         Renewable, RenewalCredentials, IsInactive, Disk.ReadCredentials, Disk.RevokedIn, Disk.RevokedLicenseIds,
         Disk.DirOf, Context.ResolveOn;
    var ctx := Context(policy, i.deviceId, i.now);
    match i.command {
      case InstallFile(file) => code := Install(ctx, file, i.scope, store);
      case ActivateKey(reply, secret) => code := Activate(ctx, reply, secret, i.scope, store);
      case DeactivateDevice(released) => code := Deactivate(ctx, released, i.scope, store);
      case RenewLicense(reply) => code := Renew(ctx, reply, i.scope, store);
    }
    EpisodeDone(policy, i, code, old(store.disk), store.disk, old(store.history), store.history);
  }

  /**
   Over any run of commands, with any answers from the server and any file operation failing, and stopped after any
   file operation: a certificate is never without its credentials if it was not at first, and a licence that is
   installed is the first one or one that this build recognises for ever after. Licences change only during commands
   that end with Success, and only to ones accepted at that time.
   */
  method Run(policy: LicensePolicy, invocations: seq<Invocation>, store: LicenseStore)
    returns (codes: seq<ExitCode>, ghost run: seq<Episode>)
    requires store.disk.CrashSafe()
    modifies store
    ensures |codes| == |invocations| && old(store.history) <= store.history
    ensures store.disk.CrashSafe() && LicensesKnown(policy, old(store.disk), store.disk)
    ensures forall k :: |old(store.history)| <= k < |store.history| ==>
              store.history[k].CrashSafe() && LicensesKnown(policy, old(store.disk), store.history[k])
    ensures RunFits(policy, old(store.disk), run)
    ensures |run| == |codes| && forall i :: 0 <= i < |run| ==>
              run[i].invocation == invocations[i] && run[i].code == codes[i]
    ensures store.history == old(store.history) + MomentsOf(run) && store.disk == DiskAfter(old(store.disk), run)
  {
    hide RunFits, EpisodeFits, MomentsOf, DiskAfter;
    codes, run := [], [];
    ghost var first := store.disk;
    NothingRunYet(policy, first);
    for i := 0 to |invocations|
      invariant |codes| == i && old(store.history) <= store.history
      invariant store.disk.CrashSafe() && LicensesKnown(policy, first, store.disk)
      invariant forall k :: |old(store.history)| <= k < |store.history| ==>
                  store.history[k].CrashSafe() && LicensesKnown(policy, first, store.history[k])
      invariant RunFits(policy, first, run)
      invariant |run| == i && forall j :: 0 <= j < i ==>
                  run[j].invocation == invocations[j] && run[j].code == codes[j]
      invariant store.history == old(store.history) + MomentsOf(run) && store.disk == DiskAfter(first, run)
    {
      ghost var ctx := Context(policy, invocations[i].deviceId, invocations[i].now);
      ghost var disk, history := store.disk, store.history;
      var code := RunOne(policy, invocations[i], store);
      FitIsKnown(ctx, first, disk, store.disk);
      forall k | |history| <= k < |store.history| ensures LicensesKnown(policy, first, store.history[k]) {
        FitIsKnown(ctx, first, disk, store.history[k]);
      }
      ghost var e := Episode(invocations[i], disk, store.history[|history|..], code);
      OneMoreFits(policy, first, run, e);
      codes, run := codes + [code], run + [e];
    }
  }
}
