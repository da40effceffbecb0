/** The effective licence among all candidates (crates/cursdel-license/src/resolve.rs). */
module Resolve {
  import opened Wrappers
  import opened Envelope
  import opened Validate

  datatype Candidate = Candidate(source: string, contents: Result<Bytes, string>)

  datatype ActiveLicense = ActiveLicense(
    source: string, license: VerifiedLicense, activation: Option<ActivationClaims>)
  {
    function Edition(): Edition {
      license.claims.edition
    }
  }

  datatype RejectedCandidate = RejectedCandidate(source: string, reason: Rejection)

  datatype Resolution = Resolution(active: Option<ActiveLicense>, rejected: seq<RejectedCandidate>) {
    function Edition(): Edition {
      if active.Some? then active.value.Edition() else Community
    }
  }

  datatype LocalState = LocalState(certificates: seq<Bytes>, revokedLicenseIds: seq<string>, deviceId: string)

  /** Everything a candidate is judged by. */
  datatype Setting = Setting(policy: LicensePolicy, local: LocalState, now: Time) {

    function VerifyWith(license: LicenseClaims, certificate: Bytes): Result<ActivationClaims, Rejection> {
      policy.VerifyActivation(certificate, license, local.deviceId, now)
    }

    /** Position of the first certificate that activates the licence, or the number of certificates. */
    function FirstGood(license: LicenseClaims, from: nat): (k: nat)
      requires from <= |local.certificates|
      ensures from <= k <= |local.certificates|
      ensures k < |local.certificates| ==> VerifyWith(license, local.certificates[k]).Ok?
      ensures forall j :: from <= j < k ==> VerifyWith(license, local.certificates[j]).Err?
      decreases |local.certificates| - from
    {
      if from == |local.certificates| || VerifyWith(license, local.certificates[from]).Ok? then from
      else FirstGood(license, from + 1)
    }

    function Activate(license: LicenseClaims): Result<ActivationClaims, Rejection> {
      var k := FirstGood(license, 0);
      if k < |local.certificates| then VerifyWith(license, local.certificates[k])
      else if |local.certificates| == 0 then Err(ActivationRequired)
      else VerifyWith(license, local.certificates[0])
    }

    /** What becomes of one candidate. */
    function Outcome(c: Candidate): Result<ActiveLicense, Rejection> {
      match c.contents
      case Err(_) => Err(Unreadable)
      case Ok(text) =>
        match policy.VerifyLicense(text, now)
        case Err(e) => Err(e)
        case Ok(license) =>
          if license.claims.licenseId in local.revokedLicenseIds then Err(Revoked)
          else if !license.claims.edition.RequiresActivation() then Ok(ActiveLicense(c.source, license, None))
          else
            match Activate(license.claims)
            case Err(e) => Err(e)
            case Ok(claims) => Ok(ActiveLicense(c.source, license, Some(claims)))
    }

    function Valid(cs: seq<Candidate>): seq<ActiveLicense> {
      if |cs| == 0 then []
      else
        var o := Outcome(cs[|cs| - 1]);
        Valid(cs[..|cs| - 1]) + if o.Ok? then [o.value] else []
    }

    function Rejected(cs: seq<Candidate>): seq<RejectedCandidate> {
      if |cs| == 0 then []
      else
        var o := Outcome(cs[|cs| - 1]);
        Rejected(cs[..|cs| - 1])
        + if o.Err? then [RejectedCandidate(cs[|cs| - 1].source, o.error)] else []
    }

    function Resolve(cs: seq<Candidate>): Resolution {
      Resolution(Best(Valid(cs)), Rejected(cs))
    }

    /** The loop over the certificates: the error that is reported is the first certificate's. */
    method FindActivation(license: LicenseClaims) returns (r: Result<ActivationClaims, Rejection>)
      ensures r == Activate(license)
    {
      var firstError := ActivationRequired;
      var i := 0;
      while i < |local.certificates|
        invariant i <= |local.certificates|
        invariant FirstGood(license, 0) == FirstGood(license, i)
        invariant firstError == if i == 0 then ActivationRequired else VerifyWith(license, local.certificates[0]).error
        invariant i > 0 ==> VerifyWith(license, local.certificates[0]).Err?
      {
        var verified := policy.VerifyActivation(local.certificates[i], license, local.deviceId, now);
        match verified {
          case Ok(claims) =>
            return Ok(claims);
          case Err(e) =>
            if i == 0 {
              firstError := e;
            }
        }
        i := i + 1;
      }
      return Err(firstError);
    }

    method ResolveAll(candidates: seq<Candidate>) returns (r: Resolution)
      ensures r == Resolve(candidates)
    {
      var valid: seq<ActiveLicense> := [];
      var rejected: seq<RejectedCandidate> := [];
      for i := 0 to |candidates|
        invariant valid == Valid(candidates[..i]) && rejected == Rejected(candidates[..i])
      {
        var candidate := candidates[i];
        assert candidates[..i + 1][..i] == candidates[..i];
        var outcome: Result<ActiveLicense, Rejection> := Err(Unreadable);
        if candidate.contents.Ok? {
          var verified := policy.VerifyLicense(candidate.contents.value, now);
          if verified.Err? {
            outcome := Err(verified.error);
          } else if verified.value.claims.licenseId in local.revokedLicenseIds {
            outcome := Err(Revoked);
          } else if !verified.value.claims.edition.RequiresActivation() {
            outcome := Ok(ActiveLicense(candidate.source, verified.value, None));
          } else {
            var activation := FindActivation(verified.value.claims);
            outcome := if activation.Ok? then
                         Ok(ActiveLicense(candidate.source, verified.value, Some(activation.value)))
                       else Err(activation.error);
          }
        }
        match outcome {
          case Ok(license) => valid := valid + [license];
          case Err(reason) => rejected := rejected + [RejectedCandidate(candidate.source, reason)];
        }
      }
      assert candidates[..|candidates|] == candidates;
      var active := PickBest(valid);
      return Resolution(active, rejected);
    }
  }

  function Best(valid: seq<ActiveLicense>): Option<ActiveLicense> {
    if |valid| == 0 then None
    else
      var best := Best(valid[..|valid| - 1]);
      var last := valid[|valid| - 1];
      if best.None? || last.Edition().Rank() > best.value.Edition().Rank() then Some(last) else best
  }

  /** The loop over the valid licences. */
  method PickBest(valid: seq<ActiveLicense>) returns (active: Option<ActiveLicense>)
    ensures active == Best(valid)
  {
    active := None;
    for i := 0 to |valid|
      invariant active == Best(valid[..i])
    {
      assert valid[..i + 1][..i] == valid[..i];
      if active.None? || valid[i].Edition().Rank() > active.value.Edition().Rank() {
        active := Some(valid[i]);
      }
    }
    assert valid[..|valid|] == valid;
  }

  /** Candidate k is valid, no candidate is of a higher edition, and no earlier one of the same. */
  predicate IsFirstBest(w: Setting, cs: seq<Candidate>, k: nat) {
    && k < |cs| && w.Outcome(cs[k]).Ok?
    && (forall j :: 0 <= j < |cs| && w.Outcome(cs[j]).Ok? ==>
          w.Outcome(cs[j]).value.Edition().Rank() <= w.Outcome(cs[k]).value.Edition().Rank())
    && (forall j :: 0 <= j < k && w.Outcome(cs[j]).Ok? ==>
          w.Outcome(cs[j]).value.Edition().Rank() < w.Outcome(cs[k]).value.Edition().Rank())
  }

  lemma StillBest(w: Setting, before: seq<Candidate>, c: Candidate, k: nat)
    requires IsFirstBest(w, before, k)
    requires w.Outcome(c).Ok? ==>
               w.Outcome(c).value.Edition().Rank() <= w.Outcome(before[k]).value.Edition().Rank()
    ensures IsFirstBest(w, before + [c], k)
  {
    hide Setting.Outcome;
  }

  lemma NewBest(w: Setting, before: seq<Candidate>, c: Candidate)
    requires w.Outcome(c).Ok?
    requires forall j :: 0 <= j < |before| && w.Outcome(before[j]).Ok? ==>
               w.Outcome(before[j]).value.Edition().Rank() < w.Outcome(c).value.Edition().Rank()
    ensures IsFirstBest(w, before + [c], |before|)
  {
    hide Setting.Outcome;
  }

  /** One more candidate replaces the best so far exactly when its edition is higher. */
  lemma BestOfOneMore(w: Setting, before: seq<Candidate>, c: Candidate)
    ensures var was := w.Resolve(before).active;
            w.Resolve(before + [c]).active
            == if w.Outcome(c).Ok?
                  && (was.None? || w.Outcome(c).value.Edition().Rank() > was.value.Edition().Rank())
               then Some(w.Outcome(c).value) else was
  {
    hide Setting.Outcome;
    assert (before + [c])[..|before|] == before;
    if w.Outcome(c).Ok? {
      assert (w.Valid(before) + [w.Outcome(c).value])[..|w.Valid(before)|] == w.Valid(before);
    } else {
      assert w.Valid(before + [c]) == w.Valid(before);
    }
  }

  /** The active licence is the first candidate of the highest edition among the valid ones, if any is valid. */
  lemma {:induction false} ActiveIsFirstBest(w: Setting, cs: seq<Candidate>)
    ensures w.Resolve(cs).active.None? <==> forall k :: 0 <= k < |cs| ==> w.Outcome(cs[k]).Err?
    ensures w.Resolve(cs).active.Some? ==>
              exists k: nat :: IsFirstBest(w, cs, k) && w.Outcome(cs[k]) == Ok(w.Resolve(cs).active.value)
  {
    hide Setting.Outcome, Setting.Resolve;
    if |cs| == 0 {
      assert w.Resolve(cs).active.None? by {
        NothingActive(w);
      }
    } else {
      var n := |cs| - 1;
      var before, c := cs[..n], cs[n];
      assert cs == before + [c];
      ActiveIsFirstBest(w, before);
      BestOfOneMore(w, before, c);
      if w.Resolve(before).active.None? {
        assert forall k :: 0 <= k < |before| ==> w.Outcome(before[k]).Err?;
        if w.Outcome(c).Ok? {
          NewBest(w, before, c);
          assert w.Outcome(cs[n]) == Ok(w.Resolve(cs).active.value);
        }
      } else {
        var k: nat :| IsFirstBest(w, before, k) && w.Outcome(before[k]) == Ok(w.Resolve(before).active.value);
        if w.Outcome(c).Ok? && w.Outcome(c).value.Edition().Rank() > w.Outcome(before[k]).value.Edition().Rank() {
          NewBest(w, before, c);
        } else {
          StillBest(w, before, c, k);
        }
      }
    }
  }

  lemma NothingActive(w: Setting)
    ensures w.Resolve([]).active.None?
  {
  }

  /** Every candidate is valid or rejected, and the rejections name their candidates in order, with the reason. */
  lemma {:induction false} NoneIsLost(w: Setting, cs: seq<Candidate>)
    ensures |w.Valid(cs)| + |w.Resolve(cs).rejected| == |cs|
    ensures forall r :: r in w.Resolve(cs).rejected
                        <==> exists k :: 0 <= k < |cs| && w.Outcome(cs[k]) == Err(r.reason) && cs[k].source == r.source
  {
    hide Setting.Outcome;
    if |cs| > 0 {
      NoneIsLost(w, cs[..|cs| - 1]);
      assert cs == cs[..|cs| - 1] + [cs[|cs| - 1]];
    }
  }

  function RankOf(w: Setting, c: Candidate): nat {
    if w.Outcome(c).Ok? then w.Outcome(c).value.Edition().Rank() else 0
  }

  /** The edition in effect is at least that of any valid candidate, and is some candidate's, or Community. */
  lemma EditionIsHighest(w: Setting, cs: seq<Candidate>)
    ensures forall c :: c in cs ==> RankOf(w, c) <= w.Resolve(cs).Edition().Rank()
    ensures w.Resolve(cs).Edition() == Community
            || exists c :: c in cs && w.Outcome(c).Ok? && w.Outcome(c).value.Edition() == w.Resolve(cs).Edition()
  {
    hide Setting.Outcome;
    ActiveIsFirstBest(w, cs);
  }

  /** More candidates never lower the edition. */
  lemma MoreCandidatesNeverLower(w: Setting, cs: seq<Candidate>, more: seq<Candidate>)
    requires forall c :: c in cs ==> c in more
    ensures w.Resolve(cs).Edition().Rank() <= w.Resolve(more).Edition().Rank()
  {
    hide Setting.Outcome;
    EditionIsHighest(w, cs);
    EditionIsHighest(w, more);
  }

  /** A longer list of revoked licences never raises the edition. */
  lemma RevocationNeverRaises(w: Setting, revoked: seq<string>, cs: seq<Candidate>)
    requires forall id :: id in w.local.revokedLicenseIds ==> id in revoked
    ensures w.(local := w.local.(revokedLicenseIds := revoked)).Resolve(cs).Edition().Rank()
            <= w.Resolve(cs).Edition().Rank()
  {
    var x := w.(local := w.local.(revokedLicenseIds := revoked));
    EditionIsHighest(w, cs);
    EditionIsHighest(x, cs);
    forall c | c in cs ensures RankOf(x, c) <= RankOf(w, c) {
      if c.contents.Ok? && w.policy.VerifyLicense(c.contents.value, w.now).Ok? {
        SameActivation(w, x, w.policy.VerifyLicense(c.contents.value, w.now).value.claims, 0);
      }
    }
  }

  lemma {:induction false} SameActivation(w: Setting, x: Setting, license: LicenseClaims, from: nat)
    requires x == w.(local := w.local.(revokedLicenseIds := x.local.revokedLicenseIds))
    requires from <= |w.local.certificates|
    ensures w.FirstGood(license, from) == x.FirstGood(license, from)
    ensures from == 0 ==> w.Activate(license) == x.Activate(license)
    decreases |w.local.certificates| - from
  {
    if from < |w.local.certificates| {
      SameActivation(w, x, license, from + 1);
    }
  }

  /** A certificate anywhere in the list that activates the licence is enough. */
  lemma AnyGoodCertificateActivates(w: Setting, license: LicenseClaims, certificate: Bytes)
    requires certificate in w.local.certificates && w.VerifyWith(license, certificate).Ok?
    ensures w.Activate(license).Ok?
  {
    var k := w.FirstGood(license, 0);
  }

  // ---------------------------------------------------------------------------------------------------------------
  // What makes a licence count
  // ---------------------------------------------------------------------------------------------------------------

  /** The candidate can be read, verifies now, is not revoked, and is activated on this device if that is needed. */
  predicate IsGood(w: Setting, c: Candidate) {
    && c.contents.Ok?
    && w.policy.VerifyLicense(c.contents.value, w.now).Ok?
    && var claims := ClaimsOf(w, c);
    && claims.licenseId !in w.local.revokedLicenseIds
    && (claims.edition == Business ==>
          exists t :: t in w.local.certificates
                      && w.policy.VerifyActivation(t, claims, w.local.deviceId, w.now).Ok?)
  }

  function ClaimsOf(w: Setting, c: Candidate): LicenseClaims
    requires c.contents.Ok? && w.policy.VerifyLicense(c.contents.value, w.now).Ok?
  {
    w.policy.VerifyLicense(c.contents.value, w.now).value.claims
  }

  /** What is said about a candidate that is not good. */
  predicate Explains(w: Setting, c: Candidate, reason: Rejection) {
    if c.contents.Err? then reason == Unreadable
    else if w.policy.VerifyLicense(c.contents.value, w.now).Err? then
      w.policy.VerifyLicense(c.contents.value, w.now) == Err(reason)
    else if ClaimsOf(w, c).licenseId in w.local.revokedLicenseIds then reason == Revoked
    else if |w.local.certificates| == 0 then reason == ActivationRequired
    else w.policy.VerifyActivation(w.local.certificates[0], ClaimsOf(w, c), w.local.deviceId, w.now) == Err(reason)
  }

  /** What comes out for a good candidate: its licence, and for Business the claims of a certificate for it. */
  predicate Describes(w: Setting, c: Candidate, a: ActiveLicense)
    requires IsGood(w, c)
  {
    && a.source == c.source
    && w.policy.VerifyLicense(c.contents.value, w.now) == Ok(a.license)
    && (a.activation.Some? <==> a.license.claims.edition == Business)
    && (a.activation.Some? ==>
          exists t :: t in w.local.certificates
                      && w.policy.VerifyActivation(t, a.license.claims, w.local.deviceId, w.now)
                         == Ok(a.activation.value))
  }

  lemma OutcomeMeans(w: Setting, c: Candidate)
    ensures w.Outcome(c).Ok? <==> IsGood(w, c)
    ensures w.Outcome(c).Ok? ==> Describes(w, c, w.Outcome(c).value)
    ensures w.Outcome(c).Err? ==> Explains(w, c, w.Outcome(c).error)
  {
    hide LicensePolicy.VerifyLicense, LicensePolicy.VerifyActivation;
    if c.contents.Ok? && w.policy.VerifyLicense(c.contents.value, w.now).Ok? {
      ActivateMeans(w, ClaimsOf(w, c));
    }
  }

  lemma ActivateMeans(w: Setting, license: LicenseClaims)
    ensures w.Activate(license).Ok? <==> exists t :: t in w.local.certificates && w.VerifyWith(license, t).Ok?
    ensures w.Activate(license).Ok? ==>
              exists t :: t in w.local.certificates && w.VerifyWith(license, t) == w.Activate(license)
    ensures w.Activate(license).Err? ==>
              w.Activate(license) == if |w.local.certificates| == 0 then Err(ActivationRequired)
                                     else w.VerifyWith(license, w.local.certificates[0])
  {
    hide Setting.VerifyWith;
    var k := w.FirstGood(license, 0);
    if k < |w.local.certificates| {
      assert w.local.certificates[k] in w.local.certificates;
    }
  }

  /**
   The outcome of resolution in terms of what makes a licence count: an active licence is one of the good candidates,
   of an edition that no good one exceeds, and the first of these; there is none exactly if none is good; and the
   rejections are those of the others, each for its reason.
   */
  lemma OnlyGoodLicensesCount(w: Setting, cs: seq<Candidate>)
    ensures w.Resolve(cs).active.None? <==> forall k :: 0 <= k < |cs| ==> !IsGood(w, cs[k])
    ensures w.Resolve(cs).active.Some? ==>
              exists k ::
                && 0 <= k < |cs| && IsGood(w, cs[k]) && Describes(w, cs[k], w.Resolve(cs).active.value)
                && (forall j :: 0 <= j < |cs| && IsGood(w, cs[j]) ==>
                      ClaimsOf(w, cs[j]).edition.Rank() <= ClaimsOf(w, cs[k]).edition.Rank())
                && (forall j :: 0 <= j < k && IsGood(w, cs[j]) ==>
                      ClaimsOf(w, cs[j]).edition.Rank() < ClaimsOf(w, cs[k]).edition.Rank())
    ensures forall r :: r in w.Resolve(cs).rejected ==>
              exists k :: 0 <= k < |cs| && !IsGood(w, cs[k]) && r.source == cs[k].source
                          && Explains(w, cs[k], r.reason)
    ensures forall k :: 0 <= k < |cs| && !IsGood(w, cs[k]) ==>
              exists r :: r in w.Resolve(cs).rejected && r.source == cs[k].source && Explains(w, cs[k], r.reason)
  {
    hide Setting.Outcome, Setting.Resolve, IsGood, Explains, Describes, LicensePolicy.VerifyLicense;
    forall k | 0 <= k < |cs|
      ensures w.Outcome(cs[k]).Ok? <==> IsGood(w, cs[k])
      ensures w.Outcome(cs[k]).Err? ==> Explains(w, cs[k], w.Outcome(cs[k]).error)
    {
      OutcomeMeans(w, cs[k]);
    }
    ActiveIsFirstBest(w, cs);
    if w.Resolve(cs).active.Some? {
      var k: nat :| IsFirstBest(w, cs, k) && w.Outcome(cs[k]) == Ok(w.Resolve(cs).active.value);
      FirstBestIsGood(w, cs, k);
    }
    RejectionsExplain(w, cs);
  }

  lemma FirstBestIsGood(w: Setting, cs: seq<Candidate>, k: nat)
    requires IsFirstBest(w, cs, k)
    ensures k < |cs| && w.Outcome(cs[k]).Ok? && IsGood(w, cs[k]) && Describes(w, cs[k], w.Outcome(cs[k]).value)
    ensures forall j :: 0 <= j < |cs| && IsGood(w, cs[j]) ==>
              ClaimsOf(w, cs[j]).edition.Rank() <= ClaimsOf(w, cs[k]).edition.Rank()
    ensures forall j :: 0 <= j < k && IsGood(w, cs[j]) ==>
              ClaimsOf(w, cs[j]).edition.Rank() < ClaimsOf(w, cs[k]).edition.Rank()
  {
    hide Setting.Outcome, IsGood, Describes, LicensePolicy.VerifyLicense, Edition.Rank;
    forall j | 0 <= j < |cs|
      ensures w.Outcome(cs[j]).Ok? <==> IsGood(w, cs[j])
      ensures IsGood(w, cs[j]) ==> SaysEdition(w, cs[j])
    {
      OutcomeMeans(w, cs[j]);
      if IsGood(w, cs[j]) {
        EditionSaid(w, cs[j]);
      }
    }
    OutcomeMeans(w, cs[k]);
  }

  lemma RejectionsExplain(w: Setting, cs: seq<Candidate>)
    ensures forall r :: r in w.Resolve(cs).rejected ==>
              exists k :: 0 <= k < |cs| && !IsGood(w, cs[k]) && r.source == cs[k].source
                          && Explains(w, cs[k], r.reason)
    ensures forall k :: 0 <= k < |cs| && !IsGood(w, cs[k]) ==>
              exists r :: r in w.Resolve(cs).rejected && r.source == cs[k].source && Explains(w, cs[k], r.reason)
  {
    hide Setting.Outcome, Setting.Resolve, IsGood, Explains, Describes, LicensePolicy.VerifyLicense;
    NoneIsLost(w, cs);
    forall r | r in w.Resolve(cs).rejected
      ensures exists k :: 0 <= k < |cs| && !IsGood(w, cs[k]) && r.source == cs[k].source
                          && Explains(w, cs[k], r.reason)
    {
      var k :| 0 <= k < |cs| && w.Outcome(cs[k]) == Err(r.reason) && cs[k].source == r.source;
      OutcomeMeans(w, cs[k]);
    }
    forall k | 0 <= k < |cs| && !IsGood(w, cs[k])
      ensures exists r :: r in w.Resolve(cs).rejected && r.source == cs[k].source && Explains(w, cs[k], r.reason)
    {
      OutcomeMeans(w, cs[k]);
      assert RejectedCandidate(cs[k].source, w.Outcome(cs[k]).error) in w.Resolve(cs).rejected;
    }
  }

  predicate SaysEdition(w: Setting, c: Candidate) {
    && w.Outcome(c).Ok? && c.contents.Ok? && w.policy.VerifyLicense(c.contents.value, w.now).Ok?
    && w.Outcome(c).value.Edition() == ClaimsOf(w, c).edition
  }

  lemma EditionSaid(w: Setting, c: Candidate)
    requires IsGood(w, c) && w.Outcome(c).Ok? && Describes(w, c, w.Outcome(c).value)
    ensures SaysEdition(w, c)
  {
  }

  /** A good candidate of this edition is among them. */
  predicate HasGood(w: Setting, cs: seq<Candidate>, edition: Edition) {
    exists k :: 0 <= k < |cs| && IsGood(w, cs[k]) && ClaimsOf(w, cs[k]).edition == edition
  }

  /** Enterprise is in effect if any good licence is for it, else Business, else Education, else Community. */
  lemma TheHighestEditionWins(w: Setting, cs: seq<Candidate>)
    ensures w.Resolve(cs).Edition()
            == if HasGood(w, cs, Enterprise) then Enterprise
               else if HasGood(w, cs, Business) then Business
               else if HasGood(w, cs, Education) then Education
               else Community
  {
    hide Setting.Resolve, IsGood;
    OnlyGoodLicensesCount(w, cs);
  }

  /** No feature outlives its licence: the active licence is not revoked and its term has not run out. */
  lemma TheActiveLicenseIsCurrent(w: Setting, cs: seq<Candidate>)
    requires w.Resolve(cs).active.Some?
    ensures var claims := w.Resolve(cs).active.value.license.claims;
            && claims.licenseId !in w.local.revokedLicenseIds
            && (claims.term.Subscription? ==> w.now < claims.term.expiresAt)
  {
    hide Setting.Resolve, LicensePolicy.VerifyLicense;
    OnlyGoodLicensesCount(w, cs);
    var k :| 0 <= k < |cs| && IsGood(w, cs[k]) && Describes(w, cs[k], w.Resolve(cs).active.value);
    w.policy.VerifiedIff(cs[k].contents.value, w.now);
  }
}
