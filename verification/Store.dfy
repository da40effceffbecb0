/**
 Licence state on disk (crates/cursdel-license/src/store.rs): two scopes with four files each, every change one atomic
 file operation, and the order of the operations as the only protection against an interruption.
 */
module Store {
  import opened Wrappers
  import opened Envelope
  import opened Validate
  import opened Resolve

  datatype Scope = User | System

  /** What reading a file gives; a file whose text makes no sense counts as unreadable. */
  datatype File<T> = Absent | Unreadable | Holds(value: T)

  datatype Credentials = Credentials(activationId: string, clientSecret: string)

  /** The directory of one scope. */
  datatype Dir = Dir(
    license: File<Bytes>, activation: File<Bytes>, credentials: File<Credentials>, revocations: File<seq<string>>)

  /** Both scopes, the override file, and the other licence files of the system directory in their sorted order. */
  datatype Disk = Disk(
    overrideFile: Option<Candidate>, user: Dir, system: Option<Dir>, before: seq<Candidate>, after: seq<Candidate>)
  {
    function DirOf(scope: Scope): Option<Dir> {
      match scope
      case User => Some(user)
      case System => system
    }

    function WithDir(scope: Scope, dir: Dir): Disk {
      match scope
      case User => this.(user := dir)
      case System => this.(system := Some(dir))
    }

    function LicenseIn(scope: Scope): File<Bytes> {
      if DirOf(scope).Some? then DirOf(scope).value.license else Absent
    }

    // What the store reads -------------------------------------------------------------------------------------------

    function CandidatesIn(scope: Scope): seq<Candidate> {
      match scope
      case User => FromFile("user", user.license)
      case System => if system.None? then [] else before + FromFile("system", system.value.license) + after
    }

    function Candidates(): seq<Candidate> {
      (if overrideFile.Some? then [overrideFile.value] else []) + CandidatesIn(User) + CandidatesIn(System)
    }

    function CertificateIn(scope: Scope): seq<Bytes> {
      if DirOf(scope).Some? && DirOf(scope).value.activation.Holds? then [DirOf(scope).value.activation.value] else []
    }

    function ActivationCertificates(): seq<Bytes> {
      CertificateIn(User) + CertificateIn(System)
    }

    function RevokedIn(scope: Scope): seq<string> {
      if DirOf(scope).Some? && DirOf(scope).value.revocations.Holds? then DirOf(scope).value.revocations.value else []
    }

    function RevokedLicenseIds(): seq<string> {
      RevokedIn(User) + RevokedIn(System)
    }

    /** None if reading fails, Some(None) if there are no credentials. */
    function ReadCredentials(scope: Scope): Option<Option<Credentials>> {
      if DirOf(scope).None? then None
      else
        match DirOf(scope).value.credentials
        case Absent => Some(None)
        case Unreadable => None
        case Holds(credentials) => Some(Some(credentials))
    }

    // Interruptions --------------------------------------------------------------------------------------------------

    predicate Paired(scope: Scope) {
      DirOf(scope).Some? && !DirOf(scope).value.activation.Absent? ==> !DirOf(scope).value.credentials.Absent?
    }

    /** Wherever there is a certificate, the credentials that can release it are there too. */
    predicate CrashSafe() {
      Paired(User) && Paired(System)
    }
  }

  function FromFile(source: string, file: File<Bytes>): seq<Candidate> {
    match file
    case Absent => []
    case Unreadable => [Candidate(source, Err("could not read file"))]
    case Holds(text) => [Candidate(source, Ok(text))]
  }

  datatype Change =
    | SetLicense(text: Bytes) | SetActivation(certificate: Bytes) | SetCredentials(credentials: Credentials)
    | SetRevocations(ids: seq<string>) | DropActivation | DropCredentials

  function ChangedDir(dir: Dir, change: Change): Dir {
    match change
    case SetLicense(text) => dir.(license := Holds(text))
    case SetActivation(certificate) => dir.(activation := Holds(certificate))
    case SetCredentials(credentials) => dir.(credentials := Holds(credentials))
    case SetRevocations(ids) => dir.(revocations := Holds(ids))
    case DropActivation => dir.(activation := Absent)
    case DropCredentials => dir.(credentials := Absent)
  }

  function Changed(disk: Disk, scope: Scope, change: Change): Disk {
    if disk.DirOf(scope).None? then disk else disk.WithDir(scope, ChangedDir(disk.DirOf(scope).value, change))
  }

  function Activated(disk: Disk, scope: Scope, certificate: Bytes, credentials: Credentials): Disk {
    Changed(Changed(disk, scope, SetCredentials(credentials)), scope, SetActivation(certificate))
  }

  function Deactivated(disk: Disk, scope: Scope): Disk {
    Changed(Changed(disk, scope, DropActivation), scope, DropCredentials)
  }

  /** The list without one id, everything else in its order. */
  function Without(ids: seq<string>, id: string): (r: seq<string>)
    ensures id !in r
    ensures forall x :: x != id ==> (x in r <==> x in ids)
    ensures id !in ids ==> r == ids
  {
    if |ids| == 0 then []
    else Without(ids[..|ids| - 1], id) + if ids[|ids| - 1] == id then [] else [ids[|ids| - 1]]
  }

  function RevocationRecorded(disk: Disk, scope: Scope, id: string): Disk {
    if id in disk.RevokedIn(scope) then disk else Changed(disk, scope, SetRevocations(disk.RevokedIn(scope) + [id]))
  }

  function RevocationCleared(disk: Disk, scope: Scope, id: string): Disk {
    if id in disk.RevokedIn(scope) then Changed(disk, scope, SetRevocations(Without(disk.RevokedIn(scope), id)))
    else disk
  }

  // ---------------------------------------------------------------------------------------------------------------
  // What a change changes, and what is read afterwards
  // ---------------------------------------------------------------------------------------------------------------

  /** The candidates, certificates and revocations of the disk as its files hold them. */
  lemma WhatIsRead(disk: Disk)
    ensures forall c :: c in disk.Candidates() <==>
              || disk.overrideFile == Some(c)
              || c in FromFile("user", disk.user.license)
              || (disk.system.Some?
                  && (c in disk.before || c in FromFile("system", disk.system.value.license) || c in disk.after))
    ensures disk.overrideFile.Some? ==> |disk.Candidates()| > 0 && disk.Candidates()[0] == disk.overrideFile.value
    ensures forall t :: t in disk.ActivationCertificates() <==>
              disk.user.activation == Holds(t) || (disk.system.Some? && disk.system.value.activation == Holds(t))
    ensures forall id :: id in disk.RevokedLicenseIds() <==>
              || (disk.user.revocations.Holds? && id in disk.user.revocations.value)
              || (disk.system.Some? && disk.system.value.revocations.Holds?
                  && id in disk.system.value.revocations.value)
    ensures forall scope, found ::
              disk.ReadCredentials(scope) == Some(found)
              <==> && disk.DirOf(scope).Some?
                   && disk.DirOf(scope).value.credentials == if found.Some? then Holds(found.value) else Absent
  {
  }

  /** Everything but one scope's directory is the same. */
  predicate SameElsewhere(d0: Disk, d1: Disk, scope: Scope) {
    && d1.overrideFile == d0.overrideFile && d1.before == d0.before && d1.after == d0.after
    && (forall other :: other != scope ==> d1.DirOf(other) == d0.DirOf(other))
  }

  /** A change writes or removes one file, and leaves all the others alone. */
  lemma ChangesOneFile(disk: Disk, scope: Scope, change: Change)
    requires disk.DirOf(scope).Some?
    ensures SameElsewhere(disk, Changed(disk, scope, change), scope)
    ensures Changed(disk, scope, change).DirOf(scope).Some?
    ensures var was, now := disk.DirOf(scope).value, Changed(disk, scope, change).DirOf(scope).value;
            && now.license == (if change.SetLicense? then Holds(change.text) else was.license)
            && now.activation == (if change.SetActivation? then Holds(change.certificate)
                                  else if change.DropActivation? then Absent else was.activation)
            && now.credentials == (if change.SetCredentials? then Holds(change.credentials)
                                   else if change.DropCredentials? then Absent else was.credentials)
            && now.revocations == (if change.SetRevocations? then Holds(change.ids) else was.revocations)
  {
  }

  /** An activation that was written is read back, and one that was removed is not; licences are not touched. */
  lemma ActivationReadsBack(disk: Disk, scope: Scope, certificate: Bytes, credentials: Credentials)
    requires disk.DirOf(scope).Some?
    ensures var d := Activated(disk, scope, certificate, credentials);
            && SameElsewhere(disk, d, scope) && d.LicenseIn(scope) == disk.LicenseIn(scope)
            && d.RevokedIn(scope) == disk.RevokedIn(scope)
            && d.CertificateIn(scope) == [certificate] && d.ReadCredentials(scope) == Some(Some(credentials))
    ensures var d := Deactivated(disk, scope);
            && SameElsewhere(disk, d, scope) && d.LicenseIn(scope) == disk.LicenseIn(scope)
            && d.RevokedIn(scope) == disk.RevokedIn(scope)
            && d.CertificateIn(scope) == [] && d.ReadCredentials(scope) == Some(None)
  {
    hide Changed;
    ChangesOneFile(disk, scope, SetCredentials(credentials));
    ChangesOneFile(Changed(disk, scope, SetCredentials(credentials)), scope, SetActivation(certificate));
    ChangesOneFile(disk, scope, DropActivation);
    ChangesOneFile(Changed(disk, scope, DropActivation), scope, DropCredentials);
  }

  /** Recording adds one id to the list and clearing removes it; nothing else is touched. */
  lemma RevocationReadsBack(disk: Disk, scope: Scope, id: string)
    requires disk.DirOf(scope).Some?
    ensures var d := RevocationRecorded(disk, scope, id);
            && SameElsewhere(disk, d, scope) && d.LicenseIn(scope) == disk.LicenseIn(scope)
            && d.CertificateIn(scope) == disk.CertificateIn(scope)
            && d.ReadCredentials(scope) == disk.ReadCredentials(scope)
            && (forall x :: x in d.RevokedIn(scope) <==> x in disk.RevokedIn(scope) || x == id)
    ensures var d := RevocationCleared(disk, scope, id);
            && SameElsewhere(disk, d, scope) && d.LicenseIn(scope) == disk.LicenseIn(scope)
            && d.CertificateIn(scope) == disk.CertificateIn(scope)
            && d.ReadCredentials(scope) == disk.ReadCredentials(scope)
            && (forall x :: x in d.RevokedIn(scope) <==> x in disk.RevokedIn(scope) && x != id)
  {
    hide Changed, Without;
    ChangesOneFile(disk, scope, SetRevocations(disk.RevokedIn(scope) + [id]));
    ChangesOneFile(disk, scope, SetRevocations(Without(disk.RevokedIn(scope), id)));
  }

  class LicenseStore {
    var disk: Disk
    /** Whether the k-th file operation succeeds. */
    const io: nat -> bool
    var operations: nat
    /** The disk after each file operation: where an interruption may leave it. */
    ghost var history: seq<Disk>

    constructor (disk: Disk, io: nat -> bool)
      ensures this.disk == disk && this.io == io && operations == 0 && history == [disk]
    {
      this.disk, this.io, operations, history := disk, io, 0, [disk];
    }

    /** If the disk was safe before, it is safe now and was at every moment in between. */
    twostate predicate SafeSince()
      reads this
    {
      && old(history) <= history
      && (old(disk.CrashSafe()) ==>
            disk.CrashSafe() && forall k :: |old(history)| <= k < |history| ==> history[k].CrashSafe())
    }

    /** The last of the disks recorded since is the disk as it is now. */
    twostate predicate Recorded()
      reads this
    {
      && old(history) <= history
      && disk == if |history| > |old(history)| then history[|history| - 1] else old(disk)
    }

    /** No installed licence has changed, not even for a moment. */
    twostate predicate LicensesKept()
      reads this
    {
      && (forall scope :: disk.LicenseIn(scope) == old(disk.LicenseIn(scope)))
      && (forall k, scope :: |old(history)| <= k < |history| ==>
            history[k].LicenseIn(scope) == old(disk.LicenseIn(scope)))
    }

    /** Some file operation since then has failed. */
    twostate predicate OperationFailed()
      reads this
    {
      exists k: nat :: old(operations) <= k < operations && !io(k)
    }

    /** There was no such scope to work in, or some file operation since then has failed. */
    twostate predicate Thwarted(scope: Scope)
      reads this
    {
      old(disk).DirOf(scope).None? || OperationFailed()
    }

    /** One write to a temporary file renamed into place, or one removal: all or nothing. */
    method Do(scope: Scope, change: Change) returns (ok: bool)
      modifies this
      ensures ok ==> old(disk).DirOf(scope).Some? && disk == Changed(old(disk), scope, change)
      ensures !ok ==> disk == old(disk)
      ensures ok <==> !Thwarted(scope)
      ensures old(operations) <= operations <= old(operations) + 1
      ensures history == old(history) + [disk]
    {
      if disk.DirOf(scope).None? {
        ok := false;
      } else if Changed(disk, scope, change) == disk && (change.DropActivation? || change.DropCredentials?) {
        ok := true;
      } else {
        ok := io(operations);
        operations := operations + 1;
        if ok {
          disk := Changed(disk, scope, change);
        }
      }
      history := history + [disk];
    }

    method WriteLicense(scope: Scope, text: Bytes) returns (ok: bool)
      modifies this
      ensures disk == if ok then Changed(old(disk), scope, SetLicense(text)) else old(disk)
      ensures ok <==> !Thwarted(scope)
      ensures old(operations) <= operations <= old(operations) + 1
      ensures SafeSince()
      ensures history == old(history) + [disk]
    {
      ok := Do(scope, SetLicense(text));
    }

    /** The credentials go first, so that no certificate is ever there without them. */
    method WriteActivation(scope: Scope, certificate: Bytes, credentials: Credentials) returns (ok: bool)
      modifies this
      ensures ok <==> !Thwarted(scope)
      ensures old(operations) <= operations <= old(operations) + 2
      ensures ok ==> disk == Activated(old(disk), scope, certificate, credentials)
      ensures !ok ==> disk == old(disk) || disk == Changed(old(disk), scope, SetCredentials(credentials))
      ensures SafeSince() && Recorded() && LicensesKept()
    {
      ok := Do(scope, SetCredentials(credentials));
      if ok {
        ok := Do(scope, SetActivation(certificate));
      }
    }

    /** The credentials go last. */
    method RemoveActivation(scope: Scope) returns (ok: bool)
      modifies this
      ensures ok <==> !Thwarted(scope)
      ensures old(operations) <= operations <= old(operations) + 2
      ensures ok ==> disk == Deactivated(old(disk), scope)
      ensures !ok ==> disk == old(disk) || disk == Changed(old(disk), scope, DropActivation)
      ensures SafeSince() && Recorded() && LicensesKept()
    {
      ok := Do(scope, DropActivation);
      if ok {
        ok := Do(scope, DropCredentials);
      }
    }

    method RecordRevocation(scope: Scope, id: string) returns (ok: bool)
      modifies this
      ensures ok <==> !Thwarted(scope)
      ensures old(operations) <= operations <= old(operations) + 1
      ensures ok ==> disk == RevocationRecorded(old(disk), scope, id) && id in disk.RevokedIn(scope)
      ensures !ok ==> disk == old(disk)
      ensures SafeSince() && Recorded() && LicensesKept()
    {
      var ids := disk.RevokedIn(scope);
      if id in ids {
        return true;
      }
      ok := Do(scope, SetRevocations(ids + [id]));
    }

    method ClearRevocation(scope: Scope, id: string) returns (ok: bool)
      modifies this
      ensures ok <==> !OperationFailed()
      ensures old(operations) <= operations <= old(operations) + 1
      ensures ok ==> disk == RevocationCleared(old(disk), scope, id) && id !in disk.RevokedIn(scope)
      ensures !ok ==> disk == old(disk)
      ensures SafeSince() && Recorded() && LicensesKept()
    {
      var ids := disk.RevokedIn(scope);
      if id !in ids {
        return true;
      }
      ok := Do(scope, SetRevocations(Without(ids, id)));
    }
  }
}
