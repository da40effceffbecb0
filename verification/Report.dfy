/**
 The failure log and the exit code (crates/cursdel-core/src/pipeline.rs, `FailureLog`;
 crates/cursdel-core/src/report.rs, `Summary::exit_code`).
 */
module Report {
  import opened Attempts

  const MAX_STORED_FAILURES := 10_000

  /** The detail kept about failures: the first MAX_STORED_FAILURES of them, and whether any were dropped. */
  datatype Log = Log(stored: seq<Category>, truncated: bool)

  const EMPTY_LOG := Log([], false)

  function Push(log: Log, c: Category): Log {
    if |log.stored| < MAX_STORED_FAILURES then log.(stored := log.stored + [c]) else log.(truncated := true)
  }

  /** The log after all of `pushed`, in that order, starting from an empty log. */
  function LogOf(pushed: seq<Category>): Log {
    if |pushed| == 0 then EMPTY_LOG else Push(LogOf(pushed[..|pushed| - 1]), pushed[|pushed| - 1])
  }

  /** The stored failures are the first MAX_STORED_FAILURES pushed, and the flag says whether that lost any. */
  lemma {:induction false} LogKeepsThePrefix(pushed: seq<Category>)
    ensures |pushed| <= MAX_STORED_FAILURES ==> LogOf(pushed).stored == pushed
    ensures |pushed| > MAX_STORED_FAILURES ==> LogOf(pushed).stored == pushed[..MAX_STORED_FAILURES]
    ensures LogOf(pushed).truncated <==> |pushed| > MAX_STORED_FAILURES
  {
    if |pushed| > 0 {
      var before := pushed[..|pushed| - 1];
      LogKeepsThePrefix(before);
      assert pushed == before + [pushed[|pushed| - 1]];
    }
  }

  class FailureLog {
    var failures: seq<Category>
    var truncated: bool
    ghost var pushed: seq<Category>

    ghost predicate Valid()
      reads this
    {
      Log(failures, truncated) == LogOf(pushed)
    }

    constructor ()
      ensures Valid() && pushed == []
    {
      failures, truncated, pushed := [], false, [];
    }

    method Push(failure: Category)
      requires Valid()
      modifies this
      ensures Valid() && pushed == old(pushed) + [failure]
    {
      if |failures| < MAX_STORED_FAILURES {
        failures := failures + [failure];
      } else {
        truncated := true;
      }
      pushed := pushed + [failure];
      assert pushed[..|pushed| - 1] == old(pushed);
    }

    method IntoParts() returns (stored: seq<Category>, lost: bool)
      requires Valid()
      ensures stored == pushed[..if |pushed| < MAX_STORED_FAILURES then |pushed| else MAX_STORED_FAILURES]
      ensures lost <==> |pushed| > MAX_STORED_FAILURES
    {
      LogKeepsThePrefix(pushed);
      stored, lost := failures, truncated;
    }
  }

  datatype ExitCode =
    | Success | InvalidArgsOrTarget | CompletedWithFailures | PrivilegeRequirementNotSatisfied | LockResolutionFailed
    | RemoteLockHandlingFailed | Interrupted | LicenseRequired | CliUsageError | UnexpectedFatal

  /** The parts of a summary that the exit code depends on. */
  datatype Summary = Summary(
    interrupted: bool,
    failures: seq<Category>,
    remediationAttempts: nat,
    remediationSuccesses: nat,
    aclRepairEnabled: bool,
    killLocksEnabled: bool,
    remoteLocksEnabled: bool)
  {
    function ExitCode(): ExitCode {
      if interrupted then
        Interrupted
      else if |failures| == 0 then
        Success
      else if (RemoteLockFailed in failures || RemoteLockUnsupported in failures) && remoteLocksEnabled then
        RemoteLockHandlingFailed
      else if LocalLockUnresolved in failures && killLocksEnabled then
        LockResolutionFailed
      else if aclRepairEnabled && remediationAttempts > 0 && remediationSuccesses == 0 then
        PrivilegeRequirementNotSatisfied
      else
        CompletedWithFailures
    }

    /** Some failure was about a lock held by a remote client, and closing such locks was asked for. */
    predicate RemoteTrouble() {
      remoteLocksEnabled && exists k :: 0 <= k < |failures| && failures[k] in {RemoteLockFailed, RemoteLockUnsupported}
    }

    predicate LocalTrouble() {
      killLocksEnabled && exists k :: 0 <= k < |failures| && failures[k] == LocalLockUnresolved
    }

    /** Permissions were to be repaired, and not one repair was applied. */
    predicate PrivilegeTrouble() {
      aclRepairEnabled && remediationAttempts > 0 && remediationSuccesses == 0
    }

    /**
     Each exit code says one thing. An interruption comes first, and of several kinds of trouble the one that the
     command line could have dealt with: remote locks, then local locks, then privileges.
     */
    lemma ExitCodeSays()
      ensures ExitCode() == Interrupted <==> interrupted
      ensures ExitCode() == Success <==> !interrupted && failures == []
      ensures ExitCode() == RemoteLockHandlingFailed <==> !interrupted && RemoteTrouble()
      ensures ExitCode() == LockResolutionFailed <==> !interrupted && !RemoteTrouble() && LocalTrouble()
      ensures ExitCode() == PrivilegeRequirementNotSatisfied
              <==> !interrupted && failures != [] && !RemoteTrouble() && !LocalTrouble() && PrivilegeTrouble()
      ensures ExitCode() == CompletedWithFailures
              <==> !interrupted && failures != [] && !RemoteTrouble() && !LocalTrouble() && !PrivilegeTrouble()
    {
    }
  }
}
