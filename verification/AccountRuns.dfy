/** Lockouts counted from the log alone: a lock is set by exactly the login that
    completes a run of MaximumFailures failures, and lasts the policy's time. */
module AccountRuns {
  import opened Common
  import opened AccountLog
  import opened AccountLockout

  /** What the rows of one user say: failures since the last success, lock or creation, and the version. */
  datatype Tally = Tally(failures: nat, version: nat)

  function Counted(tally: Tally, entry: Entry): Tally {
    if entry.kind == Created then Tally(0, entry.version)
    else if entry.event.status == Authenticated then Tally(0, entry.version)
    else if entry.event.status == InvalidCredentials then Tally(tally.failures + 1, entry.version)
    else if entry.event.status == Locked && entry.version != tally.version then Tally(0, entry.version)
    else tally
  }

  /** The rows are read without the accounts, the policy or the replay. */
  function TallyOf(audit: seq<Entry>, u: Name): Tally {
    if audit == [] then Tally(0, 0) else
    var last := audit[|audit| - 1];
    var before := TallyOf(audit[..|audit| - 1], u);
    if last.event.username == u && !(last.kind == Login && Unidentified(last)) then Counted(before, last) else before
  }

  predicate Tallies(account: Account, tally: Tally, policy: Policy) {
    && tally.version == account.version
    && (account.lockedUntil != 0 ==> tally.failures == 0)
    && (account.lockedUntil == 0 ==> account.failed == tally.failures < policy.maximumFailures)
  }

  lemma LoginTallies(account: Account, at: int, entry: Entry, policy: Policy, tally: Tally)
    requires ValidPolicy(policy) && 0 < at && 0 <= account.lastAuthenticated && Tallies(account, tally, policy)
             && entry.kind == Login
    requires var moved := ApplyLogin(account, at, entry.event.status == Authenticated, policy);
             moved.Moved? && moved.status == entry.event.status && moved.account.version == entry.version
    ensures Tallies(ApplyLogin(account, at, entry.event.status == Authenticated, policy).account,
                    Counted(tally, entry), policy)
  {
  }

  ghost predicate LogTallies(log: Log, audit: seq<Entry>, u: Name, policy: Policy) {
    && log.Log?
    && (u in log.history
        ==> Tallies(log.history[u], TallyOf(audit, u), policy) && 0 <= log.history[u].lastAuthenticated)
  }

  /** Replaying the log and counting its rows agree, for every user. */
  lemma {:induction false} ReplayTallies(config: Config, h: Hash, accounts: map<Name, Account>, audit: seq<Entry>,
                                         u: Name)
    requires ValidPolicy(config.policy) && Replay(config, h, accounts, audit).Log?
    ensures LogTallies(Replay(config, h, accounts, audit), audit, u, config.policy)
  {
    hide Extend, Tallies, Counted;
    if audit != [] {
      var front, last := audit[..|audit| - 1], audit[|audit| - 1];
      ExtendNeedsLog(config, h, accounts, Replay(config, h, accounts, front), |front|, last);
      ReplayTallies(config, h, accounts, front, u);
      ExtendTallies(config, h, accounts, Replay(config, h, accounts, front), |front|, last, u, TallyOf(front, u));
    }
  }

  lemma ExtendTallies(config: Config, h: Hash, accounts: map<Name, Account>, log: Log, place: nat, entry: Entry,
                      u: Name, tally: Tally)
    requires ValidPolicy(config.policy) && log.Log? && Extend(config, h, accounts, log, place, entry).Log?
    requires u in log.history ==> Tallies(log.history[u], tally, config.policy) && 0 <= log.history[u].lastAuthenticated
    ensures var after := Extend(config, h, accounts, log, place, entry);
            var counted := if entry.event.username == u && !(entry.kind == Login && Unidentified(entry))
                           then Counted(tally, entry) else tally;
            u in after.history ==> && Tallies(after.history[u], counted, config.policy)
                                   && 0 <= after.history[u].lastAuthenticated
  {
    hide EntryDigest;
    if entry.event.username == u && entry.kind == Login && !Unidentified(entry) {
      hide ApplyLogin, Counted, Tallies;
      LoginTallies(log.history[u], entry.event.at, entry, config.policy, tally);
      LoginTime(log.history[u], entry.event.at, entry.event.status == Authenticated, config.policy);
    }
  }

  lemma LoginTime(account: Account, at: int, passwordValid: bool, policy: Policy)
    requires 0 <= account.lastAuthenticated && ApplyLogin(account, at, passwordValid, policy).Moved? && 0 < at
    ensures 0 <= ApplyLogin(account, at, passwordValid, policy).account.lastAuthenticated
  {
  }

  /** The failing login of this user is the one that completes the run. */
  predicate CompletesRun(audit: seq<Entry>, entry: Entry, policy: Policy) {
    && entry.kind == Login && !Unidentified(entry) && entry.event.status != Authenticated
    && entry.version != TallyOf(audit, entry.event.username).version
    && TallyOf(audit, entry.event.username).failures + 1 == policy.maximumFailures
  }

  /** A login sets a lock if and only if it completes a run of MaximumFailures failures. */
  lemma LockedExactlyByTheRun(config: Config, h: Hash, accounts: map<Name, Account>, audit: seq<Entry>, j: nat)
    requires ValidPolicy(config.policy) && Replay(config, h, accounts, audit).Log? && j < |audit|
    ensures var before, after := Replay(config, h, accounts, audit[..j]), Replay(config, h, accounts, audit[..j + 1]);
            var u := audit[j].event.username;
            && (SetsLock(before, after, audit[j], u) <==> CompletesRun(audit[..j], audit[j], config.policy))
            && (SetsLock(before, after, audit[j], u) ==>
                  audit[j].event.at + config.policy.lockout <= after.history[u].lockedUntil
                    && audit[j].event.status == Locked)
  {
    hide Replay, LogTallies;
    var u := audit[j].event.username;
    var front := audit[..j];
    PrefixReplays(config, h, accounts, audit, j);
    PrefixReplays(config, h, accounts, audit, j + 1);
    assert audit[..j + 1] == front + [audit[j]];
    ReplayAppend(config, h, accounts, front, audit[j]);
    ReplayTallies(config, h, accounts, front, u);
    OneLogin(config, h, accounts, Replay(config, h, accounts, front), front, j, audit[j]);
  }

  lemma OneLogin(config: Config, h: Hash, accounts: map<Name, Account>, log: Log, audit: seq<Entry>, place: nat,
                 entry: Entry)
    requires ValidPolicy(config.policy) && LogTallies(log, audit, entry.event.username, config.policy)
    requires Extend(config, h, accounts, log, place, entry).Log?
    ensures var after := Extend(config, h, accounts, log, place, entry);
            var u := entry.event.username;
            && (SetsLock(log, after, entry, u) <==> CompletesRun(audit, entry, config.policy))
            && (SetsLock(log, after, entry, u) ==>
                  entry.event.at + config.policy.lockout <= after.history[u].lockedUntil
                    && entry.event.status == Locked)
  {
    hide EntryDigest, TallyOf;
  }

  /** Measured from the commit that sets it, the lock lasts the policy's time if and
      only if the time the attempt counts for is the time of that commit. */
  lemma LockOutlastsCommitExactly(config: Config, h: Hash, accounts: map<Name, Account>, audit: seq<Entry>, j: nat)
    requires ValidPolicy(config.policy) && Replay(config, h, accounts, audit).Log? && j < |audit|
    requires CompletesRun(audit[..j], audit[j], config.policy)
    ensures var before, after := Replay(config, h, accounts, audit[..j]), Replay(config, h, accounts, audit[..j + 1]);
            var u := audit[j].event.username;
            && before.Log? && after.Log? && u in before.history && u in after.history
            && (audit[j].committedAt + config.policy.lockout <= after.history[u].lockedUntil
                <==> Effective(before.history[u], audit[j].event.at) == audit[j].committedAt)
  {
    hide Replay, LogTallies, Guarded;
    var u := audit[j].event.username;
    var front := audit[..j];
    PrefixReplays(config, h, accounts, audit, j);
    PrefixReplays(config, h, accounts, audit, j + 1);
    assert audit[..j + 1] == front + [audit[j]];
    ReplayAppend(config, h, accounts, front, audit[j]);
    LockedExactlyByTheRun(config, h, accounts, audit, j);
    LogGuarded(config, h, accounts, front, u);
    OneLock(config, h, accounts, Replay(config, h, accounts, front), j, audit[j],
            LatestLock(config, h, accounts, front, u));
  }

  lemma OneLock(config: Config, h: Hash, accounts: map<Name, Account>, log: Log, place: nat, entry: Entry, lock: int)
    requires Guarded(log, entry.event.username, lock) && Extend(config, h, accounts, log, place, entry).Log?
    requires SetsLock(log, Extend(config, h, accounts, log, place, entry), entry, entry.event.username)
    ensures var after := Extend(config, h, accounts, log, place, entry);
            var u := entry.event.username;
            entry.committedAt + config.policy.lockout <= after.history[u].lockedUntil
            <==> Effective(log.history[u], entry.event.at) == entry.committedAt
  {
    hide EntryDigest;
  }
}
