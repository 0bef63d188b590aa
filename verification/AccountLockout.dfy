/** The lockout policy over a whole login log. A lockout is honoured against the
    time a login is committed; against the time the caller puts on the login it is
    honoured exactly as long as the lock is still on record. */
module AccountLockout {
  import opened Common
  import opened AccountLog

  /** The entry is a login that the replay applied to this user's account. */
  predicate Touches(before: Log, after: Log, entry: Entry, u: Name) {
    && before.Log? && after.Log? && entry.kind == Login && entry.event.username == u && !Unidentified(entry)
    && u in before.history && u in after.history
  }

  /** The login set a new lock: the account moved and is locked. */
  predicate SetsLock(before: Log, after: Log, entry: Entry, u: Name) {
    && Touches(before, after, entry, u)
    && before.history[u].version != after.history[u].version && after.history[u].lockedUntil != 0
  }

  /** The end of the lockout that the latest run of failures set, zero when there was none. */
  function LatestLock(config: Config, h: Hash, accounts: map<Name, Account>, audit: seq<Entry>, u: Name): int {
    if audit == [] then 0 else
    var before := Replay(config, h, accounts, audit[..|audit| - 1]);
    var after := Replay(config, h, accounts, audit);
    if SetsLock(before, after, audit[|audit| - 1], u) then after.history[u].lockedUntil
    else LatestLock(config, h, accounts, audit[..|audit| - 1], u)
  }

  /** The lock is on record, or its end has been passed by a commit. */
  predicate Guarded(log: Log, u: Name, lock: int) {
    && log.Log?
    && (u !in log.history ==> lock == 0)
    && (u in log.history ==>
          && u in log.created
          && log.history[u].lastAuthenticated <= log.committed
          && (lock == 0 ==> log.history[u].lockedUntil == 0)
          && (lock != 0 ==> log.created[u] < lock)
          && (lock != 0 ==>
                || (log.history[u].lockedUntil == lock && log.history[u].lastAuthenticated < lock)
                || (log.history[u].lockedUntil == 0 && lock <= log.committed)))
  }

  /** The lock after one more entry. */
  function LockAfter(before: Log, after: Log, entry: Entry, u: Name, lock: int): int {
    if SetsLock(before, after, entry, u) then after.history[u].lockedUntil else lock
  }

  lemma LoginGuards(account: Account, at: int, status: Status, policy: Policy, created: int, committed: int, now: int,
                    lock: int)
    requires ApplyLogin(account, at, status == Authenticated, policy).Moved?
    requires account.lastAuthenticated <= committed <= now && created <= at <= now && 0 < created
    requires lock == 0 ==> account.lockedUntil == 0
    requires lock != 0 ==> created < lock
    requires lock != 0
             ==> (account.lockedUntil == lock && account.lastAuthenticated < lock)
                 || (account.lockedUntil == 0 && lock <= committed)
    ensures var next := ApplyLogin(account, at, status == Authenticated, policy).account;
            var after := if next.version != account.version && next.lockedUntil != 0 then next.lockedUntil else lock;
            && next.lastAuthenticated <= now
            && (after == 0 ==> next.lockedUntil == 0) && (after != 0 ==> created < after)
            && (after != 0
                ==> (next.lockedUntil == after && next.lastAuthenticated < after)
                    || (next.lockedUntil == 0 && after <= now))
  {
  }

  lemma ExtendGuards(config: Config, h: Hash, accounts: map<Name, Account>, log: Log, place: nat, entry: Entry,
                     u: Name, lock: int)
    requires Guarded(log, u, lock) && Extend(config, h, accounts, log, place, entry).Log?
    requires u in log.history ==> 0 < log.created[u]
    ensures var after := Extend(config, h, accounts, log, place, entry);
            Guarded(after, u, LockAfter(log, after, entry, u, lock)) && (u in after.history ==> 0 < after.created[u])
  {
    hide ApplyLogin, EntryDigest, Records;
    var after := Extend(config, h, accounts, log, place, entry);
    if entry.event.username == u && entry.kind == Login && !Unidentified(entry) {
      LoginGuards(log.history[u], entry.event.at, entry.event.status, config.policy, log.created[u], log.committed,
                  entry.committedAt, lock);
    }
  }

  lemma {:induction false} LogGuarded(config: Config, h: Hash, accounts: map<Name, Account>, audit: seq<Entry>, u: Name)
    requires Replay(config, h, accounts, audit).Log?
    ensures var log := Replay(config, h, accounts, audit);
            Guarded(log, u, LatestLock(config, h, accounts, audit, u)) && (u in log.history ==> 0 < log.created[u])
  {
    hide Extend, Guarded;
    if audit == [] {
      EmptyGuarded(config, h, accounts, u);
    } else {
      var front := audit[..|audit| - 1];
      ExtendNeedsLog(config, h, accounts, Replay(config, h, accounts, front), |front|, audit[|audit| - 1]);
      LogGuarded(config, h, accounts, front, u);
      ExtendGuards(config, h, accounts, Replay(config, h, accounts, front), |front|, audit[|audit| - 1], u,
                   LatestLock(config, h, accounts, front, u));
    }
  }

  lemma EmptyGuarded(config: Config, h: Hash, accounts: map<Name, Account>, u: Name)
    ensures Guarded(Replay(config, h, accounts, []), u, 0)
  {
  }

  /** An authenticated login of a replayed log is never committed before the end of the latest lockout. */
  lemma LockoutHonoured(config: Config, h: Hash, accounts: map<Name, Account>, audit: seq<Entry>, j: nat)
    requires Replay(config, h, accounts, audit).Log? && j < |audit|
    requires audit[j].kind == Login && audit[j].event.status == Authenticated
    ensures LatestLock(config, h, accounts, audit[..j], audit[j].event.username) <= audit[j].committedAt
  {
    hide LatestLock, Replay;
    var u := audit[j].event.username;
    PrefixReplays(config, h, accounts, audit, j);
    PrefixReplays(config, h, accounts, audit, j + 1);
    LogGuarded(config, h, accounts, audit[..j], u);
    assert audit[..j + 1] == audit[..j] + [audit[j]];
    ReplayAppend(config, h, accounts, audit[..j], audit[j]);
    AuthenticatedAfter(config, h, accounts, Replay(config, h, accounts, audit[..j]), j, audit[j],
                       LatestLock(config, h, accounts, audit[..j], u));
  }

  lemma AuthenticatedAfter(config: Config, h: Hash, accounts: map<Name, Account>, log: Log, place: nat, entry: Entry,
                           lock: int)
    requires Guarded(log, entry.event.username, lock) && Extend(config, h, accounts, log, place, entry).Log?
    requires entry.kind == Login && entry.event.status == Authenticated
    ensures lock <= entry.committedAt
  {
  }

  /** In every state the store can reach, lockouts are honoured. */
  lemma ReachableLockoutHonoured(config: Config, h: Hash, steps: seq<Step>, j: nat)
    requires Hashes(h) && j < |Run(config, h, steps).audit|
    requires var entry := Run(config, h, steps).audit[j]; entry.kind == Login && entry.event.status == Authenticated
    ensures var s := Run(config, h, steps);
            LatestLock(config, h, s.accounts, s.audit[..j], s.audit[j].event.username) <= s.audit[j].committedAt
  {
    hide Run, LatestLock;
    var s := Run(config, h, steps);
    RunValid(config, h, steps);
    ValidLog(config, h, s);
    LockoutHonoured(config, h, s.accounts, s.audit, j);
  }

  // ----- against the time on the login itself -----

  predicate Accepts(account: Account, at: int, policy: Policy) {
    var moved := ApplyLogin(account, at, true, policy);
    moved.Moved? && moved.status == Authenticated
  }

  /** After a lockout, every login that would be accepted carries a time past its
      end if and only if the lock is still on record. */
  lemma BackdatingExcludedExactly(config: Config, h: Hash, accounts: map<Name, Account>, audit: seq<Entry>, u: Name)
    requires ValidPolicy(config.policy) && Replay(config, h, accounts, audit).Log?
    requires var log := Replay(config, h, accounts, audit);
             u in log.history && !log.history[u].disabled && log.history[u].version < MAXIMUM_VERSION
    requires LatestLock(config, h, accounts, audit, u) != 0
    ensures var log := Replay(config, h, accounts, audit);
            u in log.created &&
            ((forall at | log.created[u] <= at && Accepts(log.history[u], at, config.policy) ::
              LatestLock(config, h, accounts, audit, u) <= at)
             <==> log.history[u].lockedUntil != 0)
  {
    hide Replay, LatestLock;
    LogGuarded(config, h, accounts, audit, u);
    var log := Replay(config, h, accounts, audit);
    if log.history[u].lockedUntil == 0 {
      assert Accepts(log.history[u], log.created[u], config.policy);
    }
  }
}
