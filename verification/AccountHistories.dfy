/** Two histories the account store accepts, step by step, that show how far a
    lockout reaches: the times on logins are the caller's, only commits are ordered. */
module AccountHistories {
  import opened Common
  import opened AccountLog
  import opened AccountLockout

  // ----- the latest lock, step by step -----

  lemma {:induction false} LatestLockFrame(config: Config, h: Hash, before: map<Name, Account>,
                                           after: map<Name, Account>, audit: seq<Entry>, u: Name)
    requires SameBase(before, after) && Replay(config, h, before, audit).Log?
    ensures LatestLock(config, h, after, audit, u) == LatestLock(config, h, before, audit, u)
  {
    hide Extend, SameBase, SetsLock;
    ReplayFrame(config, h, before, after, audit);
    if audit != [] {
      var front := audit[..|audit| - 1];
      ExtendNeedsLog(config, h, before, Replay(config, h, before, front), |front|, audit[|audit| - 1]);
      ReplayFrame(config, h, before, after, front);
      LatestLockFrame(config, h, before, after, front, u);
    }
  }

  function LockNow(current: Account, next: Account, lock: int): int {
    if next.version != current.version && next.lockedUntil != 0 then next.lockedUntil else lock
  }

  lemma LatestLockMoves(config: Config, h: Hash, s: State, created: map<Name, int>, proposal: Proposal, event: Event,
                        now: int)
    requires Valid(config, h, s) && Hashes(h) && created == Replay(config, h, s.accounts, s.audit).created
    requires Commits(config, s, created, proposal, event, now) && event.tenant != NO_NAME
    ensures var n := Moves(h, s, proposal.next, event, now);
            LatestLock(config, h, n.accounts, n.audit, event.username)
            == LockNow(s.accounts[event.username], proposal.next,
                       LatestLock(config, h, s.accounts, s.audit, event.username))
  {
    hide Replay, ApplyLogin, EntryDigest, ValidAccounts, SameBase, ValidAccount, Appendable;
    var n := Moves(h, s, proposal.next, event, now);
    LoginKeepsValid(config, h, s, created, proposal, event, now);
    SameBaseAfter(config, s, created, proposal, event, now);
    ReplayFrame(config, h, s.accounts, n.accounts, s.audit);
    LatestLockFrame(config, h, s.accounts, n.accounts, s.audit, event.username);
    assert n.audit[..|n.audit| - 1] == s.audit;
  }

  lemma SameBaseAfter(config: Config, s: State, created: map<Name, int>, proposal: Proposal, event: Event, now: int)
    requires Commits(config, s, created, proposal, event, now)
    ensures SameBase(s.accounts, s.accounts[event.username := proposal.next]) && event.username in s.accounts
  {
    hide ApplyLogin;
    LoginKeepsBase(s.accounts[event.username], event.at, event.status == Authenticated, config.policy);
  }

  // ----- one account, one attempt at a time -----

  /** The store holds this one account, with so many rows, the last committed at `head`, and its latest lock. */
  ghost predicate Holds(config: Config, h: Hash, s: State, account: Account, rows: nat, head: int, born: int,
                        lock: int) {
    && Valid(config, h, s) && s.accounts == map[account.username := account] && |s.audit| == rows
    && HeadTime(s.audit) == head
    && Replay(config, h, s.accounts, s.audit).created == map[account.username := born]
    && LatestLock(config, h, s.accounts, s.audit, account.username) == lock
  }

  predicate Plain(config: Config, account: Account) {
    && account.tenant == config.tenant != NO_NAME && account.user != NO_NAME && account.username != NO_NAME
    && !account.disabled
  }

  function AttemptStep(account: Account, at: int, ok: bool, now: int, policy: Policy): Step
    requires ApplyLogin(account, at, ok, policy).Moved?
  {
    var moved := ApplyLogin(account, at, ok, policy);
    LoginStep(Proposal(account.version, moved.account),
              Event(at, account.username, account.tenant, account.user, moved.status), now)
  }

  lemma Attempt(config: Config, h: Hash, s: State, account: Account, rows: nat, head: int, born: int, lock: int,
                at: int, ok: bool, now: int)
    requires Hashes(h) && Holds(config, h, s, account, rows, head, born, lock) && Plain(config, account)
             && rows < config.entries
    requires ApplyLogin(account, at, ok, config.policy).Moved? && 1 <= account.version < MAXIMUM_INTEGER
    requires ValidAccount(config, ApplyLogin(account, at, ok, config.policy).account)
    requires 0 < born <= at <= now <= LAST_INSTANT && head <= now
    ensures var moved := ApplyLogin(account, at, ok, config.policy);
            var n := Next(config, h, s, AttemptStep(account, at, ok, now, config.policy));
            && Holds(config, h, n, moved.account, rows + 1, now, born, LockNow(account, moved.account, lock))
            && n.audit[..rows] == s.audit && n.audit[rows].kind == Login && n.audit[rows].committedAt == now
            && n.audit[rows].event == Event(at, account.username, account.tenant, account.user, moved.status)
  {
    hide Replay, ApplyLogin, EntryDigest, ValidAccounts, LatestLock, ValidAccount;
    var moved := ApplyLogin(account, at, ok, config.policy);
    VerdictFromStatus(account, at, ok, config.policy);
    var step := AttemptStep(account, at, ok, now, config.policy);
    var created := Replay(config, h, s.accounts, s.audit).created;
    assert Commits(config, s, created, step.proposal, step.event, now);
    LoginKeepsValid(config, h, s, created, step.proposal, step.event, now);
    LatestLockMoves(config, h, s, created, step.proposal, step.event, now);
    SameName(account, at, ok, config.policy);
    assert s.accounts[account.username := moved.account] == map[account.username := moved.account];
  }

  lemma SameName(account: Account, at: int, ok: bool, policy: Policy)
    requires ApplyLogin(account, at, ok, policy).Moved?
    ensures ApplyLogin(account, at, ok, policy).account.username == account.username
  {
  }

  function CreatedState(h: Hash, account: Account, now: int): State {
    State(map[account.username := account],
          [Row(h, [], Created, CreationEvent(account, now), account.version, h.account(account), now)])
  }

  lemma CreationRuns(config: Config, h: Hash, account: Account, now: int)
    requires account == Newborn(account) && ValidAccount(config, account)
    requires ValidTime(now) && 0 < config.records && 0 < config.entries
    ensures Run(config, h, [CreateStep(account, now)]) == CreatedState(h, account, now)
  {
    hide Row, ValidAccount;
    var steps, none := [CreateStep(account, now)], State(map[], []);
    assert steps[..0] == [];
    assert Creatable(config, none, account, now);
    assert none.accounts[account.username := account] == map[account.username := account];
  }

  /** A log of one row has no lock, and its creation time is the row's. */
  lemma OneRow(config: Config, h: Hash, accounts: map<Name, Account>, row: Entry)
    requires row.kind == Created && Replay(config, h, accounts, [row]).Log?
    ensures Replay(config, h, accounts, [row]).created == map[row.event.username := row.event.at]
    ensures LatestLock(config, h, accounts, [row], row.event.username) == 0
  {
    hide Linked, ApplyLogin, EntryDigest, Records;
    assert [row][..0] == [];
  }

  lemma Creation(config: Config, h: Hash, account: Account, now: int)
    requires Hashes(h) && Plain(config, account) && account == Newborn(account) && ValidAccount(config, account)
    requires ValidTime(now) && 0 < config.records && 0 < config.entries
    ensures Holds(config, h, Run(config, h, [CreateStep(account, now)]), account, 1, now, now, 0)
  {
    hide Run, Replay, LatestLock, ValidAccounts, ValidAccount, EntryDigest;
    RunValid(config, h, [CreateStep(account, now)]);
    CreationRuns(config, h, account, now);
    var s := CreatedState(h, account, now);
    OneRow(config, h, s.accounts, s.audit[0]);
  }

  lemma RunMore(config: Config, h: Hash, steps: seq<Step>, step: Step)
    ensures Run(config, h, steps + [step]) == Next(config, h, Run(config, h, steps), step)
  {
    hide Next;
    assert (steps + [step])[..|steps|] == steps;
  }

  function First(config: Config, user: Name, username: Name, hash: Name): Account {
    Account(config.tenant, user, username, hash, false, 0, 0, 0, 1)
  }

  /** The smallest policy that needs a run: two failures, ten units of lockout. */
  predicate Small(config: Config) {
    config.tenant != NO_NAME && config.policy == Policy(2, 10) && 0 < config.records && 5 <= config.entries
  }

  /** Two failures lock the account until 16, an attempt at 20 clears the lock, and then a
      login dated 7 is committed: the store accepts it, with a time inside the lockout. */
  lemma BackdatedLoginCommitted(config: Config, h: Hash, user: Name, username: Name, hash: Name)
    returns (steps: seq<Step>)
    requires Hashes(h) && Small(config) && user != NO_NAME && username != NO_NAME && hash != NO_NAME
    ensures var s := Run(config, h, steps);
            && |s.audit| == 5 && s.audit[4].kind == Login && s.audit[4].event.username == username
            && s.audit[4].event.status == Authenticated
            && s.audit[4].event.at < LatestLock(config, h, s.accounts, s.audit[..4], username) <= s.audit[4].committedAt
  {
    hide Run, Holds, Replay, LatestLock;
    var a1 := First(config, user, username, hash);
    steps := [CreateStep(a1, 1)];
    Creation(config, h, a1, 1);
    var a2 := ApplyLogin(a1, 5, false, config.policy).account;
    Attempt(config, h, Run(config, h, steps), a1, 1, 1, 1, 0, 5, false, 5);
    RunMore(config, h, steps, AttemptStep(a1, 5, false, 5, config.policy));
    steps := steps + [AttemptStep(a1, 5, false, 5, config.policy)];
    var a3 := ApplyLogin(a2, 6, false, config.policy).account;
    Attempt(config, h, Run(config, h, steps), a2, 2, 5, 1, 0, 6, false, 6);
    RunMore(config, h, steps, AttemptStep(a2, 6, false, 6, config.policy));
    steps := steps + [AttemptStep(a2, 6, false, 6, config.policy)];
    var a4 := ApplyLogin(a3, 20, false, config.policy).account;
    Attempt(config, h, Run(config, h, steps), a3, 3, 6, 1, 16, 20, false, 20);
    RunMore(config, h, steps, AttemptStep(a3, 20, false, 20, config.policy));
    steps := steps + [AttemptStep(a3, 20, false, 20, config.policy)];
    Attempt(config, h, Run(config, h, steps), a4, 4, 20, 1, 16, 7, true, 21);
    RunMore(config, h, steps, AttemptStep(a4, 7, true, 21, config.policy));
    BeforeLast(config, h, Run(config, h, steps), a4, 4, 20, 1, 16, 7, true, 21);
    steps := steps + [AttemptStep(a4, 7, true, 21, config.policy)];
  }

  /** The lock a row was written under, seen from the state after it. */
  lemma BeforeLast(config: Config, h: Hash, s: State, account: Account, rows: nat, head: int, born: int, lock: int,
                   at: int, ok: bool, now: int)
    requires Hashes(h) && Holds(config, h, s, account, rows, head, born, lock) && Plain(config, account)
             && rows < config.entries
    requires ApplyLogin(account, at, ok, config.policy).Moved? && 1 <= account.version < MAXIMUM_INTEGER
    requires ValidAccount(config, ApplyLogin(account, at, ok, config.policy).account)
    requires 0 < born <= at <= now <= LAST_INSTANT && head <= now
    ensures var n := Next(config, h, s, AttemptStep(account, at, ok, now, config.policy));
            |n.audit| == rows + 1 && n.audit[..rows] == s.audit
            && LatestLock(config, h, n.accounts, n.audit[..rows], account.username) == lock
  {
    hide Replay, ApplyLogin, LatestLock, ValidAccount, Next;
    Attempt(config, h, s, account, rows, head, born, lock, at, ok, now);
    var next := ApplyLogin(account, at, ok, config.policy).account;
    LoginKeepsBase(account, at, ok, config.policy);
    SameName(account, at, ok, config.policy);
    var n := Next(config, h, s, AttemptStep(account, at, ok, now, config.policy));
    assert SameBase(s.accounts, n.accounts);
    LatestLockFrame(config, h, s.accounts, n.accounts, s.audit, account.username);
  }

  /** A second failure dated 6 but committed at 100 locks until 16: a login at 101 is
      committed one unit after the lock was, although a lockout lasts ten. */
  lemma LateFailureLocksShort(config: Config, h: Hash, user: Name, username: Name, hash: Name)
    returns (steps: seq<Step>)
    requires Hashes(h) && Small(config) && user != NO_NAME && username != NO_NAME && hash != NO_NAME
    ensures var s := Run(config, h, steps);
            && |s.audit| == 4 && s.audit[2].event.status == Locked && s.audit[3].event.status == Authenticated
            && LatestLock(config, h, s.accounts, s.audit[..3], username) == 16
            && s.audit[2].committedAt == 100 && s.audit[3].committedAt == 101
  {
    hide Run, Holds, Replay, LatestLock;
    var a1 := First(config, user, username, hash);
    steps := [CreateStep(a1, 1)];
    Creation(config, h, a1, 1);
    var a2 := ApplyLogin(a1, 5, false, config.policy).account;
    Attempt(config, h, Run(config, h, steps), a1, 1, 1, 1, 0, 5, false, 5);
    RunMore(config, h, steps, AttemptStep(a1, 5, false, 5, config.policy));
    steps := steps + [AttemptStep(a1, 5, false, 5, config.policy)];
    var a3 := ApplyLogin(a2, 6, false, config.policy).account;
    Attempt(config, h, Run(config, h, steps), a2, 2, 5, 1, 0, 6, false, 100);
    RunMore(config, h, steps, AttemptStep(a2, 6, false, 100, config.policy));
    steps := steps + [AttemptStep(a2, 6, false, 100, config.policy)];
    Attempt(config, h, Run(config, h, steps), a3, 3, 100, 1, 16, 101, true, 101);
    RunMore(config, h, steps, AttemptStep(a3, 101, true, 101, config.policy));
    BeforeLast(config, h, Run(config, h, steps), a3, 3, 100, 1, 16, 101, true, 101);
    steps := steps + [AttemptStep(a3, 101, true, 101, config.policy)];
  }
}
