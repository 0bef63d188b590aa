/** What an attempt comes to and which transactions the store accepts: each outcome with the
    exact condition under which it arises, and disabled accounts over every run. */
module AccountDecisions {
  import opened Common
  import opened AccountLog

  // ----- one attempt -----

  const DAY := 24 * 3_600 * 1_000_000_000

  /** Between 1 and 100 failures, and at most thirty days of lockout. */
  predicate Usable(policy: Policy) {
    1 <= policy.maximumFailures && policy.maximumFailures <= 100 && 0 < policy.lockout && policy.lockout <= 30 * DAY
  }

  /** A lock is on record, and neither the attempt nor the last success lies at or after its end. */
  predicate LockRuns(account: Account, at: int) {
    account.lockedUntil != 0 && at < account.lockedUntil && account.lastAuthenticated < account.lockedUntil
  }

  /** One more failure reaches the maximum; an expired lock starts the count again. */
  predicate LastChance(account: Account, policy: Policy) {
    if account.lockedUntil == 0 then policy.maximumFailures <= account.failed + 1 else policy.maximumFailures == 1
  }

  /** The attempt is judged by its password. */
  predicate Judged(account: Account, at: int, policy: Policy) {
    && Usable(policy) && at != 0 && !account.disabled && !LockRuns(account, at)
    && account.version != 0xffff_ffff_ffff_ffff
  }

  /** Each outcome of an attempt arises under exactly one condition. */
  lemma LoginDecided(account: Account, at: int, passwordValid: bool, policy: Policy)
    ensures var moved := ApplyLogin(account, at, passwordValid, policy);
            && (moved.Moved? && moved.status == Authenticated <==> Judged(account, at, policy) && passwordValid)
            && (moved.Moved? && moved.status == Disabled <==> Usable(policy) && at != 0 && account.disabled)
            && (moved.Moved? && moved.status == InvalidCredentials
                <==> Judged(account, at, policy) && !passwordValid && !LastChance(account, policy))
            && (moved.Moved? && moved.status == Locked
                <==> || (Usable(policy) && at != 0 && !account.disabled && LockRuns(account, at))
                     || (Judged(account, at, policy) && !passwordValid && LastChance(account, policy)))
            && (moved.Moved? ==> moved.status != NoStatus)
  {
  }

  /** What an attempt leaves behind: nothing unless it was judged; then one version more, and only the
      failure count, the lock and the time of the last success may differ. */
  lemma LoginLeaves(account: Account, at: int, passwordValid: bool, policy: Policy)
    requires ApplyLogin(account, at, passwordValid, policy).Moved?
    ensures var next := ApplyLogin(account, at, passwordValid, policy).account;
            && (!Judged(account, at, policy) ==> next == account)
            && (Judged(account, at, policy) ==>
                  && next.version == account.version + 1
                  && next == account.(failed := next.failed, lockedUntil := next.lockedUntil,
                                      lastAuthenticated := next.lastAuthenticated, version := next.version))
            && (Judged(account, at, policy) && passwordValid ==>
                  && next.failed == 0 && next.lockedUntil == 0 && at <= next.lastAuthenticated
                  && account.lastAuthenticated <= next.lastAuthenticated
                  && (next.lastAuthenticated == at || next.lastAuthenticated == account.lastAuthenticated))
            && (Judged(account, at, policy) && !passwordValid ==>
                  && next.lastAuthenticated == account.lastAuthenticated
                  && (LastChance(account, policy) ==>
                        && at + policy.lockout <= next.lockedUntil
                        && account.lastAuthenticated + policy.lockout <= next.lockedUntil
                        && (next.lockedUntil == at + policy.lockout
                            || next.lockedUntil == account.lastAuthenticated + policy.lockout)
                        && policy.maximumFailures <= next.failed)
                  && (!LastChance(account, policy) ==>
                        && next.lockedUntil == 0
                        && next.failed == 1 + (if account.lockedUntil == 0 then account.failed else 0)))
  {
  }

  // ----- disabled accounts -----

  /** A disabled account is as it was created. */
  ghost predicate Frozen(accounts: map<Name, Account>, history: map<Name, Account>) {
    forall u | u in history ::
      && u in accounts && history[u].disabled == accounts[u].disabled
      && (accounts[u].disabled ==> history[u] == Newborn(accounts[u]))
  }

  lemma ExtendFrozen(config: Config, h: Hash, accounts: map<Name, Account>, log: Log, place: nat, entry: Entry)
    requires log.Log? && Frozen(accounts, log.history) && Extend(config, h, accounts, log, place, entry).Log?
    ensures Frozen(accounts, Extend(config, h, accounts, log, place, entry).history)
    ensures entry.kind == Login && !Unidentified(entry) ==>
              && entry.event.username in accounts
              && (accounts[entry.event.username].disabled <==> entry.event.status == Disabled)
              && (accounts[entry.event.username].disabled ==>
                    Records(h, entry, Newborn(accounts[entry.event.username])))
  {
    hide Linked, StillLocked, Failures;
  }

  lemma {:induction false} ReplayFrozen(config: Config, h: Hash, accounts: map<Name, Account>, audit: seq<Entry>)
    requires Replay(config, h, accounts, audit).Log?
    ensures Frozen(accounts, Replay(config, h, accounts, audit).history)
  {
    hide Extend;
    if audit != [] {
      var front := audit[..|audit| - 1];
      ExtendNeedsLog(config, h, accounts, Replay(config, h, accounts, front), |front|, audit[|audit| - 1]);
      ReplayFrozen(config, h, accounts, front);
      ExtendFrozen(config, h, accounts, Replay(config, h, accounts, front), |front|, audit[|audit| - 1]);
    }
  }

  /** In every reachable state a login row of a known account says Disabled if and only if the account is
      disabled, and then records the account as it was created; the stored account still is. */
  lemma DisabledStaysOut(config: Config, h: Hash, steps: seq<Step>, j: nat)
    requires Hashes(h) && j < |Run(config, h, steps).audit|
    requires var entry := Run(config, h, steps).audit[j]; entry.kind == Login && !Unidentified(entry)
    ensures var s := Run(config, h, steps);
            var entry := s.audit[j];
            var u := entry.event.username;
            && u in s.accounts && (s.accounts[u].disabled <==> entry.event.status == Disabled)
            && (s.accounts[u].disabled ==>
                  && entry.version == 1 && entry.accountDigest == h.account(s.accounts[u])
                  && s.accounts[u] == Newborn(s.accounts[u]))
  {
    hide Run, Extend, ValidAccounts;
    var s := Run(config, h, steps);
    RunValid(config, h, steps);
    ReplayFrozen(config, h, s.accounts, s.audit);
    PrefixReplays(config, h, s.accounts, s.audit, j + 1);
    var upTo := s.audit[..j + 1];
    assert upTo[..j] == s.audit[..j] && upTo[j] == s.audit[j];
    ExtendNeedsLog(config, h, s.accounts, Replay(config, h, s.accounts, s.audit[..j]), j, s.audit[j]);
    ReplayFrozen(config, h, s.accounts, s.audit[..j]);
    ExtendFrozen(config, h, s.accounts, Replay(config, h, s.accounts, s.audit[..j]), j, s.audit[j]);
  }

  /** In particular nobody is ever authenticated to a disabled account. */
  lemma DisabledNeverAuthenticated(config: Config, h: Hash, steps: seq<Step>, j: nat)
    requires Hashes(h) && j < |Run(config, h, steps).audit|
    requires Run(config, h, steps).audit[j].event.status == Authenticated
    ensures var s := Run(config, h, steps);
            var u := s.audit[j].event.username;
            s.audit[j].kind == Login && u in s.accounts && !s.accounts[u].disabled
  {
    hide Run, ValidAccounts;
    var s := Run(config, h, steps);
    RunValid(config, h, steps);
    PrefixReplays(config, h, s.accounts, s.audit, j + 1);
    var upTo := s.audit[..j + 1];
    assert upTo[..j] == s.audit[..j] && upTo[j] == s.audit[j];
    AuthenticatedIsKnown(config, h, s.accounts, Replay(config, h, s.accounts, s.audit[..j]), j, s.audit[j]);
    DisabledStaysOut(config, h, steps, j);
  }

  lemma AuthenticatedIsKnown(config: Config, h: Hash, accounts: map<Name, Account>, log: Log, place: nat, entry: Entry)
    requires Extend(config, h, accounts, log, place, entry).Log? && entry.event.status == Authenticated
    ensures entry.kind == Login && !Unidentified(entry)
  {
    hide Linked, ApplyLogin;
  }

  // ----- what the store accepts -----

  /** The row at this place created the account. */
  predicate Births(audit: seq<Entry>, k: int, u: Name) {
    0 <= k < |audit| && audit[k].kind == Created && audit[k].event.username == u
  }

  /** The creation times of the replay are those of the rows that created the accounts. */
  ghost predicate Dated(audit: seq<Entry>, created: map<Name, int>) {
    && (forall u | u in created :: exists k :: Births(audit, k, u))
    && (forall k, u | Births(audit, k, u) :: u in created && created[u] == audit[k].event.at)
  }

  lemma ExtendDated(config: Config, h: Hash, accounts: map<Name, Account>, log: Log, front: seq<Entry>, entry: Entry)
    requires log.Log? && Dated(front, log.created) && (forall u | u in log.created :: u in log.history)
    requires Extend(config, h, accounts, log, |front|, entry).Log?
    ensures var after := Extend(config, h, accounts, log, |front|, entry);
            Dated(front + [entry], after.created) && forall u | u in after.created :: u in after.history
  {
    hide Linked, ApplyLogin, Records;
    var audit, created := front + [entry], Extend(config, h, accounts, log, |front|, entry).created;
    assert entry.kind == Created ==> !Unidentified(entry) || entry.event.username !in log.history;
    forall u | u in created ensures exists k :: Births(audit, k, u) {
      if u in log.created {
        var k :| Births(front, k, u);
        assert Births(audit, k, u);
      } else {
        assert Births(audit, |front|, u);
      }
    }
    forall k, u | Births(audit, k, u) ensures u in created && created[u] == audit[k].event.at {
      if k < |front| {
        assert Births(front, k, u);
      }
    }
  }

  lemma {:induction false} ReplayDated(config: Config, h: Hash, accounts: map<Name, Account>, audit: seq<Entry>)
    requires Replay(config, h, accounts, audit).Log?
    ensures var log := Replay(config, h, accounts, audit);
            Dated(audit, log.created) && forall u | u in log.created :: u in log.history
  {
    hide Extend, Dated;
    if audit == [] {
      NothingDated();
    } else {
      var front, last := audit[..|audit| - 1], audit[|audit| - 1];
      ExtendNeedsLog(config, h, accounts, Replay(config, h, accounts, front), |front|, last);
      ReplayDated(config, h, accounts, front);
      ExtendDated(config, h, accounts, Replay(config, h, accounts, front), front, last);
      assert audit == front + [last];
    }
  }

  lemma NothingDated()
    ensures Dated([], map[])
  {
  }

  /** There is room for a row, and the clock has not gone back behind the last one or the event. */
  predicate InTime(config: Config, audit: seq<Entry>, at: int, now: int) {
    && |audit| < config.entries && 0 < at && at <= now && now <= LAST_INSTANT
    && (audit != [] ==> audit[|audit| - 1].committedAt <= now)
  }

  /** The caller proposes what this attempt makes of the account it has read. */
  ghost predicate Honest(config: Config, account: Account, proposal: Proposal, event: Event) {
    && proposal.Proposal? && proposal.expectedVersion == account.version
    && event.tenant == account.tenant && event.user == account.user
    && exists passwordValid ::
         ApplyLogin(account, event.at, passwordValid, config.policy) == Moved(proposal.next, event.status)
  }

  /** A login of a known account that the store can take. */
  ghost predicate Acceptable(config: Config, s: State, proposal: Proposal, event: Event, now: int) {
    && event.username in s.accounts && Honest(config, s.accounts[event.username], proposal, event)
    && (forall k | Births(s.audit, k, event.username) :: s.audit[k].event.at <= event.at)
    && s.accounts[event.username].version < MAXIMUM_INTEGER && proposal.next.lockedUntil <= LAST_INSTANT
    && InTime(config, s.audit, event.at, now)
  }

  /** A failure under a name without an account, reported with neither tenant nor user nor account. */
  predicate Unknown(config: Config, s: State, proposal: Proposal, event: Event, now: int) {
    && event.username !in s.accounts && event.username != NO_NAME && proposal == NoAccount
    && event == Event(event.at, event.username, NO_NAME, NO_NAME, InvalidCredentials)
    && InTime(config, s.audit, event.at, now)
  }

  /** The row written, linked to the one before. */
  predicate Writes(h: Hash, before: seq<Entry>, after: seq<Entry>, kind: Kind, event: Event, version: nat, digest: Name,
                   now: int) {
    && |after| == |before| + 1 && after[..|before|] == before
    && var row := after[|before|];
       && row.sequence == |before| + 1 && row.kind == kind && row.event == event && row.committedAt == now
       && row.version == version && row.accountDigest == digest && row.digest == h.entry(row.(digest := NO_NAME))
       && row.previous == (if before == [] then NO_NAME else before[|before| - 1].digest)
  }

  lemma RowWritten(h: Hash, audit: seq<Entry>, kind: Kind, event: Event, version: nat, digest: Name, now: int)
    ensures Writes(h, audit, audit + [Row(h, audit, kind, event, version, digest, now)], kind, event, version, digest,
                   now)
  {
    var blank := Entry(|audit| + 1, HeadDigest(audit), NO_NAME, version, digest, kind, now, event);
    var row := Row(h, audit, kind, event, version, digest, now);
    assert row.(digest := NO_NAME) == blank == blank.(digest := NO_NAME);
  }

  /** The recomputed account fits the store if the lock's end does. */
  lemma NextFits(config: Config, account: Account, at: int, passwordValid: bool)
    requires ValidAccount(config, account) && ValidTime(at) && account.version < MAXIMUM_INTEGER
    requires ApplyLogin(account, at, passwordValid, config.policy).Moved?
    ensures var next := ApplyLogin(account, at, passwordValid, config.policy).account;
            ValidAccount(config, next) <==> next.lockedUntil <= LAST_INSTANT
  {
    hide StillLocked;
  }

  /** In every reachable state the store takes a login if and only if it is the honest outcome of an attempt on
      the current account, or a failure under an unknown name; it then stores exactly that and adds one row, and
      otherwise changes nothing. */
  lemma LoginAccepted(config: Config, h: Hash, steps: seq<Step>, proposal: Proposal, event: Event, now: int)
    requires Hashes(h)
    ensures var s := Run(config, h, steps);
            var n := Next(config, h, s, LoginStep(proposal, event, now));
            && (Acceptable(config, s, proposal, event, now) ==>
                  && n.accounts == s.accounts[event.username := proposal.next]
                  && Writes(h, s.audit, n.audit, Login, event, proposal.next.version, h.account(proposal.next), now))
            && (Unknown(config, s, proposal, event, now) ==>
                  n.accounts == s.accounts && Writes(h, s.audit, n.audit, Login, event, 0, NO_NAME, now))
            && (!Acceptable(config, s, proposal, event, now) && !Unknown(config, s, proposal, event, now) ==> n == s)
  {
    hide Run, ApplyLogin, Row, Writes, Replay;
    var s := Run(config, h, steps);
    RunValid(config, h, steps);
    var log := Replay(config, h, s.accounts, s.audit);
    ReplayDated(config, h, s.accounts, s.audit);
    ReplayHead(config, h, s.accounts, s.audit);
    RowWritten(h, s.audit, Login, event, 0, NO_NAME, now);
    if proposal.Proposal? {
      RowWritten(h, s.audit, Login, event, proposal.next.version, h.account(proposal.next), now);
    }
    CommitsExactly(config, h, s, log.created, proposal, event, now);
  }

  lemma CommitsExactly(config: Config, h: Hash, s: State, created: map<Name, int>, proposal: Proposal, event: Event,
                       now: int)
    requires ValidAccounts(config, s.accounts) && Dated(s.audit, created)
    requires forall u | u in s.accounts :: u in created
    ensures Commits(config, s, created, proposal, event, now) <==> Acceptable(config, s, proposal, event, now)
    ensures LogsUnknown(config, s, proposal, event, now) <==> Unknown(config, s, proposal, event, now)
  {
    hide ApplyLogin;
    if proposal.Proposal? && event.username in s.accounts {
      var account := s.accounts[event.username];
      var k :| Births(s.audit, k, event.username);
      VerdictBack(config, account, proposal, event);
      if account.version < MAXIMUM_INTEGER && ValidTime(event.at)
         && ApplyLogin(account, event.at, event.status == Authenticated, config.policy).Moved? {
        NextFits(config, account, event.at, event.status == Authenticated);
      }
    }
  }

  lemma VerdictBack(config: Config, account: Account, proposal: Proposal, event: Event)
    requires proposal.Proposal?
    ensures (exists passwordValid ::
               ApplyLogin(account, event.at, passwordValid, config.policy) == Moved(proposal.next, event.status))
            <==> ApplyLogin(account, event.at, event.status == Authenticated, config.policy)
                 == Moved(proposal.next, event.status)
  {
    hide ApplyLogin;
    if passwordValid :|
      ApplyLogin(account, event.at, passwordValid, config.policy) == Moved(proposal.next, event.status) {
      VerdictFromStatus(account, event.at, passwordValid, config.policy);
    }
  }

  /** An account as an administrator may hand it in: named, of this tenant, never used, with name and user free. */
  ghost predicate Welcome(config: Config, s: State, account: Account) {
    && account == Account(config.tenant, account.user, account.username, account.passwordHash, account.disabled,
                          0, 0, 0, 1)
    && account.user != NO_NAME && account.username != NO_NAME && account.passwordHash != NO_NAME
    && account.username !in s.accounts && (forall u | u in s.accounts :: s.accounts[u].user != account.user)
    && |s.accounts| < config.records
  }

  /** In every reachable state exactly the welcome accounts are created, each with its row. */
  lemma CreationAccepted(config: Config, h: Hash, steps: seq<Step>, account: Account, now: int)
    requires Hashes(h)
    ensures var s := Run(config, h, steps);
            var n := Next(config, h, s, CreateStep(account, now));
            var event := Event(now, account.username, account.tenant, account.user, NoStatus);
            if Welcome(config, s, account) && InTime(config, s.audit, now, now)
            then && n.accounts == s.accounts[account.username := account]
                 && Writes(h, s.audit, n.audit, Created, event, 1, h.account(account), now)
            else n == s
  {
    hide Run, Row, Writes, Replay;
    var s := Run(config, h, steps);
    RunValid(config, h, steps);
    RowWritten(h, s.audit, Created, CreationEvent(account, now), account.version, h.account(account), now);
    ReplayHead(config, h, s.accounts, s.audit);
  }

  // ----- what an accepted log says -----

  /** The row stands where it says, seals what it holds and the row before it, and time does not run back. */
  predicate Sealed(h: Hash, audit: seq<Entry>, k: nat)
    requires k < |audit|
  {
    var row := audit[k];
    && row.sequence == k + 1 && row.previous == (if k == 0 then NO_NAME else audit[k - 1].digest)
    && row.digest != NO_NAME && row.digest == h.entry(row.(digest := NO_NAME))
    && 0 < row.event.at && row.event.at <= row.committedAt && row.committedAt <= LAST_INSTANT
    && (k > 0 ==> audit[k - 1].committedAt <= row.committedAt)
  }

  /** A failure under a name nobody had been given yet. */
  ghost predicate Stranger(audit: seq<Entry>, k: nat)
    requires k < |audit|
  {
    var row := audit[k];
    && row.kind == Login && row.event.tenant == NO_NAME && row.event.user == NO_NAME
    && row.event.status == InvalidCredentials && row.version == 0 && row.accountDigest == NO_NAME
    && !exists j :: Births(audit[..k], j, row.event.username)
  }

  /** The first row of an account, or a later one dated after it. */
  ghost predicate OfAccount(config: Config, accounts: map<Name, Account>, audit: seq<Entry>, k: nat)
    requires k < |audit|
  {
    var row := audit[k];
    var u := row.event.username;
    && u in accounts && row.event.tenant == config.tenant && row.event.user == accounts[u].user
    && (row.kind == Created ==>
          row.event.status == NoStatus && row.version == 1 && !exists j :: Births(audit[..k], j, u))
    && (row.kind == Login ==>
          row.event.status != NoStatus && exists j :: Births(audit[..k], j, u) && audit[j].event.at <= row.event.at)
  }

  /** Every row of a log the loader accepts is sealed, names someone, and belongs to an account or to a stranger. */
  lemma RowsAccounted(config: Config, h: Hash, accounts: map<Name, Account>, audit: seq<Entry>, k: nat)
    requires Replay(config, h, accounts, audit).Log? && k < |audit|
    ensures Sealed(h, audit, k) && audit[k].event.username != NO_NAME
    ensures Stranger(audit, k) || OfAccount(config, accounts, audit, k)
  {
    hide Replay, ApplyLogin, Extend, Dated, Births, Sealed, Stranger, OfAccount;
    PrefixReplays(config, h, accounts, audit, k);
    PrefixReplays(config, h, accounts, audit, k + 1);
    assert audit[..k + 1] == audit[..k] + [audit[k]];
    ReplayAppend(config, h, accounts, audit[..k], audit[k]);
    ReplayHead(config, h, accounts, audit[..k]);
    ReplayDated(config, h, accounts, audit[..k]);
    RowSealed(config, h, accounts, Replay(config, h, accounts, audit[..k]), audit, k);
    RowOwned(config, h, accounts, Replay(config, h, accounts, audit[..k]), audit, k);
  }

  lemma RowSealed(config: Config, h: Hash, accounts: map<Name, Account>, log: Log, audit: seq<Entry>, k: nat)
    requires k < |audit| && log.Log? && Extend(config, h, accounts, log, k, audit[k]).Log?
    requires log.head == HeadDigest(audit[..k]) && log.committed == HeadTime(audit[..k])
    ensures Sealed(h, audit, k) && audit[k].event.username != NO_NAME
  {
    hide Outcome;
  }

  lemma RowOwned(config: Config, h: Hash, accounts: map<Name, Account>, log: Log, audit: seq<Entry>, k: nat)
    requires k < |audit| && log.Log? && Extend(config, h, accounts, log, k, audit[k]).Log?
    requires Dated(audit[..k], log.created)
    requires forall u :: u in log.history <==> u in log.created
    ensures Stranger(audit, k) || OfAccount(config, accounts, audit, k)
  {
    hide Linked, ApplyLogin;
    var row := audit[k];
    var u := row.event.username;
    if row.kind == Login && Unidentified(row) {
      assert Stranger(audit, k);
    } else if row.kind == Login {
      var moved := Outcome(config, h, accounts, log, row);
      StatusGiven(log.history[u], row.event.at, row.event.status == Authenticated, config.policy);
      var j :| Births(audit[..k], j, u);
      assert audit[..k][j] == audit[j];
    }
  }

  lemma StatusGiven(account: Account, at: int, passwordValid: bool, policy: Policy)
    ensures var moved := ApplyLogin(account, at, passwordValid, policy); moved.Moved? ==> moved.status != NoStatus
  {
    LoginDecided(account, at, passwordValid, policy);
  }

  /** In every reachable state the store keeps to its limits: as many accounts and rows as it has room for, no user
      twice, no account of another tenant, and no more failures on record than the policy allows. */
  lemma RunBounded(config: Config, h: Hash, steps: seq<Step>)
    requires Hashes(h)
    ensures var s := Run(config, h, steps);
            && |s.accounts| <= config.records && |s.audit| <= config.entries
            && (forall u, v | u in s.accounts && v in s.accounts && s.accounts[u].user == s.accounts[v].user :: u == v)
            && (forall u | u in s.accounts ::
                  && s.accounts[u].username == u && s.accounts[u].tenant == config.tenant
                  && s.accounts[u].failed <= config.policy.maximumFailures
                  && 0 <= s.accounts[u].lockedUntil && s.accounts[u].lockedUntil <= LAST_INSTANT
                  && 0 <= s.accounts[u].lastAuthenticated && s.accounts[u].lastAuthenticated <= LAST_INSTANT)
  {
    hide Run, Replay;
    RunValid(config, h, steps);
  }
}
