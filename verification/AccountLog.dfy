/** Accounts as an audited log: the stored accounts always equal the replay of the
    hash-chained login log through the lockout policy. Times are integers; zero is
    the zero time. */
module AccountLog {
  import opened Common

  const MAXIMUM_VERSION := 0xffff_ffff_ffff_ffff
  const LONGEST_LOCKOUT := 2_592_000_000_000_000

  datatype Policy = Policy(maximumFailures: nat, lockout: int)

  datatype Status = NoStatus | Authenticated | InvalidCredentials | Locked | Disabled

  datatype Account = Account(tenant: Name, user: Name, username: Name, passwordHash: Name, disabled: bool,
                             failed: nat, lockedUntil: int, lastAuthenticated: int, version: nat)

  datatype Transition = Refused | Moved(account: Account, status: Status)

  predicate ValidPolicy(policy: Policy) {
    1 <= policy.maximumFailures <= 100 && 0 < policy.lockout <= LONGEST_LOCKOUT
  }

  // ----- one login attempt -----

  /** Never earlier than the last successful login. */
  function Effective(account: Account, at: int): int {
    if at < account.lastAuthenticated then account.lastAuthenticated else at
  }

  predicate StillLocked(account: Account, at: int) {
    account.lockedUntil != 0 && Effective(account, at) < account.lockedUntil
  }

  function Failures(account: Account, policy: Policy): nat {
    var before := if account.lockedUntil != 0 then 0 else account.failed;
    if before < policy.maximumFailures then before + 1 else before
  }

  function ApplyLogin(account: Account, at: int, passwordValid: bool, policy: Policy): Transition {
    if !ValidPolicy(policy) || at == 0 then Refused
    else if account.disabled then Moved(account, Disabled)
    else if StillLocked(account, at) then Moved(account, Locked)
    else if account.version == MAXIMUM_VERSION then Refused
    else if passwordValid then
      Moved(account.(failed := 0, lockedUntil := 0, lastAuthenticated := Effective(account, at),
                     version := account.version + 1), Authenticated)
    else if Failures(account, policy) >= policy.maximumFailures then
      Moved(account.(failed := Failures(account, policy), lockedUntil := Effective(account, at) + policy.lockout,
                     version := account.version + 1), Locked)
    else Moved(account.(failed := Failures(account, policy), lockedUntil := 0, version := account.version + 1),
               InvalidCredentials)
  }

  /** The store does not see the password verdict; "the status says authenticated" gives the same transition. */
  lemma VerdictFromStatus(account: Account, at: int, passwordValid: bool, policy: Policy)
    requires ApplyLogin(account, at, passwordValid, policy).Moved?
    ensures var moved := ApplyLogin(account, at, passwordValid, policy);
            ApplyLogin(account, at, moved.status == Authenticated, policy) == moved
  {
  }

  // ----- the log -----

  datatype Kind = Created | Login

  datatype Event = Event(at: int, username: Name, tenant: Name, user: Name, status: Status)

  datatype Entry = Entry(sequence: nat, previous: Name, digest: Name, version: nat, accountDigest: Name,
                         kind: Kind, committedAt: int, event: Event)

  /** SHA-256 over canonical encodings, as two unknown functions. */
  datatype Hash = Hash(account: Account -> Name, entry: Entry -> Name)

  datatype Config = Config(tenant: Name, policy: Policy, records: nat, entries: nat)

  datatype State = State(accounts: map<Name, Account>, audit: seq<Entry>)

  /** The digest covers the entry without its digest. */
  function EntryDigest(h: Hash, entry: Entry): Name {
    h.entry(entry.(digest := NO_NAME))
  }

  predicate ValidAccount(config: Config, account: Account) {
    && account.tenant == config.tenant && account.username != NO_NAME && account.user != NO_NAME
    && account.passwordHash != NO_NAME
    && 1 <= account.version <= MAXIMUM_INTEGER && account.failed <= config.policy.maximumFailures
    && (account.lockedUntil == 0 || ValidTime(account.lockedUntil))
    && (account.lastAuthenticated == 0 || ValidTime(account.lastAuthenticated))
  }

  ghost predicate ValidAccounts(config: Config, accounts: map<Name, Account>) {
    && |accounts| <= config.records
    && (forall u | u in accounts :: ValidAccount(config, accounts[u]) && accounts[u].username == u)
    && (forall u, v | u in accounts && v in accounts && u != v :: accounts[u].user != accounts[v].user)
  }

  /** An account as it was created. */
  function Newborn(account: Account): Account {
    account.(failed := 0, lockedUntil := 0, lastAuthenticated := 0, version := 1)
  }

  /** What replaying a prefix of the log yields. */
  datatype Log = Corrupt | Log(history: map<Name, Account>, created: map<Name, int>, head: Name, committed: int)

  predicate Linked(h: Hash, log: Log, place: nat, entry: Entry)
    requires log.Log?
  {
    && entry.sequence == place + 1 && entry.previous == log.head
    && entry.digest != NO_NAME && entry.digest == EntryDigest(h, entry)
    && ValidTime(entry.committedAt) && ValidTime(entry.event.at) && entry.event.at <= entry.committedAt
    && log.committed <= entry.committedAt && entry.event.username != NO_NAME
  }

  predicate Unidentified(entry: Entry) {
    entry.event.tenant == NO_NAME && entry.event.user == NO_NAME
  }

  predicate Identified(config: Config, accounts: map<Name, Account>, entry: Entry) {
    && entry.event.username in accounts && entry.event.tenant == config.tenant
    && entry.event.user == accounts[entry.event.username].user
  }

  predicate Records(h: Hash, entry: Entry, account: Account) {
    entry.accountDigest == h.account(account) && entry.version == account.version
  }

  /** The account after this entry, when the entry fits the log. */
  function Outcome(config: Config, h: Hash, accounts: map<Name, Account>, log: Log, entry: Entry): Transition
    requires log.Log?
  {
    var u := entry.event.username;
    if entry.kind == Created then
      if Identified(config, accounts, entry) && u !in log.history && entry.event.status == NoStatus
         && Records(h, entry, Newborn(accounts[u]))
      then Moved(Newborn(accounts[u]), NoStatus) else Refused
    else if !Identified(config, accounts, entry) || u !in log.history || u !in log.created
            || entry.event.at < log.created[u] then Refused
    else
      var moved := ApplyLogin(log.history[u], entry.event.at, entry.event.status == Authenticated, config.policy);
      if moved.Moved? && moved.status == entry.event.status && Records(h, entry, moved.account) then moved else Refused
  }

  function CreationTimes(log: Log, entry: Entry): map<Name, int>
    requires log.Log?
  {
    if entry.kind == Created then log.created[entry.event.username := entry.event.at] else log.created
  }

  function Extend(config: Config, h: Hash, accounts: map<Name, Account>, log: Log, place: nat, entry: Entry): Log {
    if log.Corrupt? || !Linked(h, log, place, entry) then Corrupt
    else if entry.kind == Login && Unidentified(entry) then
      if entry.event.username !in log.history && entry.event.status == InvalidCredentials && entry.version == 0
         && entry.accountDigest == NO_NAME
      then Log(log.history, log.created, entry.digest, entry.committedAt) else Corrupt
    else
      var moved := Outcome(config, h, accounts, log, entry);
      if moved.Refused? then Corrupt
      else Log(log.history[entry.event.username := moved.account], CreationTimes(log, entry), entry.digest,
               entry.committedAt)
  }

  function Replay(config: Config, h: Hash, accounts: map<Name, Account>, audit: seq<Entry>): Log {
    if audit == [] then Log(map[], map[], NO_NAME, 0)
    else Extend(config, h, accounts, Replay(config, h, accounts, audit[..|audit| - 1]), |audit| - 1, audit[|audit| - 1])
  }

  /** The stored accounts are exactly what the log replays to. */
  ghost predicate Valid(config: Config, h: Hash, s: State) {
    && ValidAccounts(config, s.accounts) && |s.audit| <= config.entries
    && Replay(config, h, s.accounts, s.audit).Log?
    && Replay(config, h, s.accounts, s.audit).history == s.accounts
  }

  // ----- transactions -----

  function HeadDigest(audit: seq<Entry>): Name {
    if audit == [] then NO_NAME else audit[|audit| - 1].digest
  }

  function HeadTime(audit: seq<Entry>): int {
    if audit == [] then 0 else audit[|audit| - 1].committedAt
  }

  /** The row appendAudit writes. */
  function Row(h: Hash, audit: seq<Entry>, kind: Kind, event: Event, version: nat, accountDigest: Name,
               now: int): Entry {
    var blank := Entry(|audit| + 1, HeadDigest(audit), NO_NAME, version, accountDigest, kind, now, event);
    blank.(digest := EntryDigest(h, blank))
  }

  predicate Appendable(config: Config, audit: seq<Entry>, event: Event, now: int) {
    |audit| < config.entries && ValidTime(now) && event.at <= now && HeadTime(audit) <= now
  }

  function CreationEvent(account: Account, now: int): Event {
    Event(now, account.username, account.tenant, account.user, NoStatus)
  }

  ghost predicate Creatable(config: Config, s: State, account: Account, now: int) {
    && ValidAccount(config, account) && account == Newborn(account) && ValidTime(now)
    && account.username !in s.accounts && (forall u | u in s.accounts :: s.accounts[u].user != account.user)
    && |s.accounts| < config.records && Appendable(config, s.audit, CreationEvent(account, now), now)
  }

  ghost function CreateAccount(config: Config, h: Hash, s: State, account: Account, now: int): State {
    if !Creatable(config, s, account, now) then s
    else State(s.accounts[account.username := account],
               s.audit + [Row(h, s.audit, Created, CreationEvent(account, now), account.version, h.account(account),
                              now)])
  }

  /** What the caller wants to store: nothing for a name it found no account for,
      or the next account and the version it was computed from. */
  datatype Proposal = NoAccount | Proposal(expectedVersion: nat, next: Account)

  /** A login for a name without an account leaves only a row. */
  predicate LogsUnknown(config: Config, s: State, proposal: Proposal, event: Event, now: int) {
    && proposal.NoAccount? && event.username !in s.accounts && event.username != NO_NAME && ValidTime(event.at)
    && event.status == InvalidCredentials && event.tenant == NO_NAME && event.user == NO_NAME
    && Appendable(config, s.audit, event, now)
  }

  /** The caller's next account is the recomputed transition of the current one. */
  predicate Commits(config: Config, s: State, created: map<Name, int>, proposal: Proposal, event: Event, now: int) {
    && proposal.Proposal? && event.username in s.accounts && event.username != NO_NAME && ValidTime(event.at)
    && 1 <= proposal.expectedVersion < MAXIMUM_INTEGER && ValidAccount(config, proposal.next)
    && event.username in created && created[event.username] <= event.at
    && s.accounts[event.username].version == proposal.expectedVersion
    && event.tenant == s.accounts[event.username].tenant && event.user == s.accounts[event.username].user
    && ApplyLogin(s.accounts[event.username], event.at, event.status == Authenticated, config.policy)
       == Moved(proposal.next, event.status)
    && Appendable(config, s.audit, event, now)
  }

  /** The state after the account's login. */
  function Moves(h: Hash, s: State, next: Account, event: Event, now: int): State {
    State(s.accounts[event.username := next],
          s.audit + [Row(h, s.audit, Login, event, next.version, h.account(next), now)])
  }

  function CommitLogin(config: Config, h: Hash, s: State, created: map<Name, int>, proposal: Proposal, event: Event,
                       now: int): State {
    if LogsUnknown(config, s, proposal, event, now) then
      State(s.accounts, s.audit + [Row(h, s.audit, Login, event, 0, NO_NAME, now)])
    else if Commits(config, s, created, proposal, event, now) then Moves(h, s, proposal.next, event, now)
    else s
  }

  // ----- replay is preserved -----

  /** The fields a login never changes. */
  ghost predicate SameBase(before: map<Name, Account>, after: map<Name, Account>) {
    forall u | u in before :: u in after && Newborn(after[u]) == Newborn(before[u])
  }

  /** A log replays alike over accounts that only gained names or moved on. */
  lemma {:induction false} ReplayFrame(config: Config, h: Hash, before: map<Name, Account>, after: map<Name, Account>,
                                       audit: seq<Entry>)
    requires SameBase(before, after) && Replay(config, h, before, audit).Log?
    ensures Replay(config, h, after, audit) == Replay(config, h, before, audit)
  {
    hide Linked, ApplyLogin, Records;
    if audit != [] {
      var front, entry := audit[..|audit| - 1], audit[|audit| - 1];
      ReplayFrame(config, h, before, after, front);
      ExtendFrame(config, h, before, after, Replay(config, h, before, front), |audit| - 1, entry);
    }
  }

  lemma ExtendFrame(config: Config, h: Hash, before: map<Name, Account>, after: map<Name, Account>, log: Log,
                    place: nat, entry: Entry)
    requires SameBase(before, after) && Extend(config, h, before, log, place, entry).Log?
    ensures Extend(config, h, after, log, place, entry) == Extend(config, h, before, log, place, entry)
  {
    hide Linked, ApplyLogin, Records;
    var u := entry.event.username;
    if u in before {
      assert after[u].user == Newborn(after[u]).user == Newborn(before[u]).user == before[u].user;
    }
  }

  lemma {:induction false} ReplayHead(config: Config, h: Hash, accounts: map<Name, Account>, audit: seq<Entry>)
    requires Replay(config, h, accounts, audit).Log?
    ensures var log := Replay(config, h, accounts, audit);
            && log.head == HeadDigest(audit) && log.committed == HeadTime(audit)
            && (forall u | u in log.history :: u in log.created && u in accounts)
  {
    hide Linked, ApplyLogin, Records;
    if audit != [] {
      ReplayHead(config, h, accounts, audit[..|audit| - 1]);
    }
  }

  lemma ExtendNeedsLog(config: Config, h: Hash, accounts: map<Name, Account>, log: Log, place: nat, entry: Entry)
    requires Extend(config, h, accounts, log, place, entry).Log?
    ensures log.Log?
  {
  }

  lemma {:induction false} PrefixReplays(config: Config, h: Hash, accounts: map<Name, Account>, audit: seq<Entry>,
                                         n: nat)
    requires Replay(config, h, accounts, audit).Log? && n <= |audit|
    ensures Replay(config, h, accounts, audit[..n]).Log?
  {
    hide Extend;
    if n == |audit| {
      assert audit[..n] == audit;
    } else {
      var front := audit[..|audit| - 1];
      ExtendNeedsLog(config, h, accounts, Replay(config, h, accounts, front), |front|, audit[|audit| - 1]);
      PrefixReplays(config, h, accounts, front, n);
      assert front[..n] == audit[..n];
    }
  }

  lemma RowLinked(config: Config, h: Hash, accounts: map<Name, Account>, audit: seq<Entry>, kind: Kind, event: Event,
                  version: nat, accountDigest: Name, now: int)
    requires Replay(config, h, accounts, audit).Log? && Appendable(config, audit, event, now)
    requires ValidTime(event.at) && event.username != NO_NAME
    ensures var row := Row(h, audit, kind, event, version, accountDigest, now);
            Linked(h, Replay(config, h, accounts, audit), |audit|, row) <==> row.digest != NO_NAME
    ensures Hashes(h) ==> Row(h, audit, kind, event, version, accountDigest, now).digest != NO_NAME
  {
    hide Replay;
    ReplayHead(config, h, accounts, audit);
    var row := Row(h, audit, kind, event, version, accountDigest, now);
    assert row.(digest := NO_NAME)
           == Entry(|audit| + 1, HeadDigest(audit), NO_NAME, version, accountDigest, kind, now, event);
  }

  lemma ReplayAppend(config: Config, h: Hash, accounts: map<Name, Account>, audit: seq<Entry>, row: Entry)
    ensures Replay(config, h, accounts, audit + [row])
            == Extend(config, h, accounts, Replay(config, h, accounts, audit), |audit|, row)
  {
    hide Extend;
    assert (audit + [row])[..|audit|] == audit;
  }

  ghost predicate Hashes(h: Hash) {
    forall entry :: h.entry(entry) != NO_NAME
  }

  lemma CreateAccounts(config: Config, s: State, account: Account, now: int)
    requires ValidAccounts(config, s.accounts) && Creatable(config, s, account, now)
    ensures ValidAccounts(config, s.accounts[account.username := account])
            && SameBase(s.accounts, s.accounts[account.username := account])
  {
    hide ValidAccount, Appendable;
    var after := s.accounts[account.username := account];
    assert after.Keys == s.accounts.Keys + {account.username};
    assert |after| == |after.Keys| && |s.accounts| == |s.accounts.Keys|;
  }

  lemma MoveAccounts(config: Config, accounts: map<Name, Account>, username: Name, next: Account)
    requires ValidAccounts(config, accounts) && username in accounts && ValidAccount(config, next)
    requires Newborn(next) == Newborn(accounts[username])
    ensures ValidAccounts(config, accounts[username := next]) && SameBase(accounts, accounts[username := next])
  {
    NewbornFields(next, accounts[username]);
    var after := accounts[username := next];
    assert after.Keys == accounts.Keys && |after| == |after.Keys| && |accounts| == |accounts.Keys|;
  }

  /** Creating an account keeps accounts and log in step. */
  lemma CreateKeepsValid(config: Config, h: Hash, s: State, account: Account, now: int)
    requires Valid(config, h, s) && Hashes(h)
    ensures Valid(config, h, CreateAccount(config, h, s, account, now))
  {
    hide Linked, Replay, ApplyLogin, EntryDigest, ValidAccounts, SameBase;
    if Creatable(config, s, account, now) {
      CreateAccounts(config, s, account, now);
      var event := CreationEvent(account, now);
      var row := Row(h, s.audit, Created, event, account.version, h.account(account), now);
      var after := s.accounts[account.username := account];
      RowLinked(config, h, s.accounts, s.audit, Created, event, account.version, h.account(account), now);
      ReplayFrame(config, h, s.accounts, after, s.audit);
      ReplayAppend(config, h, after, s.audit, row);
    }
  }

  lemma LoginKeepsBase(account: Account, at: int, passwordValid: bool, policy: Policy)
    requires ApplyLogin(account, at, passwordValid, policy).Moved?
    ensures Newborn(ApplyLogin(account, at, passwordValid, policy).account) == Newborn(account)
  {
  }

  lemma NewbornFields(left: Account, right: Account)
    requires Newborn(left) == Newborn(right)
    ensures left.tenant == right.tenant && left.user == right.user && left.username == right.username
  {
    assert Newborn(left).user == left.user && Newborn(right).user == right.user;
    assert Newborn(left).tenant == left.tenant && Newborn(right).tenant == right.tenant;
    assert Newborn(left).username == left.username && Newborn(right).username == right.username;
  }

  lemma UnknownKeepsValid(config: Config, h: Hash, s: State, event: Event, now: int)
    requires Valid(config, h, s) && Hashes(h) && LogsUnknown(config, s, NoAccount, event, now)
    ensures Valid(config, h, State(s.accounts, s.audit + [Row(h, s.audit, Login, event, 0, NO_NAME, now)]))
  {
    hide Linked, Replay, ApplyLogin, EntryDigest;
    var row := Row(h, s.audit, Login, event, 0, NO_NAME, now);
    RowLinked(config, h, s.accounts, s.audit, Login, event, 0, NO_NAME, now);
    ReplayAppend(config, h, s.accounts, s.audit, row);
  }

  /** Committing a recomputed login keeps accounts and log in step. */
  lemma LoginKeepsValid(config: Config, h: Hash, s: State, created: map<Name, int>, proposal: Proposal, event: Event,
                        now: int)
    requires Valid(config, h, s) && Hashes(h) && created == Replay(config, h, s.accounts, s.audit).created
    requires Commits(config, s, created, proposal, event, now)
    ensures Valid(config, h, Moves(h, s, proposal.next, event, now))
    ensures var n := Moves(h, s, proposal.next, event, now); Replay(config, h, n.accounts, n.audit).created == created
  {
    hide Linked, Replay, ApplyLogin, EntryDigest, ValidAccounts, SameBase;
    var next := proposal.next;
    var row := Row(h, s.audit, Login, event, next.version, h.account(next), now);
    var after := s.accounts[event.username := next];
    var current := s.accounts[event.username];
    LoginKeepsBase(current, event.at, event.status == Authenticated, config.policy);
    MoveAccounts(config, s.accounts, event.username, next);
    RowLinked(config, h, s.accounts, s.audit, Login, event, next.version, h.account(next), now);
    ReplayFrame(config, h, s.accounts, after, s.audit);
    ReplayAppend(config, h, after, s.audit, row);
  }

  lemma CommitKeepsValid(config: Config, h: Hash, s: State, proposal: Proposal, event: Event, now: int)
    requires Valid(config, h, s) && Hashes(h)
    ensures Valid(config, h,
                  CommitLogin(config, h, s, Replay(config, h, s.accounts, s.audit).created, proposal, event, now))
  {
    hide Valid, Replay, Row, Moves;
    assert Replay(config, h, s.accounts, s.audit).Log? by {
      ValidLog(config, h, s);
    }
    var created := Replay(config, h, s.accounts, s.audit).created;
    if LogsUnknown(config, s, proposal, event, now) {
      UnknownKeepsValid(config, h, s, event, now);
    } else if Commits(config, s, created, proposal, event, now) {
      LoginKeepsValid(config, h, s, created, proposal, event, now);
    }
  }

  lemma ValidLog(config: Config, h: Hash, s: State)
    requires Valid(config, h, s)
    ensures Replay(config, h, s.accounts, s.audit).Log?
  {
  }

  // ----- runs -----

  datatype Step =
    | CreateStep(account: Account, now: int)
    | LoginStep(proposal: Proposal, event: Event, now: int)

  ghost function Next(config: Config, h: Hash, s: State, step: Step): State {
    match step
    case CreateStep(account, now) => CreateAccount(config, h, s, account, now)
    case LoginStep(proposal, event, now) =>
      var log := Replay(config, h, s.accounts, s.audit);
      if log.Log? then CommitLogin(config, h, s, log.created, proposal, event, now) else s
  }

  ghost function Run(config: Config, h: Hash, steps: seq<Step>): State {
    if steps == [] then State(map[], []) else Next(config, h, Run(config, h, steps[..|steps| - 1]), steps[|steps| - 1])
  }

  /** After any sequence of transactions the accounts equal the replay of the log. */
  lemma {:induction false} RunValid(config: Config, h: Hash, steps: seq<Step>)
    requires Hashes(h)
    ensures Valid(config, h, Run(config, h, steps))
  {
    hide Valid, CreateAccount, CommitLogin;
    if steps == [] {
      EmptyValid(config, h);
    } else {
      var s := Run(config, h, steps[..|steps| - 1]);
      RunValid(config, h, steps[..|steps| - 1]);
      ValidLog(config, h, s);
      match steps[|steps| - 1]
      case CreateStep(account, now) => CreateKeepsValid(config, h, s, account, now);
      case LoginStep(proposal, event, now) => CommitKeepsValid(config, h, s, proposal, event, now);
    }
  }

  lemma EmptyValid(config: Config, h: Hash)
    ensures Valid(config, h, State(map[], []))
  {
  }
}
