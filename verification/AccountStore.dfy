/** The account store as it runs: a slice of accounts sorted by name and a slice of
    audit rows, searched, replaced in place and appended to, and re-checked by a replay loop. */
module AccountStore {
  import opened Common
  import opened AccountLog

  /** Strictly ascending user names. */
  ghost predicate Ordered(accounts: seq<Account>) {
    forall i, j | 0 <= i < j < |accounts| :: accounts[i].username < accounts[j].username
  }

  function ByName(accounts: seq<Account>): map<Name, Account> {
    if accounts == [] then map[]
    else ByName(accounts[..|accounts| - 1])[accounts[|accounts| - 1].username := accounts[|accounts| - 1]]
  }

  ghost predicate Named(accounts: seq<Account>, u: Name) {
    exists i :: 0 <= i < |accounts| && accounts[i].username == u
  }

  lemma {:induction false} ByNameKey(accounts: seq<Account>, u: Name)
    ensures u in ByName(accounts) <==> Named(accounts, u)
  {
    if accounts != [] {
      var front := accounts[..|accounts| - 1];
      ByNameKey(front, u);
      assert forall i | 0 <= i < |front| :: front[i] == accounts[i];
    }
  }

  lemma {:induction false} ByNameAt(accounts: seq<Account>, i: nat)
    requires Ordered(accounts) && i < |accounts|
    ensures accounts[i].username in ByName(accounts) && ByName(accounts)[accounts[i].username] == accounts[i]
  {
    if i < |accounts| - 1 {
      ByNameAt(accounts[..|accounts| - 1], i);
      assert accounts[i].username < accounts[|accounts| - 1].username;
    }
  }

  lemma {:induction false} ByNameCount(accounts: seq<Account>)
    requires Ordered(accounts)
    ensures |ByName(accounts)| == |accounts|
  {
    hide Named;
    if accounts != [] {
      var front := accounts[..|accounts| - 1];
      var last := accounts[|accounts| - 1];
      ByNameCount(front);
      ByNameKey(front, last.username);
      LastIsNew(accounts);
      var before, after := ByName(front), ByName(accounts);
      assert after.Keys == before.Keys + {last.username};
      assert |after| == |after.Keys| && |before| == |before.Keys|;
    }
  }

  lemma LastIsNew(accounts: seq<Account>)
    requires Ordered(accounts) && accounts != []
    ensures !Named(accounts[..|accounts| - 1], accounts[|accounts| - 1].username)
  {
    var front := accounts[..|accounts| - 1];
    forall i | 0 <= i < |front| ensures front[i].username != accounts[|accounts| - 1].username {
      assert accounts[i].username < accounts[|accounts| - 1].username;
    }
  }

  /** The map lists exactly the accounts of the slice. */
  lemma ByNameLists(accounts: seq<Account>)
    requires Ordered(accounts)
    ensures |ByName(accounts)| == |accounts|
    ensures forall u | u in ByName(accounts) :: Named(accounts, u) && ByName(accounts)[u].username == u
    ensures forall i | 0 <= i < |accounts| ::
            accounts[i].username in ByName(accounts) && ByName(accounts)[accounts[i].username] == accounts[i]
  {
    ByNameCount(accounts);
    forall i | 0 <= i < |accounts|
      ensures accounts[i].username in ByName(accounts) && ByName(accounts)[accounts[i].username] == accounts[i]
    {
      ByNameAt(accounts, i);
    }
    forall u | u in ByName(accounts) ensures Named(accounts, u) && ByName(accounts)[u].username == u {
      ByNameKey(accounts, u);
      var i :| 0 <= i < |accounts| && accounts[i].username == u;
      ByNameAt(accounts, i);
    }
  }

  method Find(accounts: seq<Account>, username: Name) returns (index: int)
    ensures -1 <= index < |accounts|
    ensures index >= 0 ==> accounts[index].username == username
    ensures index == -1 ==> forall i | 0 <= i < |accounts| :: accounts[i].username != username
  {
    for i := 0 to |accounts|
      invariant forall j | 0 <= j < i :: accounts[j].username != username
    {
      if accounts[i].username == username {
        return i;
      }
    }
    return -1;
  }

  /** One row of the replay loop. */
  method CheckEntry(config: Config, h: Hash, accounts: map<Name, Account>, log: Log, place: nat, entry: Entry)
    returns (next: Log)
    requires log.Log?
    ensures next == Extend(config, h, accounts, log, place, entry)
  {
    if entry.sequence != place + 1 || entry.previous != log.head || entry.digest == NO_NAME
       || !ValidTime(entry.committedAt)
       || !ValidTime(entry.event.at) || entry.committedAt < entry.event.at || entry.committedAt < log.committed
       || entry.event.username == NO_NAME {
      return Corrupt;
    }
    if h.entry(entry.(digest := NO_NAME)) != entry.digest {
      return Corrupt;
    }
    var username := entry.event.username;
    var history, created := log.history, log.created;
    var current;
    match entry.kind {
      case Created =>
        if username !in accounts || username in history || entry.event.status != NoStatus
           || entry.event.tenant != config.tenant || entry.event.user != accounts[username].user {
          return Corrupt;
        }
        current := accounts[username].(version := 1, failed := 0, lockedUntil := 0, lastAuthenticated := 0);
        created := created[username := entry.event.at];
      case Login =>
        if entry.event.tenant == NO_NAME && entry.event.user == NO_NAME {
          if username in history || entry.event.status != InvalidCredentials || entry.version != 0
             || entry.accountDigest != NO_NAME {
            return Corrupt;
          }
          return Log(history, created, entry.digest, entry.committedAt);
        }
        if username !in accounts || username !in history || entry.event.tenant != config.tenant
           || entry.event.user != accounts[username].user || username !in created
           || entry.event.at < created[username] {
          return Corrupt;
        }
        var moved := ApplyLogin(history[username], entry.event.at, entry.event.status == Authenticated, config.policy);
        if moved.Refused? || moved.status != entry.event.status {
          return Corrupt;
        }
        current := moved.account;
    }
    if h.account(current) != entry.accountDigest || current.version != entry.version {
      return Corrupt;
    }
    return Log(history[username := current], created, entry.digest, entry.committedAt);
  }

  /** Replays the rows in order. */
  method ReplayRows(config: Config, h: Hash, accounts: map<Name, Account>, audit: seq<Entry>) returns (log: Log)
    ensures log == Replay(config, h, accounts, audit)
  {
    hide Extend;
    log := Log(map[], map[], NO_NAME, 0);
    for i := 0 to |audit|
      invariant log.Log? && log == Replay(config, h, accounts, audit[..i])
    {
      assert audit[..i + 1][..i] == audit[..i];
      log := CheckEntry(config, h, accounts, log, i, audit[i]);
      if log.Corrupt? {
        CorruptStays(config, h, accounts, audit, i + 1);
        return;
      }
    }
    assert audit[..|audit|] == audit;
  }

  lemma CorruptStays(config: Config, h: Hash, accounts: map<Name, Account>, audit: seq<Entry>, n: nat)
    requires n <= |audit| && Replay(config, h, accounts, audit[..n]).Corrupt?
    ensures Replay(config, h, accounts, audit).Corrupt?
  {
    if Replay(config, h, accounts, audit).Log? {
      PrefixReplays(config, h, accounts, audit, n);
    }
  }

  ghost predicate SoundAccounts(config: Config, accounts: seq<Account>) {
    && Ordered(accounts)
    && (forall i | 0 <= i < |accounts| :: ValidAccount(config, accounts[i]))
    && (forall i, j | 0 <= i < j < |accounts| :: accounts[i].user != accounts[j].user)
  }

  lemma SoundAccountsMap(config: Config, accounts: seq<Account>)
    requires Ordered(accounts)
    ensures ValidAccounts(config, ByName(accounts)) <==> |accounts| <= config.records && SoundAccounts(config, accounts)
  {
    ByNameLists(accounts);
    var m := ByName(accounts);
    if ValidAccounts(config, m) {
      forall i, j | 0 <= i < j < |accounts| ensures accounts[i].user != accounts[j].user {
        assert m[accounts[i].username] == accounts[i] && m[accounts[j].username] == accounts[j];
      }
      forall i | 0 <= i < |accounts| ensures ValidAccount(config, accounts[i]) {
        assert m[accounts[i].username] == accounts[i];
      }
    }
    if SoundAccounts(config, accounts) && |accounts| <= config.records {
      forall u, v | u in m && v in m && u != v ensures m[u].user != m[v].user {
        var i :| 0 <= i < |accounts| && accounts[i].username == u;
        var j :| 0 <= j < |accounts| && accounts[j].username == v;
        assert m[u] == accounts[i] && m[v] == accounts[j];
      }
      forall u | u in m ensures ValidAccount(config, m[u]) {
        var i :| 0 <= i < |accounts| && accounts[i].username == u;
        assert m[u] == accounts[i];
      }
    }
  }

  /** The scan over the account slice. */
  method CheckAccounts(config: Config, accounts: seq<Account>) returns (ok: bool)
    ensures ok <==> SoundAccounts(config, accounts)
  {
    hide ValidAccount;
    var users: set<Name> := {};
    for i := 0 to |accounts|
      invariant SoundAccounts(config, accounts[..i])
      invariant forall user :: user in users <==> exists j :: 0 <= j < i && accounts[j].user == user
    {
      var account := accounts[i];
      if !ValidAccount(config, account) || account.user in users
         || (i > 0 && accounts[i - 1].username >= account.username) {
        return false;
      }
      users := users + {account.user};
      OneMore(config, accounts, i);
    }
    assert accounts[..|accounts|] == accounts;
    return true;
  }

  lemma OneMore(config: Config, accounts: seq<Account>, i: nat)
    requires i < |accounts| && SoundAccounts(config, accounts[..i]) && ValidAccount(config, accounts[i])
    requires forall j | 0 <= j < i :: accounts[j].user != accounts[i].user
    requires i > 0 ==> accounts[i - 1].username < accounts[i].username
    ensures SoundAccounts(config, accounts[..i + 1])
  {
    hide ValidAccount;
    var front, more := accounts[..i], accounts[..i + 1];
    forall j | 0 <= j < i ensures more[j] == front[j] && more[j].username < more[i].username {
      assert j == i - 1 || front[j].username < front[i - 1].username;
    }
  }

  /** The whole check: bounds, account slice, replay, and accounts equal to the replay. */
  method ValidateState(config: Config, h: Hash, accounts: seq<Account>, audit: seq<Entry>)
    returns (ok: bool, created: map<Name, int>)
    ensures ok <==> Ordered(accounts) && Valid(config, h, State(ByName(accounts), audit))
    ensures ok ==> created == Replay(config, h, ByName(accounts), audit).created
  {
    hide Replay, ValidAccounts, SoundAccounts;
    created := map[];
    var sound := CheckAccounts(config, accounts);
    SoundIsOrdered(config, accounts);
    if !sound || |accounts| > config.records || |audit| > config.entries {
      if forall i, j | 0 <= i < j < |accounts| :: accounts[i].username < accounts[j].username {
        SoundAccountsMap(config, accounts);
      }
      return false, created;
    }
    SoundAccountsMap(config, accounts);
    var log := ReplayRows(config, h, ByName(accounts), audit);
    if log.Corrupt? {
      return false, created;
    }
    created := log.created;
    ok := log.history == ByName(accounts);
  }

  lemma SoundIsOrdered(config: Config, accounts: seq<Account>)
    ensures SoundAccounts(config, accounts) ==> Ordered(accounts)
  {
  }

  // ----- slots -----

  lemma SlotReplaced(accounts: seq<Account>, index: nat, next: Account)
    requires Ordered(accounts) && index < |accounts| && next.username == accounts[index].username
    ensures Ordered(accounts[index := next])
    ensures ByName(accounts[index := next]) == ByName(accounts)[next.username := next]
  {
    hide ByName;
    var after := accounts[index := next];
    assert ByName(after) == ByName(accounts)[next.username := next] by {
      ByNameLists(accounts);
      forall i | 0 <= i < |after|
        ensures after[i].username in ByName(accounts)[next.username := next]
                && ByName(accounts)[next.username := next][after[i].username] == after[i]
      {
        assert i == index || accounts[i].username != accounts[index].username;
      }
      forall u | u in ByName(accounts)[next.username := next] ensures Named(after, u) {
        if u == next.username {
          assert after[index].username == u;
        } else {
          var i :| 0 <= i < |accounts| && accounts[i].username == u;
          assert after[i].username == u;
        }
      }
      SameMap(after, ByName(accounts)[next.username := next]);
    }
  }

  function Spliced(accounts: seq<Account>, index: nat, account: Account): seq<Account>
    requires index <= |accounts|
  {
    accounts[..index] + [account] + accounts[index..]
  }

  /** The slice with a new account at its sorted place. */
  ghost predicate Fits(accounts: seq<Account>, index: nat, account: Account) {
    && index <= |accounts|
    && (forall i | 0 <= i < index :: accounts[i].username < account.username)
    && (forall i | index <= i < |accounts| :: account.username < accounts[i].username)
  }

  lemma SplicedAt(accounts: seq<Account>, index: nat, account: Account)
    requires index <= |accounts|
    ensures |Spliced(accounts, index, account)| == |accounts| + 1
    ensures forall i | 0 <= i < index :: Spliced(accounts, index, account)[i] == accounts[i]
    ensures Spliced(accounts, index, account)[index] == account
    ensures forall i | index < i <= |accounts| :: Spliced(accounts, index, account)[i] == accounts[i - 1]
  {
  }

  lemma SplicedOrdered(accounts: seq<Account>, index: nat, account: Account)
    requires Ordered(accounts) && Fits(accounts, index, account)
    ensures Ordered(Spliced(accounts, index, account))
  {
    hide Spliced;
    SplicedAt(accounts, index, account);
    var after := Spliced(accounts, index, account);
    forall i, j | 0 <= i < j < |after| ensures after[i].username < after[j].username {
      assert after[i] == if i < index then accounts[i] else if i == index then account else accounts[i - 1];
      assert after[j] == if j < index then accounts[j] else if j == index then account else accounts[j - 1];
    }
  }

  lemma SlotInserted(accounts: seq<Account>, index: nat, account: Account)
    requires Ordered(accounts) && Fits(accounts, index, account)
    ensures Ordered(Spliced(accounts, index, account))
    ensures ByName(Spliced(accounts, index, account)) == ByName(accounts)[account.username := account]
  {
    hide ByName, Spliced, Ordered;
    SplicedOrdered(accounts, index, account);
    SplicedAt(accounts, index, account);
    ByNameLists(accounts);
    var after, m := Spliced(accounts, index, account), ByName(accounts)[account.username := account];
    forall i | 0 <= i < |after| ensures after[i].username in m && m[after[i].username] == after[i] {
      if i != index {
        assert after[i] == accounts[if i < index then i else i - 1];
      }
    }
    forall u | u in m ensures Named(after, u) {
      if u == account.username {
        assert after[index].username == u;
      } else {
        assert Named(accounts, u);
        var i :| 0 <= i < |accounts| && accounts[i].username == u;
        assert after[if i < index then i else i + 1].username == u;
      }
    }
    SameMap(after, m);
  }

  /** A slice and a map that list the same accounts. */
  lemma SameMap(accounts: seq<Account>, m: map<Name, Account>)
    requires Ordered(accounts)
    requires forall i | 0 <= i < |accounts| :: accounts[i].username in m && m[accounts[i].username] == accounts[i]
    requires forall u | u in m :: Named(accounts, u)
    ensures ByName(accounts) == m
  {
    hide ByName;
    ByNameLists(accounts);
    forall u | u in m ensures u in ByName(accounts) && ByName(accounts)[u] == m[u] {
      var i :| 0 <= i < |accounts| && accounts[i].username == u;
    }
    forall u | u in ByName(accounts) ensures u in m {
      var i :| 0 <= i < |accounts| && accounts[i].username == u;
    }
  }

  ghost predicate Taken(accounts: seq<Account>, account: Account) {
    exists j :: 0 <= j < |accounts| && (accounts[j].username == account.username || accounts[j].user == account.user)
  }

  /** The sorted place of a new account, or -1 when its name or user is taken. */
  method PlaceFor(accounts: seq<Account>, account: Account) returns (index: int)
    requires Ordered(accounts)
    ensures index == -1 <==> Taken(accounts, account)
    ensures index != -1 ==> 0 <= index && Fits(accounts, index, account)
  {
    index := 0;
    for i := 0 to |accounts|
      invariant 0 <= index <= i
      invariant forall j | 0 <= j < i :: accounts[j].username != account.username && accounts[j].user != account.user
      invariant forall j | 0 <= j < index :: accounts[j].username < account.username
      invariant forall j | index <= j < i :: account.username < accounts[j].username
    {
      if accounts[i].username == account.username || accounts[i].user == account.user {
        return -1;
      }
      if accounts[i].username < account.username {
        index := i + 1;
      }
    }
  }

  lemma Listed(accounts: seq<Account>, account: Account)
    requires Ordered(accounts) && Taken(accounts, account)
    ensures account.username in ByName(accounts) || exists u ::
            u in ByName(accounts) && ByName(accounts)[u].user == account.user
  {
    hide ByName;
    ByNameLists(accounts);
    var j :| 0 <= j < |accounts| && (accounts[j].username == account.username || accounts[j].user == account.user);
    assert ByName(accounts)[accounts[j].username] == accounts[j];
  }

  class Store {
    const config: Config
    const hash: Hash
    var accounts: seq<Account>
    var audit: seq<Entry>

    ghost function View(): State
      reads this
    {
      State(ByName(accounts), audit)
    }

    /** The slice is sorted, and the accounts equal the replay of the log. */
    ghost predicate Sound()
      reads this
    {
      Ordered(accounts) && Valid(config, hash, View())
    }

    constructor (config: Config, hash: Hash)
      ensures Sound() && this.config == config && this.hash == hash && View() == State(map[], [])
    {
      this.config, this.hash, accounts, audit := config, hash, [], [];
      new;
      EmptyValid(config, hash);
    }

    /** A login replaces the account's slot and appends its row. */
    method CommitLogin(proposal: Proposal, event: Event, now: int) returns (committed: bool)
      requires Sound() && Hashes(hash)
      modifies this`accounts, this`audit
      ensures Sound()
      ensures var created := Replay(config, hash, old(View()).accounts, old(audit)).created;
              && View() == AccountLog.CommitLogin(config, hash, old(View()), created, proposal, event, now)
              && committed == (|| LogsUnknown(config, old(View()), proposal, event, now)
                               || Commits(config, old(View()), created, proposal, event, now))
    {
      hide ByName, Replay, ApplyLogin, ValidAccounts, Row;
      var _, created := ValidateState(config, hash, accounts, audit);
      CommitKeepsValid(config, hash, View(), proposal, event, now);
      ByNameLists(accounts);
      var index := Find(accounts, event.username);
      if index == -1 {
        assert event.username !in ByName(accounts);
        if proposal.Proposal? || event.username == NO_NAME || !ValidTime(event.at) || event.status != InvalidCredentials
           || event.tenant != NO_NAME || event.user != NO_NAME || !Appendable(config, audit, event, now) {
          return false;
        }
        audit := audit + [Row(hash, audit, Login, event, 0, NO_NAME, now)];
        return true;
      }
      if !Commits(config, State(ByName(accounts), audit), created, proposal, event, now) {
        return false;
      }
      var next := proposal.next;
      LoginKeepsBase(accounts[index], event.at, event.status == Authenticated, config.policy);
      NewbornFields(next, accounts[index]);
      SlotReplaced(accounts, index, next);
      audit := audit + [Row(hash, audit, Login, event, next.version, hash.account(next), now)];
      accounts := accounts[index := next];
      return true;
    }

    /** A new account goes to its sorted place and appends its row. */
    method CreateAccount(account: Account, now: int) returns (committed: bool)
      requires Sound() && Hashes(hash)
      modifies this`accounts, this`audit
      ensures Sound()
      ensures View() == AccountLog.CreateAccount(config, hash, old(View()), account, now)
      ensures committed == Creatable(config, old(View()), account, now)
    {
      hide ByName, Replay, ApplyLogin, ValidAccounts, Row, ValidAccount, Ordered, Fits, Spliced, Taken;
      CreateKeepsValid(config, hash, View(), account, now);
      ByNameLists(accounts);
      if !ValidAccount(config, account) || account != Newborn(account) || !ValidTime(now) {
        return false;
      }
      var index := PlaceFor(accounts, account);
      if index == -1 {
        Listed(accounts, account);
        return false;
      }
      NotListed(accounts, account);
      if |accounts| >= config.records || !Appendable(config, audit, CreationEvent(account, now), now) {
        return false;
      }
      SlotInserted(accounts, index, account);
      audit := audit + [Row(hash, audit, Created, CreationEvent(account, now), account.version, hash.account(account),
                            now)];
      accounts := Spliced(accounts, index, account);
      return true;
    }
  }

  lemma NotListed(accounts: seq<Account>, account: Account)
    requires Ordered(accounts) && !Taken(accounts, account)
    ensures account.username !in ByName(accounts)
    ensures forall u | u in ByName(accounts) :: ByName(accounts)[u].user != account.user
  {
    hide ByName;
    ByNameLists(accounts);
    forall u | u in ByName(accounts) ensures u != account.username && ByName(accounts)[u].user != account.user {
      assert Named(accounts, u);
      var i :| 0 <= i < |accounts| && accounts[i].username == u;
    }
  }
}
