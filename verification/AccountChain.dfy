/** What the hash chain buys: the digest of the last row fixes the log and the accounts,
    unless two different rows or accounts with one digest are at hand. */
module AccountChain {
  import opened Common
  import opened AccountLog

  /** Two different rows with the same digest. */
  predicate Collide(h: Hash, left: Entry, right: Entry) {
    left.(digest := NO_NAME) != right.(digest := NO_NAME) && EntryDigest(h, left) == EntryDigest(h, right)
  }

  ghost predicate RowsCollide(h: Hash, left: seq<Entry>, right: seq<Entry>) {
    exists i, j | 0 <= i < |left| && 0 <= j < |right| :: Collide(h, left[i], right[j])
  }

  /** The last row of a log that replays is linked to the rows before it. */
  lemma LastLinked(config: Config, h: Hash, accounts: map<Name, Account>, audit: seq<Entry>)
    requires audit != [] && Replay(config, h, accounts, audit).Log?
    ensures var front, last := audit[..|audit| - 1], audit[|audit| - 1];
            && Replay(config, h, accounts, front).Log?
            && last.sequence == |audit| && last.previous == HeadDigest(front)
            && last.digest == EntryDigest(h, last) != NO_NAME
  {
    hide Outcome;
    var front := audit[..|audit| - 1];
    ExtendNeedsLog(config, h, accounts, Replay(config, h, accounts, front), |front|, audit[|audit| - 1]);
    ReplayHead(config, h, accounts, front);
  }

  /** Two logs that replay, over whatever accounts, and end with the same digest are the same log,
      or two of their rows collide. */
  lemma {:induction false} HeadFixesLog(config: Config, h: Hash, accounts: map<Name, Account>, left: seq<Entry>,
                                        others: map<Name, Account>, right: seq<Entry>)
    requires Replay(config, h, accounts, left).Log? && Replay(config, h, others, right).Log?
    requires HeadDigest(left) == HeadDigest(right)
    ensures left == right || RowsCollide(h, left, right)
  {
    hide Replay, RowsCollide;
    if left != [] { LastLinked(config, h, accounts, left); }
    if right != [] { LastLinked(config, h, others, right); }
    if left != [] && right != [] {
      var i, j := |left| - 1, |right| - 1;
      if Collide(h, left[i], right[j]) {
        CollideAt(h, left, right, i, j);
      } else {
        SameRow(h, left[i], right[j]);
        HeadFixesLog(config, h, accounts, left[..i], others, right[..j]);
        if left[..i] == right[..j] {
          assert left == left[..i] + [left[i]] && right == right[..j] + [right[j]];
        } else {
          CollideEarlier(h, left, right, i, j);
        }
      }
    }
  }

  lemma SameRow(h: Hash, left: Entry, right: Entry)
    requires left.digest == EntryDigest(h, left) && right.digest == EntryDigest(h, right)
    requires left.digest == right.digest && !Collide(h, left, right)
    ensures left == right
  {
    var l, r := left.(digest := NO_NAME), right.(digest := NO_NAME);
    assert left == l.(digest := left.digest) && right == r.(digest := right.digest);
  }

  lemma CollideAt(h: Hash, left: seq<Entry>, right: seq<Entry>, i: nat, j: nat)
    requires i < |left| && j < |right| && Collide(h, left[i], right[j])
    ensures RowsCollide(h, left, right)
  {
  }

  lemma CollideEarlier(h: Hash, left: seq<Entry>, right: seq<Entry>, i: nat, j: nat)
    requires i <= |left| && j <= |right| && RowsCollide(h, left[..i], right[..j])
    ensures RowsCollide(h, left, right)
  {
    var a, b :| 0 <= a < i && 0 <= b < j && Collide(h, left[..i][a], right[..j][b]);
    CollideAt(h, left, right, a, b);
  }

  // ----- the accounts -----

  /** Two accounts of one name that differ as they were created, with the same digest. */
  ghost predicate AccountsCollide(h: Hash, left: map<Name, Account>, right: map<Name, Account>) {
    exists u | u in left && u in right ::
      Newborn(left[u]) != Newborn(right[u]) && h.account(Newborn(left[u])) == h.account(Newborn(right[u]))
  }

  lemma SameExtension(config: Config, h: Hash, left: map<Name, Account>, right: map<Name, Account>, log: Log,
                      place: nat, entry: Entry)
    requires Extend(config, h, left, log, place, entry).Log? && Extend(config, h, right, log, place, entry).Log?
    requires !AccountsCollide(h, left, right)
    ensures Extend(config, h, left, log, place, entry) == Extend(config, h, right, log, place, entry)
  {
    hide Linked, ApplyLogin;
  }

  lemma {:induction false} SameReplay(config: Config, h: Hash, left: map<Name, Account>, right: map<Name, Account>,
                                      audit: seq<Entry>)
    requires Replay(config, h, left, audit).Log? && Replay(config, h, right, audit).Log?
    requires !AccountsCollide(h, left, right)
    ensures Replay(config, h, left, audit) == Replay(config, h, right, audit)
  {
    hide Extend, AccountsCollide;
    if audit != [] {
      var front, last := audit[..|audit| - 1], audit[|audit| - 1];
      ExtendNeedsLog(config, h, left, Replay(config, h, left, front), |front|, last);
      ExtendNeedsLog(config, h, right, Replay(config, h, right, front), |front|, last);
      SameReplay(config, h, left, right, front);
      SameExtension(config, h, left, right, Replay(config, h, left, front), |front|, last);
    }
  }

  /** Two valid states whose logs end with the same digest are the same state, or rows or accounts of theirs
      collide. */
  lemma HeadFixesState(config: Config, h: Hash, left: State, right: State)
    requires Valid(config, h, left) && Valid(config, h, right) && HeadDigest(left.audit) == HeadDigest(right.audit)
    ensures || left == right || RowsCollide(h, left.audit, right.audit)
            || AccountsCollide(h, left.accounts, right.accounts)
  {
    hide Replay, ValidAccounts, RowsCollide, AccountsCollide;
    HeadFixesLog(config, h, left.accounts, left.audit, right.accounts, right.audit);
    if left.audit == right.audit && !AccountsCollide(h, left.accounts, right.accounts) {
      SameReplay(config, h, left.accounts, right.accounts, left.audit);
    }
  }
}
