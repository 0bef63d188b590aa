/** What the hash chain of the token log buys: the digest of the last row fixes the log and
    what has become of every token, unless two different rows with one digest are at hand. */
module PatChain {
  import opened Common
  import opened PatLog

  /** Two different rows with the same digest. */
  predicate Collide(h: Hash, left: Entry, right: Entry) {
    left.(digest := NO_NAME) != right.(digest := NO_NAME) && EntryDigest(h, left) == EntryDigest(h, right)
  }

  ghost predicate RowsCollide(h: Hash, left: seq<Entry>, right: seq<Entry>) {
    exists i, j | 0 <= i < |left| && 0 <= j < |right| :: Collide(h, left[i], right[j])
  }

  /** The last row of a log that replays is linked to the rows before it. */
  lemma LastLinked(h: Hash, records: map<Name, Record>, audit: seq<Entry>)
    requires audit != [] && Replay(h, records, audit).Log?
    ensures var front, last := audit[..|audit| - 1], audit[|audit| - 1];
            && Replay(h, records, front).Log?
            && last.sequence == |audit| && last.previous == HeadDigest(front)
            && last.digest == EntryDigest(h, last) != NO_NAME
  {
    var front := audit[..|audit| - 1];
    ExtendNeedsLog(h, records, Replay(h, records, front), |front|, audit[|audit| - 1]);
    ReplayHead(h, records, front);
  }

  /** Two logs that replay, over whatever records, and end with the same digest are the same log, or two of
      their rows collide. */
  lemma {:induction false} HeadFixesLog(h: Hash, records: map<Name, Record>, left: seq<Entry>,
                                        others: map<Name, Record>, right: seq<Entry>)
    requires Replay(h, records, left).Log? && Replay(h, others, right).Log?
    requires HeadDigest(left) == HeadDigest(right)
    ensures left == right || RowsCollide(h, left, right)
  {
    hide Replay, RowsCollide;
    if left != [] { LastLinked(h, records, left); }
    if right != [] { LastLinked(h, others, right); }
    if left != [] && right != [] {
      var i, j := |left| - 1, |right| - 1;
      if Collide(h, left[i], right[j]) {
        CollideAt(h, left, right, i, j);
      } else {
        SameRow(h, left[i], right[j]);
        HeadFixesLog(h, records, left[..i], others, right[..j]);
        if left[..i] == right[..j] {
          assert left == left[..i] + [left[i]] && right == right[..j] + [right[j]];
        } else {
          CollideEarlier(h, left, right, i, j);
        }
      }
    }
  }

  lemma SameRow(h: Hash, left: Entry, right: Entry)
    requires left.digest == EntryDigest(h, left) && right.digest == EntryDigest(h, right)
    requires left.digest == right.digest && !Collide(h, left, right)
    ensures left == right
  {
    var l, r := left.(digest := NO_NAME), right.(digest := NO_NAME);
    assert left == l.(digest := left.digest) && right == r.(digest := right.digest);
  }

  lemma CollideAt(h: Hash, left: seq<Entry>, right: seq<Entry>, i: nat, j: nat)
    requires i < |left| && j < |right| && Collide(h, left[i], right[j])
    ensures RowsCollide(h, left, right)
  {
  }

  lemma CollideEarlier(h: Hash, left: seq<Entry>, right: seq<Entry>, i: nat, j: nat)
    requires i <= |left| && j <= |right| && RowsCollide(h, left[..i], right[..j])
    ensures RowsCollide(h, left, right)
  {
    var a, b :| 0 <= a < i && 0 <= b < j && Collide(h, left[..i][a], right[..j][b]);
    CollideAt(h, left, right, a, b);
  }

  // ----- the tokens -----

  lemma {:induction false} SameReplay(h: Hash, left: map<Name, Record>, right: map<Name, Record>, audit: seq<Entry>)
    requires Replay(h, left, audit).Log? && Replay(h, right, audit).Log?
    ensures Replay(h, left, audit) == Replay(h, right, audit)
    ensures forall id | id in Replay(h, left, audit).seen :: id in left
  {
    hide Linked, Follows, MatchesEvent, Advance;
    if audit != [] {
      SameReplay(h, left, right, audit[..|audit| - 1]);
    }
  }

  /** Two valid states whose logs end with the same digest hold the same tokens with the same uses, last use,
      version and revocation, or two rows of theirs collide. */
  lemma HeadFixesTokens(h: Hash, config: Config, left: State, right: State)
    requires Valid(h, config, left) && Valid(h, config, right) && HeadDigest(left.audit) == HeadDigest(right.audit)
    requires !RowsCollide(h, left.audit, right.audit)
    ensures left.audit == right.audit && left.records.Keys == right.records.Keys
    ensures forall id | id in left.records ::
              && left.records[id].version == right.records[id].version
              && left.records[id].uses == right.records[id].uses
              && left.records[id].lastUsed == right.records[id].lastUsed
              && left.records[id].revokedAt == right.records[id].revokedAt
  {
    hide Replay, ValidRecords, RowsCollide;
    HeadFixesLog(h, left.records, left.audit, right.records, right.audit);
    SameReplay(h, left.records, right.records, left.audit);
    SameReplay(h, right.records, left.records, left.audit);
  }
}
