/** The blob namespace: immutable objects with never-reused versions, versioned
    deletes, and paged listings that keep one epoch stable. Bytes are
    represented by their content digest. */
module BlobStore {
  import opened Common

  const MAXIMUM_LIST_BATCH := 4096

  datatype Info = Info(key: Name, version: nat, digest: Name, createdAt: int)

  /** One line of the append-only history; `deleted` is zero while the object lives. */
  datatype Entry = Entry(info: Info, created: nat, deleted: nat)

  datatype Blobs = Blobs(
    objects: map<Name, Info>, activeHistory: map<Name, nat>, history: seq<Entry>,
    mutation: nat, nextVersion: nat)

  const EMPTY := Blobs(map[], map[], [], 0, 0)

  datatype Put = Put(key: Name, digest: Name, createdAt: int)

  datatype Reply = Accepted | NotFound | VersionConflict | Corrupt

  predicate WellFormed(put: Put) {
    put.key != NO_NAME && put.digest != NO_NAME
  }

  function Incarnation(b: Blobs, put: Put): Info {
    Info(put.key, b.nextVersion + 1, put.digest, put.createdAt)
  }

  function PutIfAbsent(b: Blobs, put: Put): Blobs {
    if WellFormed(put) && put.key !in b.objects then
      b.(objects := b.objects[put.key := Incarnation(b, put)],
         activeHistory := b.activeHistory[put.key := |b.history|],
         history := b.history + [Entry(Incarnation(b, put), b.mutation + 1, 0)],
         mutation := b.mutation + 1,
         nextVersion := b.nextVersion + 1)
    else b
  }

  function PutReply(b: Blobs, put: Put): Reply {
    if !WellFormed(put) || (put.key in b.objects && b.objects[put.key].digest != put.digest) then Corrupt else Accepted
  }

  predicate Deletes(b: Blobs, key: Name, version: nat) {
    key in b.objects && version != 0 && b.objects[key].version == version
  }

  function DeleteIfVersion(b: Blobs, key: Name, version: nat): Blobs {
    if Deletes(b, key, version) && key in b.activeHistory && b.activeHistory[key] < |b.history| then
      var place := b.activeHistory[key];
      b.(objects := b.objects - {key},
         activeHistory := b.activeHistory - {key},
         history := b.history[place := b.history[place].(deleted := b.mutation + 1)],
         mutation := b.mutation + 1)
    else b
  }

  function DeleteReply(b: Blobs, key: Name, version: nat): Reply {
    if key !in b.objects then NotFound
    else if !Deletes(b, key, version) then VersionConflict
    else Accepted
  }

  // ----- invariant -----

  /** Versions count incarnations: line i of the history is version i + 1. So a
      version is never given twice, and one that is no longer current never
      becomes current again. */
  ghost predicate Sound(b: Blobs) {
    && b.nextVersion == |b.history|
    && (forall i | 0 <= i < |b.history| ::
          && b.history[i].info.version == i + 1
          && 0 < b.history[i].created <= b.mutation
          && b.history[i].deleted <= b.mutation
          && (b.history[i].deleted == 0
              ==> b.history[i].info.key in b.activeHistory && b.activeHistory[b.history[i].info.key] == i))
    && b.activeHistory.Keys == b.objects.Keys
    && (forall key | key in b.objects ::
          && b.activeHistory[key] < |b.history|
          && b.history[b.activeHistory[key]].info == b.objects[key]
          && b.history[b.activeHistory[key]].deleted == 0
          && b.objects[key].key == key)
  }

  lemma PutSound(b: Blobs, put: Put)
    requires Sound(b)
    ensures Sound(PutIfAbsent(b, put))
  {
    var c := PutIfAbsent(b, put);
    if c != b {
      forall i | 0 <= i < |c.history|
        ensures c.history[i].info.version == i + 1 && 0 < c.history[i].created <= c.mutation
                && c.history[i].deleted <= c.mutation
        ensures c.history[i].deleted == 0
                ==> c.history[i].info.key in c.activeHistory && c.activeHistory[c.history[i].info.key] == i
      {
        assert i < |b.history| ==> c.history[i] == b.history[i];
      }
    }
  }

  lemma DeleteSound(b: Blobs, key: Name, version: nat)
    requires Sound(b)
    ensures Sound(DeleteIfVersion(b, key, version))
    ensures Deletes(b, key, version) ==> key !in DeleteIfVersion(b, key, version).objects
  {
  }

  // ----- listing -----

  datatype Epoch = NewEpoch | Epoch(mutation: nat, highwater: nat)

  datatype Listing = Rejected | Listing(epoch: Epoch, next: nat, objects: seq<Info>, done: bool)

  predicate Visible(entry: Entry, snapshot: nat) {
    entry.created <= snapshot && (entry.deleted == 0 || entry.deleted > snapshot)
  }

  function VisibleInfos(entries: seq<Entry>, snapshot: nat): seq<Info> {
    if entries == [] then [] else
    var last := entries[|entries| - 1];
    VisibleInfos(entries[..|entries| - 1], snapshot) + (if Visible(last, snapshot) then [last.info] else [])
  }

  function Opened(b: Blobs, epoch: Epoch): Epoch {
    if epoch.NewEpoch? then Epoch(b.mutation, |b.history|) else epoch
  }

  /** `cursor` is the history offset the last page returned, zero for the empty text. */
  function ListPage(b: Blobs, epoch: Epoch, cursor: int, limit: int): Listing {
    if limit <= 0 || limit > MAXIMUM_LIST_BATCH || (epoch.NewEpoch? && cursor != 0) then Rejected else
    var current := Opened(b, epoch);
    if current.mutation > b.mutation || current.highwater > |b.history| then Rejected
    else if cursor < 0 || cursor > current.highwater then Rejected
    else
      var end := if cursor + limit > current.highwater then current.highwater else cursor + limit;
      Listing(current, if end == current.highwater then 0 else end,
              VisibleInfos(b.history[cursor..end], current.mutation), end == current.highwater)
  }

  datatype Op = PutOp(put: Put) | DeleteOp(key: Name, version: nat)

  function Apply(b: Blobs, op: Op): Blobs {
    match op
    case PutOp(put) => PutIfAbsent(b, put)
    case DeleteOp(key, version) => DeleteIfVersion(b, key, version)
  }

  function Run(b: Blobs, ops: seq<Op>): Blobs {
    if ops == [] then b else Apply(Run(b, ops[..|ops| - 1]), ops[|ops| - 1])
  }

  /** As seen from a past mutation, the old part of the history never changes. */
  ghost predicate Extends(past: Blobs, now: Blobs) {
    && past.mutation <= now.mutation
    && |past.history| <= |now.history|
    && (forall i | 0 <= i < |past.history| ::
          && now.history[i].info == past.history[i].info
          && now.history[i].created == past.history[i].created
          && (now.history[i].deleted == past.history[i].deleted
              || (past.history[i].deleted == 0 && past.mutation < now.history[i].deleted)))
  }

  lemma ApplyExtends(past: Blobs, b: Blobs, op: Op)
    requires Sound(past) && Sound(b) && Extends(past, b)
    ensures Sound(Apply(b, op)) && Extends(past, Apply(b, op))
  {
    match op
    case PutOp(put) =>
      PutSound(b, put);
      var c := PutIfAbsent(b, put);
      forall i | 0 <= i < |past.history| ensures c.history[i] == b.history[i] {}
    case DeleteOp(key, version) =>
      DeleteSound(b, key, version);
  }

  lemma {:induction false} RunExtends(past: Blobs, b: Blobs, ops: seq<Op>)
    requires Sound(past) && Sound(b) && Extends(past, b)
    ensures Sound(Run(b, ops)) && Extends(past, Run(b, ops))
  {
    hide Sound, Extends, Apply;
    if ops != [] {
      RunExtends(past, b, ops[..|ops| - 1]);
      ApplyExtends(past, Run(b, ops[..|ops| - 1]), ops[|ops| - 1]);
    }
  }

  lemma {:induction false} SnapshotStable(past: Blobs, now: Blobs, start: nat, end: nat)
    requires Extends(past, now) && start <= end <= |past.history|
    ensures VisibleInfos(now.history[start..end], past.mutation)
            == VisibleInfos(past.history[start..end], past.mutation)
    decreases end - start
  {
    assert start < end ==> Visible(now.history[end - 1], past.mutation) == Visible(past.history[end - 1], past.mutation)
                           && now.history[end - 1].info == past.history[end - 1].info;
    if start < end {
      hide Extends;
      SnapshotStable(past, now, start, end - 1);
      assert now.history[start..end][..end - start - 1] == now.history[start..end - 1];
      assert past.history[start..end][..end - start - 1] == past.history[start..end - 1];
    }
  }

  lemma {:induction false} VisibleConcat(entries: seq<Entry>, cut: nat, end: nat, snapshot: nat)
    requires cut <= end <= |entries|
    ensures VisibleInfos(entries[..end], snapshot)
            == VisibleInfos(entries[..cut], snapshot) + VisibleInfos(entries[cut..end], snapshot)
    decreases end - cut
  {
    if cut < end {
      VisibleConcat(entries, cut, end - 1, snapshot);
      assert entries[..end][..end - 1] == entries[..end - 1];
      assert entries[cut..end][..end - cut - 1] == entries[cut..end - 1];
    }
  }

  predicate Current(b: Blobs, info: Info) {
    info.key in b.objects && b.objects[info.key] == info
  }

  /** The list holds exactly the stored objects with versions up to `end`, in creation order. */
  ghost predicate Snapshot(b: Blobs, infos: seq<Info>, end: nat) {
    && (forall i | 0 <= i < |infos| :: Current(b, infos[i]) && infos[i].version <= end)
    && (forall i, j | 0 <= i < j < |infos| :: infos[i].version < infos[j].version)
    && (forall key | key in b.objects && b.objects[key].version <= end :: b.objects[key] in infos)
  }

  lemma LastLine(b: Blobs, end: nat)
    requires Sound(b) && 0 < end <= |b.history|
    ensures Visible(b.history[end - 1], b.mutation) ==> Current(b, b.history[end - 1].info)
    ensures b.history[end - 1].info.version == end
    ensures forall key | key in b.objects && b.objects[key].version == end ::
              Visible(b.history[end - 1], b.mutation) && b.objects[key] == b.history[end - 1].info
  {
    var last := b.history[end - 1];
    assert last.deleted == 0 ==> last.info.key in b.activeHistory.Keys;
  }

  /** What is visible at the current mutation is what is stored. */
  lemma {:induction false} VisibleIsStored(b: Blobs, end: nat)
    requires Sound(b) && end <= |b.history|
    ensures Snapshot(b, VisibleInfos(b.history[..end], b.mutation), end)
  {
    if end == 0 {
      NoVersionZero(b);
    } else {
      VisibleIsStored(b, end - 1);
      LastLine(b, end);
      hide Sound;
      assert b.history[..end][..end - 1] == b.history[..end - 1];
      var before := VisibleInfos(b.history[..end - 1], b.mutation);
      var last := b.history[end - 1];
      var infos := before + (if Visible(last, b.mutation) then [last.info] else []);
      assert VisibleInfos(b.history[..end], b.mutation) == infos;
      if Visible(last, b.mutation) {
        SnapshotGrows(b, before, last.info, end);
      }
    }
  }

  lemma SnapshotGrows(b: Blobs, before: seq<Info>, info: Info, end: nat)
    requires 0 < end && Snapshot(b, before, end - 1) && Current(b, info) && info.version == end
    requires forall key | key in b.objects && b.objects[key].version == end :: b.objects[key] == info
    ensures Snapshot(b, before + [info], end)
  {
    var infos := before + [info];
    forall key | key in b.objects && b.objects[key].version <= end ensures b.objects[key] in infos {
      if b.objects[key].version == end {
        assert infos[|before|] == info;
      } else {
        assert b.objects[key] in before;
      }
    }
  }

  lemma NoVersionZero(b: Blobs)
    requires Sound(b)
    ensures forall key | key in b.objects :: 0 < b.objects[key].version <= |b.history|
  {
    forall key | key in b.objects ensures 0 < b.objects[key].version <= |b.history| {
      assert b.history[b.activeHistory[key]].info.version == b.activeHistory[key] + 1;
    }
  }

  // ----- a listing spread over many pages -----

  /** One page, and the puts and deletes that happen before it. */
  datatype Segment = Segment(ops: seq<Op>, limit: int)

  datatype Progress = Progress(blobs: Blobs, epoch: Epoch, cursor: nat, listed: seq<Info>, done: bool)

  /** The collector's use of pages: the first opens an epoch, each next one
      repeats it with the returned cursor; a rejected page is tried again. */
  function Enumerate(start: Progress, segments: seq<Segment>): Progress {
    if segments == [] then start else
    var p := Enumerate(start, segments[..|segments| - 1]);
    var segment := segments[|segments| - 1];
    var b := Run(p.blobs, segment.ops);
    var page := ListPage(b, p.epoch, p.cursor, segment.limit);
    if p.done || page.Rejected? then p.(blobs := b)
    else Progress(b, page.epoch, page.next, p.listed + page.objects, page.done)
  }

  ghost predicate OnCourse(past: Blobs, p: Progress) {
    && Sound(p.blobs) && Extends(past, p.blobs)
    && p.epoch == Epoch(past.mutation, |past.history|)
    && (if p.done then p.listed == VisibleInfos(past.history, past.mutation)
        else p.cursor <= |past.history| && p.listed == VisibleInfos(past.history[..p.cursor], past.mutation))
  }

  lemma {:induction false} StaysOnCourse(past: Blobs, segments: seq<Segment>)
    requires Sound(past)
    ensures OnCourse(past, Enumerate(Progress(past, Epoch(past.mutation, |past.history|), 0, [], false), segments))
  {
    var start := Progress(past, Epoch(past.mutation, |past.history|), 0, [], false);
    if segments != [] {
      StaysOnCourse(past, segments[..|segments| - 1]);
      StepOnCourse(past, Enumerate(start, segments[..|segments| - 1]), segments[|segments| - 1]);
    }
  }

  lemma StepOnCourse(past: Blobs, p: Progress, segment: Segment)
    requires Sound(past) && OnCourse(past, p)
    ensures var b := Run(p.blobs, segment.ops);
            var page := ListPage(b, p.epoch, p.cursor, segment.limit);
            OnCourse(past, if p.done || page.Rejected? then p.(blobs := b)
                           else Progress(b, page.epoch, page.next, p.listed + page.objects, page.done))
  {
    hide Sound, Run, VisibleInfos;
    var b := Run(p.blobs, segment.ops);
    RunExtends(past, p.blobs, segment.ops);
    var page := ListPage(b, p.epoch, p.cursor, segment.limit);
    if !p.done && page.Listing? {
      var end := if p.cursor + segment.limit > |past.history| then |past.history| else p.cursor + segment.limit;
      SnapshotStable(past, b, p.cursor, end);
      VisibleConcat(past.history, p.cursor, end, past.mutation);
      assert past.history[..|past.history|] == past.history;
    }
  }

  /** Snapshot-stable listing: whatever is put and deleted between the pages,
      and whatever their sizes, the finished enumeration lists exactly the
      objects stored when its epoch was opened, each once, in creation order. */
  lemma ListingIsSnapshot(past: Blobs, segments: seq<Segment>)
    requires Sound(past)
    ensures var p := Enumerate(Progress(past, Opened(past, NewEpoch), 0, [], false), segments);
            p.done ==>
              && (forall info :: info in p.listed <==> Current(past, info))
              && (forall i, j | 0 <= i < j < |p.listed| :: p.listed[i].version < p.listed[j].version)
  {
    hide Enumerate, VisibleInfos;
    StaysOnCourse(past, segments);
    var p := Enumerate(Progress(past, Opened(past, NewEpoch), 0, [], false), segments);
    if p.done {
      VisibleIsStored(past, |past.history|);
      NoVersionZero(past);
      assert past.history[..|past.history|] == past.history;
      forall info: Info | info in p.listed ensures Current(past, info) {
        var i :| 0 <= i < |p.listed| && p.listed[i] == info;
      }
    }
  }

  /** Pages of any permitted sizes end: as many as the epoch has lines are enough, whatever happens in between. */
  lemma {:induction false} ListingEnds(past: Blobs, segments: seq<Segment>)
    requires Sound(past) && (forall i | 0 <= i < |segments| :: 0 < segments[i].limit <= MAXIMUM_LIST_BATCH)
    ensures var p := Enumerate(Progress(past, Opened(past, NewEpoch), 0, [], false), segments);
            && (!p.done ==> |segments| <= p.cursor && (segments != [] ==> p.cursor < |past.history|))
            && (segments != [] && |past.history| <= |segments| ==> p.done)
  {
    if segments != [] {
      var start := Progress(past, Opened(past, NewEpoch), 0, [], false);
      var front, last := segments[..|segments| - 1], segments[|segments| - 1];
      ListingEnds(past, front);
      StaysOnCourse(past, front);
      if !Enumerate(start, front).done {
        PageAdvances(past, Enumerate(start, front), last);
      }
    }
  }

  lemma PageAdvances(past: Blobs, p: Progress, segment: Segment)
    requires Sound(past) && OnCourse(past, p) && !p.done && 0 < segment.limit <= MAXIMUM_LIST_BATCH
    ensures var page := ListPage(Run(p.blobs, segment.ops), p.epoch, p.cursor, segment.limit);
            page.Listing? && (page.done || p.cursor < page.next < |past.history|)
  {
    hide Sound, Run, VisibleInfos;
    RunExtends(past, p.blobs, segment.ops);
  }

  // ----- what a put and a delete do -----

  lemma StoredSound(ops: seq<Op>)
    ensures Sound(Run(EMPTY, ops))
  {
    hide Sound, Apply, Extends;
    NothingStored();
    RunExtends(EMPTY, EMPTY, ops);
  }

  lemma NothingStored()
    ensures Sound(EMPTY) && Extends(EMPTY, EMPTY)
  {
  }

  /** In every reachable state a put of a new key stores it under a version nobody has had; one of a stored key
      is accepted if and only if the content is the same, and changes nothing. */
  lemma PutDecided(ops: seq<Op>, put: Put)
    ensures var b := Run(EMPTY, ops);
            var n, reply := PutIfAbsent(b, put), PutReply(b, put);
            if put.key == NO_NAME || put.digest == NO_NAME then n == b && reply == Corrupt
            else if put.key in b.objects then
              && n == b && reply == if b.objects[put.key].digest == put.digest then Accepted else Corrupt
            else
              && reply == Accepted && |n.history| == |b.history| + 1 && n.history[..|b.history|] == b.history
              && n.history[|b.history|].deleted == 0 && n.mutation == b.mutation + 1
              && n.objects == b.objects[put.key := n.history[|b.history|].info]
              && (forall i | 0 <= i < |b.history| :: b.history[i].info.version < n.objects[put.key].version)
              && n.objects[put.key] == Info(put.key, n.objects[put.key].version, put.digest, put.createdAt)
  {
    hide Run;
    StoredSound(ops);
  }

  /** In every reachable state a delete removes the object if and only if it is stored at this very version; its
      line of the history then says when, and no other line changes. */
  lemma DeleteDecided(ops: seq<Op>, key: Name, version: nat)
    ensures var b := Run(EMPTY, ops);
            var n, reply := DeleteIfVersion(b, key, version), DeleteReply(b, key, version);
            if key !in b.objects then n == b && reply == NotFound
            else if b.objects[key].version != version then n == b && reply == VersionConflict
            else
              && reply == Accepted && n.objects == b.objects - {key} && n.mutation == b.mutation + 1
              && 0 < version <= |b.history|
              && n.history == b.history[version - 1 := b.history[version - 1].(deleted := n.mutation)]
  {
    hide Run;
    StoredSound(ops);
    var b := Run(EMPTY, ops);
    NoVersionZero(b);
    if key in b.objects {
      assert b.history[b.activeHistory[key]].info.version == b.activeHistory[key] + 1;
    }
  }

  /** A page is refused exactly for a size that is not permitted, an epoch of the future or a place outside it;
      otherwise it lists the stretch it was asked for and says where to go on. */
  lemma PageDecided(b: Blobs, epoch: Epoch, cursor: int, limit: int)
    ensures var page := ListPage(b, epoch, cursor, limit);
            var highwater := if epoch.NewEpoch? then |b.history| else epoch.highwater;
            if || limit < 1 || 4096 < limit || cursor < 0 || highwater < cursor || (epoch.NewEpoch? && cursor > 0)
               || (epoch.Epoch? && (b.mutation < epoch.mutation || |b.history| < epoch.highwater))
            then page == Rejected
            else && page.Listing? && (page.done <==> highwater <= cursor + limit)
                 && page.epoch == Epoch(if epoch.NewEpoch? then b.mutation else epoch.mutation, highwater)
                 && page.next == (if page.done then 0 else cursor + limit)
                 && (forall info :: info in page.objects <==> exists i ::
                       && cursor <= i < highwater && i < cursor + limit && b.history[i].info == info
                       && Visible(b.history[i], page.epoch.mutation))
  {
    hide Visible, VisibleInfos;
    var page := ListPage(b, epoch, cursor, limit);
    if page.Listing? {
      var end := if cursor + limit > page.epoch.highwater then page.epoch.highwater else cursor + limit;
      VisibleMembers(b.history[cursor..end], page.epoch.mutation);
      forall info
        ensures info in page.objects <==> exists i ::
                  cursor <= i < end && b.history[i].info == info && Visible(b.history[i], page.epoch.mutation)
      {
        if info in page.objects {
          var i :| 0 <= i < end - cursor && b.history[cursor..end][i].info == info
                   && Visible(b.history[cursor..end][i], page.epoch.mutation);
          assert b.history[cursor..end][i] == b.history[cursor + i];
        }
        if i :| cursor <= i < end && b.history[i].info == info && Visible(b.history[i], page.epoch.mutation) {
          assert b.history[cursor..end][i - cursor] == b.history[i];
        }
      }
    }
  }

  lemma {:induction false} VisibleMembers(entries: seq<Entry>, snapshot: nat)
    ensures forall info :: info in VisibleInfos(entries, snapshot) <==>
              exists i :: 0 <= i < |entries| && entries[i].info == info && Visible(entries[i], snapshot)
  {
    hide Visible;
    if entries != [] {
      var front, last := entries[..|entries| - 1], entries[|entries| - 1];
      VisibleMembers(front, snapshot);
      forall info
        ensures info in VisibleInfos(entries, snapshot) <==>
                  exists i :: 0 <= i < |entries| && entries[i].info == info && Visible(entries[i], snapshot)
      {
        if i :| 0 <= i < |entries| && entries[i].info == info && Visible(entries[i], snapshot) {
          assert i < |front| ==> front[i] == entries[i];
        }
        if i :| 0 <= i < |front| && front[i].info == info && Visible(front[i], snapshot) {
          assert entries[i] == front[i];
        }
        assert entries[|entries| - 1] == last;
      }
    }
  }
}
