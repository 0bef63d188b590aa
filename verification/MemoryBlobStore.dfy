/** The blob store as it runs: an object map, an append-only history and two
    counters updated in place. */
module MemoryBlobStore {
  import opened Common
  import Spec = BlobStore

  /** Copies the lines of one stretch that the snapshot sees. */
  method Select(lines: seq<Spec.Entry>, snapshot: nat) returns (infos: seq<Spec.Info>)
    ensures infos == Spec.VisibleInfos(lines, snapshot)
  {
    infos := [];
    for i := 0 to |lines|
      invariant infos == Spec.VisibleInfos(lines[..i], snapshot)
    {
      assert lines[..i + 1][..i] == lines[..i];
      if lines[i].created <= snapshot && (lines[i].deleted == 0 || lines[i].deleted > snapshot) {
        infos := infos + [lines[i].info];
      }
    }
    assert lines[..|lines|] == lines;
  }

  class Store {
    var objects: map<Name, Spec.Info>
    var activeHistory: map<Name, nat>
    var history: seq<Spec.Entry>
    var mutation: nat
    var nextVersion: nat

    ghost function View(): Spec.Blobs
      reads this
    {
      Spec.Blobs(objects, activeHistory, history, mutation, nextVersion)
    }

    ghost predicate Valid()
      reads this
    {
      Spec.Sound(View())
    }

    constructor ()
      ensures Valid() && View() == Spec.EMPTY
    {
      objects, activeHistory, history, mutation, nextVersion := map[], map[], [], 0, 0;
    }

    method PutIfAbsent(put: Spec.Put) returns (reply: Spec.Reply)
      requires Valid()
      modifies this
      ensures Valid() && View() == Spec.PutIfAbsent(old(View()), put)
      ensures reply == Spec.PutReply(old(View()), put)
    {
      hide Spec.Sound;
      Spec.PutSound(View(), put);
      if put.key == NO_NAME || put.digest == NO_NAME {
        return Spec.Corrupt;
      }
      if put.key in objects {
        if objects[put.key].digest != put.digest {
          return Spec.Corrupt;
        }
        return Spec.Accepted;
      }
      nextVersion := nextVersion + 1;
      mutation := mutation + 1;
      var info := Spec.Info(put.key, nextVersion, put.digest, put.createdAt);
      objects := objects[put.key := info];
      history := history + [Spec.Entry(info, mutation, 0)];
      activeHistory := activeHistory[put.key := |history| - 1];
      return Spec.Accepted;
    }

    method DeleteIfVersion(key: Name, version: nat) returns (reply: Spec.Reply)
      requires Valid()
      modifies this
      ensures Valid() && View() == Spec.DeleteIfVersion(old(View()), key, version)
      ensures reply == Spec.DeleteReply(old(View()), key, version)
      ensures reply == Spec.Accepted ==> key !in objects
    {
      Spec.DeleteSound(View(), key, version);
      if key !in objects {
        return Spec.NotFound;
      }
      if version == 0 || objects[key].version != version {
        return Spec.VersionConflict;
      }
      mutation := mutation + 1;
      var place := activeHistory[key];
      history := history[place := history[place].(deleted := mutation)];
      activeHistory := activeHistory - {key};
      objects := objects - {key};
      return Spec.Accepted;
    }

    method ListPage(epoch: Spec.Epoch, cursor: int, limit: int) returns (page: Spec.Listing)
      ensures page == Spec.ListPage(View(), epoch, cursor, limit)
    {
      hide Spec.VisibleInfos;
      if limit <= 0 || limit > Spec.MAXIMUM_LIST_BATCH || (epoch.NewEpoch? && cursor != 0) {
        return Spec.Rejected;
      }
      var current := epoch;
      if epoch.NewEpoch? {
        current := Spec.Epoch(mutation, |history|);
      } else if epoch.mutation > mutation || epoch.highwater > |history| {
        return Spec.Rejected;
      }
      if cursor < 0 || cursor > current.highwater {
        return Spec.Rejected;
      }
      var end := cursor + limit;
      if end > current.highwater {
        end := current.highwater;
      }
      var infos := Select(history[cursor..end], current.mutation);
      var done := end == current.highwater;
      return Spec.Listing(current, if done then 0 else end, infos, done);
    }
  }
}
