/**
 The storage manager in memory: metadata objects whose permission lists and replicas are changed in place,
 shared by the database and suspended replications. Each method is one segment between awaits.
 */
module Storage {
  import opened Basics
  import opened JsMap
  import opened FileProtocol

  class Metadata {
    /** The object's number in the protocol's heap. */
    ghost const ref: nat
    const id: FileId
    const originalName: string
    const ownerId: User
    const createdAt: int
    const replicationFactor: int
    const isPublic: bool
    var accessControl: Access
    var replicas: seq<Replica>

    constructor (ghost ref: nat, m: Meta)
      ensures this.ref == ref && Snapshot() == m
    {
      this.ref, id, originalName, ownerId, createdAt := ref, m.id, m.originalName, m.ownerId, m.createdAt;
      replicationFactor, isPublic, accessControl, replicas := m.replicationFactor, m.isPublic, m.access, m.replicas;
    }

    function Snapshot(): Meta
      reads this
    {
      Meta(id, originalName, ownerId, createdAt, replicationFactor, isPublic, accessControl, replicas)
    }

    /** The permissions in order; each list gets the target once. */
    method Push(target: User, permissions: seq<string>) returns (reply: Reply)
      modifies this`accessControl
      ensures (accessControl, reply) == Pushed(old(accessControl), target, permissions)
    {
      for i := 0 to |permissions|
        invariant Pushed(old(accessControl), target, permissions) == Pushed(accessControl, target, permissions[i..])
      {
        var p := permissions[i];
        assert permissions[i..][1..] == permissions[i + 1..];
        if p !in accessControl {
          return Fault;
        }
        if target !in accessControl[p] {
          accessControl := accessControl[p := accessControl[p] + [target]];
        }
      }
      reply := Done;
    }
  }

  /** A suspended operation, with the object it holds. */
  datatype Task =
    | Deleting(id: FileId, unlinked: Option<bool>)
    | Sending(id: FileId, metadata: Metadata, targets: seq<Peer>)
  {
    ghost function Op(): FileProtocol.Op {
      match this
      case Deleting(id, unlinked) => FileProtocol.Deleting(id, unlinked)
      case Sending(id, m, targets) => FileProtocol.Sending(id, m.ref, targets)
    }
  }

  class StorageManager {
    var metadataDB: map<FileId, Metadata>
    /** The iteration list of `metadataDB`. */
    var slots: Slots<FileId>
    var files: set<FileId>
    var tasks: map<nat, Task>
    var nextTicket: nat
    /** Every metadata object made so far. */
    ghost var objects: seq<Metadata>

    ghost predicate Valid()
      reads this, objects
    {
      && (forall i :: 0 <= i < |objects| ==> objects[i].ref == i)
      && (forall id :: id in metadataDB ==> Known(metadataDB[id]))
      && (forall t :: t in tasks ==> t < nextTicket && (tasks[t].Sending? ==> Known(tasks[t].metadata)))
      && Lists(slots, metadataDB.Keys)
    }

    ghost predicate Known(m: Metadata)
      reads this
    {
      m.ref < |objects| && objects[m.ref] == m
    }

    /** The state of the protocol. */
    ghost function View(): State
      reads this, objects
    {
      State(
        seq(|objects|, i requires 0 <= i < |objects| reads this, objects => objects[i].Snapshot()),
        Refs(metadataDB),
        files,
        map t | t in tasks :: tasks[t].Op(),
        nextTicket)
    }

    lemma ValidRefs()
      requires Valid()
      ensures RefsOk(View())
    {
    }

    constructor ()
      ensures Valid() && View() == State([], map[], {}, map[], 0)
    {
      metadataDB, slots, files, tasks, nextTicket, objects := map[], [], {}, map[], 0, [];
    }

    method SetEntry(id: FileId, m: Metadata)
      requires Valid() && Known(m)
      modifies this`metadataDB, this`slots
      ensures Valid() && View() == old(View()).(db := old(View()).db[id := m.ref])
    {
      AddLists(slots, metadataDB.Keys, id);
      RefsWith(metadataDB, id, m);
      metadataDB, slots := metadataDB[id := m], Add(slots, id);
    }

    method DeleteEntry(id: FileId)
      requires Valid()
      modifies this`metadataDB, this`slots
      ensures Valid() && View() == old(View()).(db := old(View()).db - {id})
    {
      EraseLists(slots, metadataDB.Keys, id);
      RefsWithout(metadataDB, id);
      metadataDB, slots := metadataDB - {id}, Erase(slots, id);
    }

    method NewObject(meta: Meta) returns (m: Metadata)
      requires Valid()
      modifies this`objects
      ensures Valid() && Known(m) && fresh(m) && objects == old(objects) + [m]
      ensures m.ref == |old(View()).heap| && View() == old(View()).(heap := old(View()).heap + [meta])
    {
      ghost var was := View();
      m := new Metadata(|objects|, meta);
      objects := objects + [m];
      assert View().heap == was.heap + [meta];
    }

    method StoreFile(e: Event)
      requires Valid() && e.Store?
      modifies this
      ensures Valid() && RefsOk(old(View())) && View() == Next(old(View()), e).0
    {
      ValidRefs();
      var factor := if e.factor == 0 then 2 else e.factor;
      var access := if e.access.Some? then e.access.value else map["read" := [e.ownerId], "write" := [e.ownerId]];
      var m := NewObject(Meta(e.id, e.originalName, e.ownerId, e.now, factor, e.isPublic, access, []));
      SetEntry(e.id, m);
      files := files + {e.id};
    }

    method ShareFile(id: FileId, claimed: User, target: User, permissions: seq<string>) returns (reply: Reply)
      requires Valid()
      modifies this, objects
      ensures Valid() && RefsOk(old(View())) && (View(), reply) == Next(old(View()), Share(id, claimed, target, permissions))
    {
      ValidRefs();
      ghost var was := View();
      if id !in metadataDB {
        return NotFound;
      }
      var metadata := metadataDB[id];
      if metadata.ownerId != claimed {
        return OwnerOnly;
      }
      reply := metadata.Push(target, permissions);
      assert View().heap == was.heap[metadata.ref := was.heap[metadata.ref].(access := metadata.accessControl)];
      assert View().db == was.db && View().ops == was.ops;
    }

    method GetFile(id: FileId, user: User) returns (reply: Reply)
      requires Valid()
      ensures RefsOk(View()) && reply == FileProtocol.GetFile(View(), id, user)
    {
      ValidRefs();
      if id !in metadataDB {
        return NotFound;
      }
      var metadata := metadataDB[id];
      if !metadata.isPublic {
        if "read" !in metadata.accessControl {
          return Fault;
        }
        if user !in metadata.accessControl["read"] && metadata.ownerId != user {
          return Denied;
        }
      }
      reply := if id in files then Done else NotFound;
    }

    /** The loop of `listFiles` over the map's entries. */
    method ListFiles(user: User) returns (files: Option<seq<FileId>>)
      requires Valid()
      ensures RefsOk(View()) && Lists(slots, View().db.Keys)
      ensures ListedIn(View(), slots, user, files)
    {
      ValidRefs();
      ghost var s := View();
      assert s.db.Keys == metadataDB.Keys;
      var found: seq<FileId> := [];
      for i := 0 to |slots|
        invariant Scanned(s, slots, i, user, found)
      {
        var more := ListSlot(i, user, s, found);
        if more.None? {
          return None;
        }
        found := more.value;
      }
      ScannedAll(s, slots, user, found);
      files := Some(found);
    }

    /** The loop's body; None if it fails. */
    method ListSlot(i: nat, user: User, ghost s: State, found: seq<FileId>) returns (more: Option<seq<FileId>>)
      requires Valid() && s == View() && RefsOk(s) && Scanned(s, slots, i, user, found) && i < |slots|
      ensures if more.None? then ListedIn(s, slots, user, None) else Scanned(s, slots, i + 1, user, more.value)
    {
      ScannedStep(s, slots, i, user, found);
      if slots[i].None? {
        return Some(found);
      }
      var check := CheckEntry(slots[i].value, user);
      more := if check.None? then None else if check.value then Some(found + [slots[i].value]) else Some(found);
    }

    method CheckEntry(id: FileId, user: User) returns (check: Option<bool>)
      requires Valid() && id in metadataDB
      ensures id in View().db && View().db[id] < |View().heap|
      ensures check == CheckList(View().heap[View().db[id]], user)
    {
      check := Check(metadataDB[id], user);
    }

    /** Whether a file is listed for a user; None if the read list is asked for and is not there. */
    static method Check(metadata: Metadata, user: User) returns (check: Option<bool>)
      ensures check == CheckList(metadata.Snapshot(), user)
    {
      if metadata.isPublic || metadata.ownerId == user {
        return Some(true);
      }
      if "read" !in metadata.accessControl {
        return None;
      }
      check := Some(user in metadata.accessControl["read"]);
    }

    /** `deleteFile` up to the await of the removal of the data. */
    method DeleteCall(id: FileId, user: User) returns (reply: Reply)
      requires Valid()
      modifies this
      ensures Valid() && RefsOk(old(View())) && (View(), reply) == Next(old(View()), Event.DeleteCall(id, user))
    {
      ValidRefs();
      if id !in metadataDB {
        return NotFound;
      }
      var metadata := metadataDB[id];
      if metadata.ownerId != user {
        if "write" !in metadata.accessControl {
          return Fault;
        }
        if user !in metadata.accessControl["write"] {
          return Denied;
        }
      }
      if id in files {
        Suspend(Task.Deleting(id, None));
      } else {
        DeleteEntry(id);
      }
      reply := Done;
    }

    method Suspend(task: Task)
      requires Valid() && (task.Sending? ==> Known(task.metadata))
      modifies this`tasks, this`nextTicket
      ensures Valid()
      ensures View() == old(View()).(ops := old(View()).ops[old(nextTicket) := task.Op()], next := old(nextTicket) + 1)
    {
      ghost var was := View();
      tasks, nextTicket := tasks[nextTicket := task], nextTicket + 1;
      assert View().ops == was.ops[was.next := task.Op()];
    }

    method Finish(t: nat)
      requires Valid()
      modifies this`tasks
      ensures Valid() && View() == old(View()).(ops := old(View()).ops - {t})
    {
      ghost var was := View();
      tasks := tasks - {t};
      assert View().ops == was.ops - {t};
    }

    /** The file system removes the data, if it is still there. */
    method Unlink(t: nat)
      requires Valid() && Enabled(View(), Event.Unlink(t))
      modifies this`tasks, this`files
      ensures Valid() && RefsOk(old(View())) && View() == Next(old(View()), Event.Unlink(t)).0
    {
      ValidRefs();
      ghost var was := View();
      var id := tasks[t].id;
      tasks := tasks[t := Task.Deleting(id, Some(id in files))];
      assert View().ops == was.ops[t := tasks[t].Op()];
      files := files - {id};
    }

    method DeleteResume(t: nat) returns (reply: Reply)
      requires Valid() && Enabled(View(), Event.DeleteResume(t))
      modifies this
      ensures Valid() && RefsOk(old(View())) && (View(), reply) == Next(old(View()), Event.DeleteResume(t))
    {
      ValidRefs();
      var task := tasks[t];
      Finish(t);
      if !task.unlinked.value {
        return Fault;
      }
      DeleteEntry(task.id);
      reply := Done;
    }

    /** `replicateFile` up to its first await; `shuffled` is the random order. */
    method ReplicateCall(id: FileId, ghost peers: seq<Peer>, shuffled: seq<Peer>) returns (reply: Reply)
      requires Valid() && Enabled(View(), Event.ReplicateCall(id, peers, shuffled))
      modifies this`tasks, this`nextTicket
      ensures Valid() && RefsOk(old(View())) && (View(), reply) == Next(old(View()), Event.ReplicateCall(id, peers, shuffled))
    {
      ValidRefs();
      if id !in metadataDB || id !in files {
        return NotFound;
      }
      var metadata := metadataDB[id];
      Suspend(Task.Sending(id, metadata, Slice(shuffled, metadata.replicationFactor)));
      reply := Done;
    }

    /** The loop over the targets; an answer of None is a peer that could not be reached or refused. */
    static method SendToAll(targets: seq<Peer>, answers: seq<Option<string>>) returns (replications: seq<Replica>)
      requires |answers| == |targets|
      ensures replications == Accepted(targets, answers)
    {
      replications := [];
      for i := 0 to |targets|
        invariant replications == Accepted(targets[..i], answers[..i])
      {
        assert targets[..i + 1][..i] == targets[..i] && answers[..i + 1][..i] == answers[..i];
        if answers[i].Some? {
          replications := replications + [Replica(targets[i].id, answers[i].value)];
        }
      }
      assert targets[..|targets|] == targets && answers[..|targets|] == answers;
    }

    /** `replicateFile` after the last answer. */
    method ReplicateResume(t: nat, answers: seq<Option<string>>)
      requires Valid() && Enabled(View(), Event.ReplicateResume(t, answers))
      modifies this, objects
      ensures Valid() && RefsOk(old(View())) && View() == Next(old(View()), Event.ReplicateResume(t, answers)).0
    {
      ValidRefs();
      ghost var was := View();
      var task := tasks[t];
      var replications := SendToAll(task.targets, answers);
      task.metadata.replicas := replications;
      assert View().heap == was.heap[task.metadata.ref := was.heap[task.metadata.ref].(replicas := replications)];
      assert View().db == was.db && View().ops == was.ops;
      SetEntry(task.id, task.metadata);
      Finish(t);
    }
  }

  /** The listing has found `found` in the first `i` slots. */
  ghost predicate Scanned(s: State, slots: Slots<FileId>, i: nat, user: User, found: seq<FileId>)
    requires RefsOk(s)
  {
    && Lists(slots, s.db.Keys) && i <= |slots|
    && (forall id :: id in Entries(slots[..i]) ==> id in s.db)
    && Listed(s, Entries(slots[..i]), user) == Some(found)
  }

  /** The listing of all entries, in the order of their slots, gives `files`. */
  ghost predicate ListedIn(s: State, slots: Slots<FileId>, user: User, files: Option<seq<FileId>>)
    requires RefsOk(s)
  {
    && (forall id :: id in Entries(slots) ==> id in s.db)
    && files == Listed(s, Entries(slots), user)
  }

  lemma ScannedAll(s: State, slots: Slots<FileId>, user: User, found: seq<FileId>)
    requires RefsOk(s) && Scanned(s, slots, |slots|, user, found)
    ensures ListedIn(s, slots, user, Some(found))
  {
    assert slots[..|slots|] == slots;
  }

  lemma EntriesListed(slots: Slots<FileId>, keys: set<FileId>, i: nat)
    requires Lists(slots, keys) && i <= |slots|
    ensures forall id :: id in Entries(slots[..i]) ==> id in keys
    ensures forall k :: 0 <= k < |slots| && slots[k].Some? ==> slots[k].value in keys
  {
    EntriesOf(slots, keys, i);
  }

  lemma ScannedStep(s: State, slots: Slots<FileId>, i: nat, user: User, found: seq<FileId>)
    requires RefsOk(s) && Scanned(s, slots, i, user, found) && i < |slots|
    ensures slots[i].None? ==> Scanned(s, slots, i + 1, user, found)
    ensures slots[i].Some? ==>
              && slots[i].value in s.db
              && var check := CheckList(s.heap[s.db[slots[i].value]], user);
                 if check.None? then ListedIn(s, slots, user, None)
                 else Scanned(s, slots, i + 1, user, if check.value then found + [slots[i].value] else found)
  {
    hide CheckList, Lists, Entries, Listed;
    EntriesListed(slots, s.db.Keys, i + 1);
    EntriesListed(slots, s.db.Keys, |slots|);
    assert slots[..|slots|] == slots;
    EntriesStep(slots, i);
    assert found + [] == found;
    if slots[i].Some? {
      ListedMore(s, Entries(slots[..i]), slots[i].value, user);
      EntriesPrefix(slots, i + 1);
      if CheckList(s.heap[s.db[slots[i].value]], user).None? {
        ListedFails(s, Entries(slots[..i + 1]), Entries(slots), user);
      }
    }
  }

  ghost function Refs(db: map<FileId, Metadata>): map<FileId, nat> {
    map id | id in db :: db[id].ref
  }

  lemma RefsWith(db: map<FileId, Metadata>, id: FileId, m: Metadata)
    ensures Refs(db[id := m]) == Refs(db)[id := m.ref] && db[id := m].Keys == db.Keys + {id}
  {
  }

  lemma RefsWithout(db: map<FileId, Metadata>, id: FileId)
    ensures Refs(db - {id}) == Refs(db) - {id} && (db - {id}).Keys == db.Keys - {id}
  {
  }

  lemma ListedMore(s: State, order: seq<FileId>, id: FileId, user: User)
    requires RefsOk(s) && (forall x :: x in order ==> x in s.db) && id in s.db
    ensures (forall x :: x in order + [id] ==> x in s.db)
    ensures var check := CheckList(s.heap[s.db[id]], user);
            Listed(s, order + [id], user) ==
            if Listed(s, order, user).None? || check.None? then None
            else Some(Listed(s, order, user).value + if check.value then [id] else [])
  {
    assert (order + [id])[..|order|] == order;
  }

  /** A listing that fails on a part of the entries fails on all. */
  lemma {:induction false} ListedFails(s: State, a: seq<FileId>, b: seq<FileId>, user: User)
    requires RefsOk(s) && (forall x :: x in b ==> x in s.db) && a <= b && Listed(s, a, user).None?
    ensures Listed(s, b, user).None?
  {
    if a != b {
      ListedFails(s, a, b[..|b| - 1], user);
    }
  }
}
