/**
 Stored files, their permission lists and their replicas, as a transition system. Operations are cut at
 their awaits. A metadata object is a position in `heap`; the database and suspended replications share it.
 */
module FileProtocol {
  import opened Basics

  type FileId = string
  type User = string

  /** The lists of `accessControl`; whoever stores a file may give any. */
  type Access = map<string, seq<User>>

  datatype Peer = Peer(id: string, apiEndpoint: string)
  datatype Replica = Replica(peerId: string, replicaId: string)

  datatype Meta = Meta(
    id: FileId, originalName: string, ownerId: User, createdAt: int,
    replicationFactor: int, isPublic: bool, access: Access, replicas: seq<Replica>)

  /** A deletion waiting for the removal of the data, or a replication sending to its targets. */
  datatype Op =
    | Deleting(id: FileId, unlinked: Option<bool>)
    | Sending(id: FileId, ref: nat, targets: seq<Peer>)

  datatype State = State(
    heap: seq<Meta>,
    db: map<FileId, nat>,   // metadataDB
    files: set<FileId>,     // the data in the storage directory
    ops: map<nat, Op>,
    next: nat)

  datatype Event =
    | Store(id: FileId, originalName: string, ownerId: User, factor: int, isPublic: bool, access: Option<Access>, now: int)
    | Share(id: FileId, claimed: User, target: User, permissions: seq<string>)
    | DeleteCall(id: FileId, user: User)
    | Unlink(t: nat)
    | DeleteResume(t: nat)
    | ReplicateCall(id: FileId, peers: seq<Peer>, shuffled: seq<Peer>)
    | ReplicateResume(t: nat, answers: seq<Option<string>>)

  /** `Fault` is an error that the code does not foresee: a list that is not there, or data that is already gone. */
  datatype Reply = Done | NotFound | Denied | OwnerOnly | Fault

  // ---------- permissions ----------

  /** The permission check of `getFile`. */
  function CheckGet(m: Meta, user: User): Reply {
    if m.isPublic then Done
    else if "read" !in m.access then Fault
    else if user !in m.access["read"] && m.ownerId != user then Denied
    else Done
  }

  function GetFile(s: State, id: FileId, user: User): Reply
    requires RefsOk(s)
  {
    if id !in s.db then NotFound
    else if CheckGet(s.heap[s.db[id]], user) != Done then CheckGet(s.heap[s.db[id]], user)
    else if id !in s.files then NotFound
    else Done
  }

  /** The check of `listFiles`, which asks for the owner first; None if it looks for a list that is not there. */
  function CheckList(m: Meta, user: User): Option<bool> {
    if m.isPublic || m.ownerId == user then Some(true)
    else if "read" !in m.access then None
    else Some(user in m.access["read"])
  }

  /** The two checks agree except on a private file without a read list, for its owner. */
  lemma ListAgreesWithGet(m: Meta, user: User)
    ensures (CheckList(m, user) == Some(true) <==> CheckGet(m, user) == Done)
       <==> m.isPublic || "read" in m.access || m.ownerId != user
  {
  }

  /** The files that `listFiles` collects, in the order of the database; None if it fails. */
  function Listed(s: State, order: seq<FileId>, user: User): Option<seq<FileId>>
    requires RefsOk(s) && forall id :: id in order ==> id in s.db
  {
    if order == [] then Some([])
    else
      var front, id := Listed(s, order[..|order| - 1], user), order[|order| - 1];
      var check := CheckList(s.heap[s.db[id]], user);
      if front.None? || check.None? then None
      else Some(front.value + if check.value then [id] else [])
  }

  /** The listing fails exactly if a private file of someone else has no read list ... */
  lemma {:induction false} ListingFails(s: State, order: seq<FileId>, user: User)
    requires RefsOk(s) && forall id :: id in order ==> id in s.db
    ensures Listed(s, order, user).None? <==>
            exists id :: id in order && !s.heap[s.db[id]].isPublic && s.heap[s.db[id]].ownerId != user
                         && "read" !in s.heap[s.db[id]].access
  {
    if order != [] {
      ListingFails(s, order[..|order| - 1], user);
      assert order == order[..|order| - 1] + [order[|order| - 1]];
    }
  }

  /** ... and otherwise lists, once each, exactly the files whose check in `getFile` passes, and those the checks differ on. */
  lemma {:induction false} ListingIsReadable(s: State, order: seq<FileId>, user: User)
    requires RefsOk(s) && (forall id :: id in order ==> id in s.db) && Distinct(order)
    requires Listed(s, order, user).Some?
    ensures var files := Listed(s, order, user).value;
            && Distinct(files)
            && forall id :: id in files <==>
                 id in order && (CheckGet(s.heap[s.db[id]], user) == Done
                                 || (s.heap[s.db[id]].ownerId == user && "read" !in s.heap[s.db[id]].access))
  {
    if order != [] {
      var front, id := order[..|order| - 1], order[|order| - 1];
      ListingIsReadable(s, front, user);
      assert order == front + [id];
      var before := Listed(s, front, user).value;
      assert id !in before;
      ListAgreesWithGet(s.heap[s.db[id]], user);
    }
  }

  function CheckDelete(m: Meta, user: User): Reply {
    if m.ownerId == user then Done
    else if "write" !in m.access then Fault
    else if user !in m.access["write"] then Denied
    else Done
  }

  /** `forEach` over the permissions; it stops at the first that has no list, and what was pushed before stays. */
  function Pushed(access: Access, target: User, permissions: seq<string>): (Access, Reply) {
    if permissions == [] then (access, Done)
    else
      var p := permissions[0];
      if p !in access then (access, Fault)
      else if target in access[p] then Pushed(access, target, permissions[1..])
      else Pushed(access[p := access[p] + [target]], target, permissions[1..])
  }

  /** The permissions before the first that has no list. */
  function Effective(permissions: seq<string>, lists: set<string>): seq<string> {
    if permissions == [] || permissions[0] !in lists then []
    else [permissions[0]] + Effective(permissions[1..], lists)
  }

  /** These are the longest prefix whose permissions all have lists. */
  lemma {:induction false} EffectiveIs(permissions: seq<string>, lists: set<string>)
    ensures var n := |Effective(permissions, lists)|;
            && n <= |permissions| && Effective(permissions, lists) == permissions[..n]
            && (forall i :: 0 <= i < n ==> permissions[i] in lists)
            && (n < |permissions| ==> permissions[n] !in lists)
  {
    if permissions != [] && permissions[0] in lists {
      EffectiveIs(permissions[1..], lists);
      assert forall i :: 0 < i < |permissions| ==> permissions[i] == permissions[1..][i - 1];
    }
  }

  /** Sharing gives exactly the effective permissions, to exactly the target, and adds no one twice. */
  lemma {:induction false} PushedIs(access: Access, target: User, permissions: seq<string>)
    ensures var (after, reply) := Pushed(access, target, permissions);
            && after.Keys == access.Keys
            && (reply == Done <==> Effective(permissions, access.Keys) == permissions)
            && (reply == Done || reply == Fault)
            && (forall p, u :: p in access ==>
                  (u in after[p] <==> u in access[p] || (u == target && p in Effective(permissions, access.Keys))))
            && (forall p :: p in access ==> access[p] <= after[p])
            && (forall p :: p in access && Distinct(access[p]) ==> Distinct(after[p]))
    decreases |permissions|
  {
    if permissions != [] && permissions[0] in access {
      var p := permissions[0];
      var next := if target in access[p] then access else access[p := access[p] + [target]];
      PushedIs(next, target, permissions[1..]);
      assert next.Keys == access.Keys;
      var rest := Effective(permissions[1..], access.Keys);
      assert forall q :: q in [p] + rest <==> q == p || q in rest;
      assert [p] + rest == permissions <==> rest == permissions[1..] by {
        assert permissions == [p] + permissions[1..];
        assert ([p] + rest)[1..] == rest;
      }
    }
  }

  // ---------- replication ----------

  /** `slice(0, end)` of an array: a negative end counts from its end. */
  function Slice<T>(s: seq<T>, end: int): seq<T> {
    if end >= 0 then s[..if end <= |s| then end else |s|]
    else if |s| + end >= 0 then s[..|s| + end]
    else []
  }

  /** A slice has at most `end` elements exactly when `end` is not negative. */
  lemma SliceBound<T>(s: seq<T>, end: int)
    ensures |Slice(s, end)| <= end <==> end >= 0
    ensures Slice(s, end) <= s
  {
  }

  ghost predicate DistinctPeers(peers: seq<Peer>) {
    forall i, j :: 0 <= i < j < |peers| ==> peers[i].id != peers[j].id
  }

  lemma {:induction false} ShuffledDistinct(a: seq<Peer>, b: seq<Peer>)
    requires multiset(a) == multiset(b) && DistinctPeers(a)
    ensures DistinctPeers(b)
    decreases |a|
  {
    SameLength(a, b);
    if a != [] {
      var n := |a| - 1;
      var p := WithoutLast(a, b);
      var rest := b[..p] + b[p + 1..];
      ShuffledDistinct(a[..n], rest);
      forall x | x in rest ensures x.id != a[n].id {
        assert x in multiset(rest);
        assert x in multiset(a[..n]);
        assert x in a[..n];
      }
      forall i, j | 0 <= i < j < |b| ensures b[i].id != b[j].id {
        if i != p && j != p {
          assert b[i] == rest[if i < p then i else i - 1] && b[j] == rest[if j < p then j else j - 1];
        } else {
          var k := if i == p then j else i;
          assert b[k] == rest[if k < p then k else k - 1];
        }
      }
    }
  }

  /** The peers that have accepted, with the name each gave to its copy. */
  function Accepted(targets: seq<Peer>, answers: seq<Option<string>>): (r: seq<Replica>)
    requires |targets| == |answers|
    ensures |r| <= |targets|
  {
    if targets == [] then []
    else
      var n := |targets| - 1;
      Accepted(targets[..n], answers[..n]) + if answers[n].Some? then [Replica(targets[n].id, answers[n].value)] else []
  }

  /** Replicas stand with different peers. */
  ghost predicate DistinctReplicas(rs: seq<Replica>) {
    forall i, j :: 0 <= i < j < |rs| ==> rs[i].peerId != rs[j].peerId
  }

  lemma {:induction false} AcceptedIs(targets: seq<Peer>, answers: seq<Option<string>>)
    requires |targets| == |answers|
    ensures forall x :: x in Accepted(targets, answers) <==>
                          exists i :: 0 <= i < |targets| && answers[i] == Some(x.replicaId) && targets[i].id == x.peerId
    ensures DistinctPeers(targets) ==> DistinctReplicas(Accepted(targets, answers))
  {
    if targets != [] {
      var n := |targets| - 1;
      AcceptedIs(targets[..n], answers[..n]);
      var front, r := Accepted(targets[..n], answers[..n]), Accepted(targets, answers);
      forall x | x in r ensures exists i :: 0 <= i < |targets| && answers[i] == Some(x.replicaId) && targets[i].id == x.peerId {
        if x in front {
          var i :| 0 <= i < n && answers[..n][i] == Some(x.replicaId) && targets[..n][i].id == x.peerId;
          assert answers[i] == Some(x.replicaId);
        } else {
          assert answers[n] == Some(x.replicaId);
        }
      }
      forall x: Replica, i | 0 <= i < |targets| && answers[i] == Some(x.replicaId) && targets[i].id == x.peerId ensures x in r {
        if i < n {
          assert answers[..n][i] == Some(x.replicaId) && targets[..n][i].id == x.peerId;
        }
      }
      if DistinctPeers(targets) && answers[n].Some? {
        forall i | 0 <= i < |front| ensures front[i].peerId != targets[n].id {
          assert front[i] in front;
        }
      }
    }
  }

  // ---------- steps ----------

  predicate RefsOk(s: State) {
    && (forall id :: id in s.db ==> s.db[id] < |s.heap|)
    && (forall t :: t in s.ops ==> t < s.next && (s.ops[t].Sending? ==> s.ops[t].ref < |s.heap|))
  }

  /** Peers come from a map by id; the shuffle is any reordering of them. */
  ghost predicate Enabled(s: State, e: Event) {
    match e
    case Unlink(t) => t in s.ops && s.ops[t].Deleting? && s.ops[t].unlinked.None?
    case DeleteResume(t) => t in s.ops && s.ops[t].Deleting? && s.ops[t].unlinked.Some?
    case ReplicateCall(_, peers, shuffled) => DistinctPeers(peers) && multiset(peers) == multiset(shuffled)
    case ReplicateResume(t, answers) => t in s.ops && s.ops[t].Sending? && |answers| == |s.ops[t].targets|
    case _ => true
  }

  function NewMeta(e: Event): Meta
    requires e.Store?
  {
    Meta(e.id, e.originalName, e.ownerId, e.now, if e.factor == 0 then 2 else e.factor, e.isPublic,
         if e.access.Some? then e.access.value else map["read" := [e.ownerId], "write" := [e.ownerId]], [])
  }

  ghost function Next(s: State, e: Event): (State, Reply)
    requires RefsOk(s) && Enabled(s, e)
  {
    match e
    case Store(id, _, _, _, _, _, _) =>
      (s.(heap := s.heap + [NewMeta(e)], db := s.db[id := |s.heap|], files := s.files + {id}), Done)
    case Share(id, claimed, target, permissions) =>
      if id !in s.db then (s, NotFound)
      else
        var m := s.heap[s.db[id]];
        if m.ownerId != claimed then (s, OwnerOnly)
        else
          var (access, reply) := Pushed(m.access, target, permissions);
          (s.(heap := s.heap[s.db[id] := m.(access := access)]), reply)
    case DeleteCall(id, user) =>
      if id !in s.db then (s, NotFound)
      else if CheckDelete(s.heap[s.db[id]], user) != Done then (s, CheckDelete(s.heap[s.db[id]], user))
      else if id in s.files then (s.(ops := s.ops[s.next := Deleting(id, None)], next := s.next + 1), Done)
      else (s.(db := s.db - {id}), Done)
    case Unlink(t) =>
      var id := s.ops[t].id;
      (s.(ops := s.ops[t := Deleting(id, Some(id in s.files))], files := s.files - {id}), Done)
    case DeleteResume(t) =>
      var s1 := s.(ops := s.ops - {t});
      if s.ops[t].unlinked.value then (s1.(db := s.db - {s.ops[t].id}), Done) else (s1, Fault)
    case ReplicateCall(id, _, shuffled) =>
      if id !in s.db || id !in s.files then (s, NotFound)
      else
        var targets := Slice(shuffled, s.heap[s.db[id]].replicationFactor);
        (s.(ops := s.ops[s.next := Sending(id, s.db[id], targets)], next := s.next + 1), Done)
    case ReplicateResume(t, answers) =>
      var op := s.ops[t];
      (s.(heap := s.heap[op.ref := s.heap[op.ref].(replicas := Accepted(op.targets, answers))],
          db := s.db[op.id := op.ref], ops := s.ops - {t}), Done)
  }

  // ---------- whole runs ----------

  ghost function Reach(s: State, es: seq<Event>): State {
    if es == [] then s
    else
      var s1, e := Reach(s, es[..|es| - 1]), es[|es| - 1];
      if RefsOk(s1) && Enabled(s1, e) then Next(s1, e).0 else s1
  }

  lemma RefsStep(s: State, e: Event)
    requires RefsOk(s) && Enabled(s, e)
    ensures RefsOk(Next(s, e).0)
  {
  }

  lemma {:induction false} RunKeepsRefs(s: State, es: seq<Event>)
    requires RefsOk(s)
    ensures RefsOk(Reach(s, es))
  {
    if es != [] {
      RunKeepsRefs(s, es[..|es| - 1]);
      if Enabled(Reach(s, es[..|es| - 1]), es[|es| - 1]) {
        RefsStep(Reach(s, es[..|es| - 1]), es[|es| - 1]);
      }
    }
  }

  /** Everything about a file but its lists and replicas is fixed when it is stored. */
  predicate SameFile(a: Meta, b: Meta) {
    b == a.(access := b.access, replicas := b.replicas)
  }

  /** The step is a share by the owner of `r` that gives `u` permission `p`. */
  ghost predicate Grants(s: State, e: Event, r: nat, p: string, u: User) {
    && e.Share? && e.id in s.db && s.db[e.id] == r && r < |s.heap|
    && e.claimed == s.heap[r].ownerId && e.target == u && p in Effective(e.permissions, s.heap[r].access.Keys)
  }

  /** One step adds to a list exactly what it grants. */
  lemma GrantStep(s: State, e: Event, r: nat, p: string, u: User)
    requires RefsOk(s) && Enabled(s, e) && r < |s.heap|
    ensures r < |Next(s, e).0.heap| && SameFile(s.heap[r], Next(s, e).0.heap[r])
    ensures Next(s, e).0.heap[r].access.Keys == s.heap[r].access.Keys
    ensures p in s.heap[r].access ==>
              (u in Next(s, e).0.heap[r].access[p] <==> u in s.heap[r].access[p] || Grants(s, e, r, p, u))
  {
    if e.Share? && e.id in s.db {
      PushedIs(s.heap[s.db[e.id]].access, e.target, e.permissions);
    }
  }

  /** Whether some step of the run grants it. */
  ghost predicate Granted(s: State, es: seq<Event>, r: nat, p: string, u: User) {
    exists i :: 0 <= i < |es| && Grants(Reach(s, es[..i]), es[i], r, p, u)
  }

  lemma GrantedMore(s: State, es: seq<Event>, e: Event, r: nat, p: string, u: User)
    ensures Granted(s, es + [e], r, p, u) <==> Granted(s, es, r, p, u) || Grants(Reach(s, es), e, r, p, u)
  {
    hide Grants, Reach;
    var more := es + [e];
    if Granted(s, more, r, p, u) {
      var i :| 0 <= i < |more| && Grants(Reach(s, more[..i]), more[i], r, p, u);
      assert more[..i] == es[..i];
      assert i == |es| ==> es[..i] == es;
    }
    if Granted(s, es, r, p, u) {
      var i :| 0 <= i < |es| && Grants(Reach(s, es[..i]), es[i], r, p, u);
      assert more[..i] == es[..i] && more[i] == es[i];
      assert Grants(Reach(s, more[..i]), more[i], r, p, u);
    }
    assert more[..|es|] == es && more[|es|] == e;
  }

  /**
   Permissions over whole runs: a user is in a list of a file exactly if the list had the user at the start,
   or the owner has shared that permission with the user since.
   */
  lemma {:induction false} PermissionsAreGranted(s: State, es: seq<Event>, r: nat, p: string, u: User)
    requires RefsOk(s) && r < |s.heap|
    ensures r < |Reach(s, es).heap|
    ensures var m, m1 := s.heap[r], Reach(s, es).heap[r];
            && SameFile(m, m1) && m1.access.Keys == m.access.Keys
            && (p in m.access ==> (u in m1.access[p] <==> u in m.access[p] || Granted(s, es, r, p, u)))
  {
    if es != [] {
      var front, e := es[..|es| - 1], es[|es| - 1];
      PermissionsAreGranted(s, front, r, p, u);
      RunKeepsRefs(s, front);
      assert es == front + [e];
      GrantedMore(s, front, e, r, p, u);
      if Enabled(Reach(s, front), e) {
        GrantStep(Reach(s, front), e, r, p, u);
      } else {
        assert !e.Share?;
      }
    }
  }

  /** Whoever stores a file may give the lists; if none are given, there are a read list and a write list with the owner. */
  ghost predicate ListGiven(e: Event, p: string)
    requires e.Store?
  {
    if e.access.Some? then p in e.access.value else p == "read" || p == "write"
  }

  ghost predicate NamedIn(e: Event, p: string, user: User)
    requires e.Store? && ListGiven(e, p)
  {
    if e.access.Some? then user in e.access.value[p] else user == e.ownerId
  }

  /** A stored file keeps its name, owner, time, visibility and replication factor, which is 2 if none is given. */
  lemma StoredStays(s: State, e: Event, es: seq<Event>)
    requires RefsOk(s) && e.Store?
    ensures |s.heap| < |Reach(Next(s, e).0, es).heap|
    ensures var m := Reach(Next(s, e).0, es).heap[|s.heap|];
            && m.id == e.id && m.originalName == e.originalName && m.ownerId == e.ownerId && m.createdAt == e.now
            && m.isPublic == e.isPublic && m.replicationFactor == if e.factor == 0 then 2 else e.factor
  {
    RefsStep(s, e);
    PermissionsAreGranted(Next(s, e).0, es, |s.heap|, "read", e.ownerId);
  }

  /** It is in the database at once, as a new object, and its owner can read it, unless lists were given without a read list. */
  lemma StoredIsThere(s: State, e: Event)
    requires RefsOk(s) && e.Store?
    ensures var (s1, reply) := Next(s, e);
            && reply == Done && RefsOk(s1) && e.id in s1.db && s1.db[e.id] == |s.heap| && e.id in s1.files
            && (GetFile(s1, e.id, e.ownerId) == Done <==> e.isPublic || ListGiven(e, "read"))
  {
  }

  /** And in its lists are those named when it was stored, and those its owner has shared with since. */
  lemma ListsOfStored(s: State, e: Event, es: seq<Event>, p: string, user: User)
    requires RefsOk(s) && e.Store?
    ensures |s.heap| < |Reach(Next(s, e).0, es).heap|
    ensures var m := Reach(Next(s, e).0, es).heap[|s.heap|];
            && (p in m.access <==> ListGiven(e, p))
            && (p in m.access ==> (user in m.access[p] <==> NamedIn(e, p, user) || Granted(Next(s, e).0, es, |s.heap|, p, user)))
  {
    RefsStep(s, e);
    PermissionsAreGranted(Next(s, e).0, es, |s.heap|, p, user);
  }

  /** Who can read a stored file, whatever has happened since: everyone, or its owner and those named or shared with. */
  lemma ReadersOfStored(s: State, e: Event, es: seq<Event>, user: User)
    requires RefsOk(s) && e.Store?
    ensures |s.heap| < |Reach(Next(s, e).0, es).heap|
    ensures CheckGet(Reach(Next(s, e).0, es).heap[|s.heap|], user) == Done <==>
            e.isPublic || (ListGiven(e, "read") && (user == e.ownerId || NamedIn(e, "read", user)
                                                    || Granted(Next(s, e).0, es, |s.heap|, "read", user)))
  {
    StoredStays(s, e, es);
    ListsOfStored(s, e, es, "read", user);
  }

  ghost predicate IsSending(s: State, id: FileId) {
    exists t :: t in s.ops && s.ops[t].Sending? && s.ops[t].id == id
  }

  /** The id can only stand for this object: it does in the database, and in every suspended replication. */
  ghost predicate StandsFor(s: State, id: FileId, r: nat) {
    && (id in s.db ==> s.db[id] == r)
    && (forall t :: t in s.ops && s.ops[t].Sending? && s.ops[t].id == id ==> s.ops[t].ref == r)
  }

  lemma {:induction false} RunStandsFor(s: State, es: seq<Event>, id: FileId, r: nat)
    requires RefsOk(s) && StandsFor(s, id, r)
    requires forall i :: 0 <= i < |es| && es[i].Store? ==> es[i].id != id
    ensures StandsFor(Reach(s, es), id, r)
  {
    if es != [] {
      var front := es[..|es| - 1];
      RunStandsFor(s, front, id, r);
      RunKeepsRefs(s, front);
    }
  }

  /**
   So the same holds of the id, as long as a file is stored under it once: `getFile` succeeds exactly for these
   users, while the file is in the database and its data is there.
   */
  lemma ReadersById(s: State, e: Event, es: seq<Event>, user: User)
    requires RefsOk(s) && e.Store? && !IsSending(s, e.id)
    requires forall i :: 0 <= i < |es| && es[i].Store? ==> es[i].id != e.id
    ensures RefsOk(Reach(Next(s, e).0, es))
    ensures var s0 := Next(s, e).0;
            var s1 := Reach(s0, es);
            GetFile(s1, e.id, user) == Done <==>
            && e.id in s1.db && e.id in s1.files
            && (e.isPublic || (ListGiven(e, "read") && (user == e.ownerId || NamedIn(e, "read", user)
                                                        || Granted(s0, es, |s.heap|, "read", user))))
  {
    RefsStep(s, e);
    RunKeepsRefs(Next(s, e).0, es);
    RunStandsFor(Next(s, e).0, es, e.id, |s.heap|);
    ReadersOfStored(s, e, es, user);
  }

  /** And these can delete it: its owner, those named in the write list it was stored with, and those the owner shared that with. */
  lemma DeletersById(s: State, e: Event, es: seq<Event>, user: User)
    requires RefsOk(s) && e.Store? && !IsSending(s, e.id)
    requires forall i :: 0 <= i < |es| && es[i].Store? ==> es[i].id != e.id
    ensures RefsOk(Reach(Next(s, e).0, es))
    ensures var s0 := Next(s, e).0;
            var s1 := Reach(s0, es);
            Next(s1, DeleteCall(e.id, user)).1 == Done <==>
            && e.id in s1.db
            && (user == e.ownerId || (ListGiven(e, "write") && (NamedIn(e, "write", user)
                                                                || Granted(s0, es, |s.heap|, "write", user))))
  {
    RefsStep(s, e);
    RunKeepsRefs(Next(s, e).0, es);
    RunStandsFor(Next(s, e).0, es, e.id, |s.heap|);
    StoredStays(s, e, es);
    ListsOfStored(s, e, es, "write", user);
    DeletionIsForWriters(Reach(Next(s, e).0, es), e.id, user);
  }

  /** A replication of it selects as many of the known peers as the factor it was stored with says. */
  lemma TargetsById(s: State, e: Event, es: seq<Event>, peers: seq<Peer>, shuffled: seq<Peer>)
    requires RefsOk(s) && e.Store? && !IsSending(s, e.id)
    requires forall i :: 0 <= i < |es| && es[i].Store? ==> es[i].id != e.id
    requires DistinctPeers(peers) && multiset(peers) == multiset(shuffled)
    ensures RefsOk(Reach(Next(s, e).0, es))
    ensures var s1 := Reach(Next(s, e).0, es);
            var (s2, reply) := Next(s1, ReplicateCall(e.id, peers, shuffled));
            var factor := if e.factor == 0 then 2 else e.factor;
            && (reply == Done <==> e.id in s1.db && e.id in s1.files)
            && (reply != Done ==> reply == NotFound && s2 == s1)
            && (reply == Done ==>
                  && s1.next in s2.ops && s2.ops[s1.next].Sending? && s2.ops[s1.next].ref == |s.heap|
                  && var targets := s2.ops[s1.next].targets;
                     && targets <= shuffled
                     && (factor >= 0 ==> |targets| == if factor <= |peers| then factor else |peers|))
  {
    RefsStep(s, e);
    RunKeepsRefs(Next(s, e).0, es);
    RunStandsFor(Next(s, e).0, es, e.id, |s.heap|);
    StoredStays(s, e, es);
    SelectionOk(peers, shuffled, if e.factor == 0 then 2 else e.factor);
  }

  /** Only the owner shares, and with success exactly if every permission has a list. */
  lemma SharingIsForOwners(s: State, id: FileId, claimed: User, target: User, permissions: seq<string>)
    requires RefsOk(s)
    ensures var (s1, reply) := Next(s, Share(id, claimed, target, permissions));
            && (reply == NotFound <==> id !in s.db)
            && (reply == OwnerOnly <==> id in s.db && claimed != s.heap[s.db[id]].ownerId)
            && (reply == NotFound || reply == OwnerOnly ==> s1 == s)
            && (id in s.db && claimed == s.heap[s.db[id]].ownerId ==>
                  (reply == Done <==> forall i :: 0 <= i < |permissions| ==> permissions[i] in s.heap[s.db[id]].access))
  {
    if id in s.db {
      var lists := s.heap[s.db[id]].access;
      PushedIs(lists, target, permissions);
      EffectiveIs(permissions, lists.Keys);
      var n := |Effective(permissions, lists.Keys)|;
      if n < |permissions| {
        assert permissions[n] !in lists;
      }
    }
  }

  /** What `getFile` answers: the check of the user comes before that of the data. */
  lemma GetFileAnswer(s: State, id: FileId, user: User)
    requires RefsOk(s)
    ensures var answer := GetFile(s, id, user);
            && (id !in s.db ==> answer == NotFound)
            && (id in s.db ==>
                  var m := s.heap[s.db[id]];
                  var listed := "read" in m.access && (user == m.ownerId || user in m.access["read"]);
                  && (answer == Done <==> (m.isPublic || listed) && id in s.files)
                  && (answer == NotFound <==> (m.isPublic || listed) && id !in s.files)
                  && (answer == Denied <==> !m.isPublic && "read" in m.access && !listed)
                  && (answer == Fault <==> !m.isPublic && "read" !in m.access))
  {
  }

  /** A list without duplicates never gets any, and only grows at its end. */
  lemma {:induction false} ListsStayDistinct(s: State, es: seq<Event>, r: nat, p: string)
    requires RefsOk(s) && r < |s.heap| && p in s.heap[r].access && Distinct(s.heap[r].access[p])
    ensures r < |Reach(s, es).heap| && p in Reach(s, es).heap[r].access
    ensures Distinct(Reach(s, es).heap[r].access[p]) && s.heap[r].access[p] <= Reach(s, es).heap[r].access[p]
  {
    if es != [] {
      var front, e := es[..|es| - 1], es[|es| - 1];
      ListsStayDistinct(s, front, r, p);
      RunKeepsRefs(s, front);
      var s1 := Reach(s, front);
      if Enabled(s1, e) && e.Share? && e.id in s1.db {
        PushedIs(s1.heap[s1.db[e.id]].access, e.target, e.permissions);
      }
    }
  }

  // ---------- deletion ----------

  /** Its owner, and whoever is in its write list, if there is one. */
  ghost predicate MayDelete(m: Meta, user: User) {
    user == m.ownerId || ("write" in m.access && user in m.access["write"])
  }

  /** The step is a deletion that its user may make. */
  ghost predicate Authorised(s: State, e: Event, id: FileId) {
    RefsOk(s) && e.DeleteCall? && e.id == id && id in s.db && MayDelete(s.heap[s.db[id]], e.user)
  }

  /** A deletion is accepted exactly from those; any other user is refused, and nothing changes. */
  lemma DeletionIsForWriters(s: State, id: FileId, user: User)
    requires RefsOk(s)
    ensures var (s1, reply) := Next(s, DeleteCall(id, user));
            && (reply == Done <==> id in s.db && MayDelete(s.heap[s.db[id]], user))
            && (reply == NotFound <==> id !in s.db)
            && (reply == Denied <==> id in s.db && !MayDelete(s.heap[s.db[id]], user) && "write" in s.heap[s.db[id]].access)
            && (reply != Done ==> s1 == s)
            && (reply == Done && id !in s.files ==> id !in s1.db)
            && (reply == Done && id in s.files ==> s.next in s1.ops && s1.ops[s.next] == Deleting(id, None) && s1.db == s.db)
  {
  }

  /** Once accepted it removes the data, if that is still there, and then the entry: whatever happens in between. */
  lemma DeletionRemoves(s: State, t: nat)
    requires RefsOk(s) && t in s.ops && s.ops[t].Deleting?
    ensures s.ops[t].unlinked.None? ==>
              var s1 := Next(s, Unlink(t)).0;
              s.ops[t].id !in s1.files && t in s1.ops && s1.ops[t] == Deleting(s.ops[t].id, Some(s.ops[t].id in s.files))
    ensures s.ops[t].unlinked.Some? ==>
              var (s1, reply) := Next(s, DeleteResume(t));
              && t !in s1.ops
              && (reply == Done <==> s.ops[t].unlinked == Some(true))
              && (reply == Done ==> s.ops[t].id !in s1.db) && (reply != Done ==> s1.db == s.db)
  {
  }

  ghost predicate IsDeleting(s: State, id: FileId) {
    exists t :: t in s.ops && s.ops[t].Deleting? && s.ops[t].id == id
  }

  lemma DeleteStep(s: State, e: Event, id: FileId)
    requires RefsOk(s) && Enabled(s, e) && !Authorised(s, e, id) && !IsDeleting(s, id)
    ensures !IsDeleting(Next(s, e).0, id)
    ensures id in s.db ==> id in Next(s, e).0.db
    ensures id in s.files ==> id in Next(s, e).0.files
  {
  }

  /** A file leaves the database, and its data the disk, only if its owner, or a user in its write list, has asked for that. */
  lemma {:induction false} OnlyWritersDelete(s: State, es: seq<Event>, id: FileId)
    requires RefsOk(s) && id in s.db && !IsDeleting(s, id)
    requires forall i :: 0 <= i < |es| ==> !Authorised(Reach(s, es[..i]), es[i], id)
    ensures id in Reach(s, es).db && !IsDeleting(Reach(s, es), id)
    ensures id in s.files ==> id in Reach(s, es).files
  {
    if es != [] {
      var front, e := es[..|es| - 1], es[|es| - 1];
      forall i | 0 <= i < |front| ensures !Authorised(Reach(s, front[..i]), front[i], id) {
        assert front[..i] == es[..i];
      }
      OnlyWritersDelete(s, front, id);
      RunKeepsRefs(s, front);
      assert es[..|es| - 1] == front;
      if Enabled(Reach(s, front), e) {
        DeleteStep(Reach(s, front), e, id);
      }
    }
  }

  /** A file that is not in the database is put there by one step exactly if it stores the file or ends a replication of it. */
  lemma ComesBack(s: State, e: Event, id: FileId)
    requires RefsOk(s) && Enabled(s, e) && id !in s.db
    ensures id in Next(s, e).0.db <==>
            (e.Store? && e.id == id) || (e.ReplicateResume? && s.ops[e.t].id == id)
    ensures IsSending(Next(s, e).0, id) ==> IsSending(s, id)
  {
    var s1 := Next(s, e).0;
    if t :| t in s1.ops && s1.ops[t].Sending? && s1.ops[t].id == id {
      assert t in s.ops && s.ops[t].Sending? && s.ops[t].id == id;
    }
  }

  /** A deleted file of which no replication is suspended stays deleted, unless it is stored again. */
  lemma {:induction false} DeletedStaysOut(s: State, es: seq<Event>, id: FileId)
    requires RefsOk(s) && id !in s.db && !IsSending(s, id)
    requires forall i :: 0 <= i < |es| && es[i].Store? ==> es[i].id != id
    ensures id !in Reach(s, es).db && !IsSending(Reach(s, es), id)
  {
    if es != [] {
      var front, e := es[..|es| - 1], es[|es| - 1];
      DeletedStaysOut(s, front, id);
      RunKeepsRefs(s, front);
      var s1 := Reach(s, front);
      if Enabled(s1, e) {
        ComesBack(s1, e, id);
        assert e.ReplicateResume? ==> s1.ops[e.t].id != id;
      }
    }
  }

  ghost predicate Leads(s: State, e: Event, s1: State) {
    RefsOk(s) && Enabled(s, e) && Next(s, e) == (s1, Done)
  }

  /**
   But a deletion while a replication is suspended is undone when that goes on: the file is in the
   database again, its data is not.
   */
  lemma DeletedDuringReplicationComesBack(s: State, id: FileId, user: User)
    returns (s1: State, s2: State, s3: State, s4: State, s5: State)
    requires RefsOk(s) && s.ops == map[] && s.next == 0 && id in s.db && id in s.files && s.heap[s.db[id]].ownerId == user
    ensures Leads(s, ReplicateCall(id, [], []), s1) && Leads(s1, DeleteCall(id, user), s2)
    ensures Leads(s2, Unlink(1), s3) && Leads(s3, DeleteResume(1), s4) && id !in s4.db
    ensures Leads(s4, ReplicateResume(0, []), s5) && id in s5.db && id !in s5.files
  {
    var op := Sending(id, s.db[id], []);
    s1 := s.(ops := map[0 := op], next := 1);
    s2 := s1.(ops := map[0 := op, 1 := Deleting(id, None)], next := 2);
    s3 := s2.(ops := map[0 := op, 1 := Deleting(id, Some(true))], files := s.files - {id});
    s4 := s3.(ops := map[0 := op], db := s.db - {id});
    assert s2.ops[1 := Deleting(id, Some(true))] == s3.ops;
    assert s3.ops - {1} == s4.ops;
    s5 := Next(s4, ReplicateResume(0, [])).0;
  }

  // ---------- replicas ----------

  /** Recorded replicas, and the targets of a suspended replication, are with distinct peers and not too many. */
  ghost predicate ReplicasOk(s: State) {
    && RefsOk(s)
    && (forall r :: 0 <= r < |s.heap| ==> DistinctReplicas(s.heap[r].replicas))
    && (forall r :: 0 <= r < |s.heap| ==> AtMost(|s.heap[r].replicas|, s.heap[r].replicationFactor))
    && (forall t :: t in s.ops && s.ops[t].Sending? ==> DistinctPeers(s.ops[t].targets))
    && (forall t :: t in s.ops && s.ops[t].Sending? ==> AtMost(|s.ops[t].targets|, s.heap[s.ops[t].ref].replicationFactor))
  }

  /** A negative factor sets no bound: it takes that many peers away from the end of the list. */
  predicate AtMost(n: nat, factor: int) {
    factor >= 0 ==> n <= factor
  }

  /** The selection: different known peers, as many as the factor says, or all if there are fewer. */
  lemma SelectionOk(peers: seq<Peer>, shuffled: seq<Peer>, factor: int)
    requires DistinctPeers(peers) && multiset(peers) == multiset(shuffled)
    ensures DistinctPeers(Slice(shuffled, factor)) && AtMost(|Slice(shuffled, factor)|, factor)
    ensures forall p :: p in Slice(shuffled, factor) ==> p in peers
    ensures 0 <= factor <= |peers| ==> |Slice(shuffled, factor)| == factor
    ensures factor > |peers| ==> |Slice(shuffled, factor)| == |peers|
    ensures factor < 0 ==> |Slice(shuffled, factor)| == if |peers| + factor >= 0 then |peers| + factor else 0
  {
    SameLength(peers, shuffled);
    ShuffledDistinct(peers, shuffled);
    forall p | p in Slice(shuffled, factor) ensures p in peers {
      assert p in multiset(shuffled);
    }
  }

  lemma ReplicasStep(s: State, e: Event)
    requires ReplicasOk(s) && Enabled(s, e)
    ensures ReplicasOk(Next(s, e).0)
  {
    RefsStep(s, e);
    if e.ReplicateCall? && e.id in s.db {
      SelectionOk(e.peers, e.shuffled, s.heap[s.db[e.id]].replicationFactor);
    } else if e.ReplicateResume? {
      AcceptedIs(s.ops[e.t].targets, e.answers);
    }
  }

  /** In every run the recorded replicas of a file are with distinct selected peers, at most as many as its factor. */
  lemma {:induction false} RunKeepsReplicas(s: State, es: seq<Event>)
    requires ReplicasOk(s)
    ensures ReplicasOk(Reach(s, es))
  {
    if es != [] {
      RunKeepsReplicas(s, es[..|es| - 1]);
      if Enabled(Reach(s, es[..|es| - 1]), es[|es| - 1]) {
        ReplicasStep(Reach(s, es[..|es| - 1]), es[|es| - 1]);
      }
    }
  }

  /** What the end of a replication records: exactly the selected peers that accepted. */
  lemma ReplicasAreTheAnswers(s: State, e: Event, x: Replica)
    requires RefsOk(s) && Enabled(s, e) && e.ReplicateResume?
    ensures var op := s.ops[e.t];
            x in Next(s, e).0.heap[op.ref].replicas <==>
            exists i :: 0 <= i < |op.targets| && e.answers[i] == Some(x.replicaId) && op.targets[i].id == x.peerId
  {
    AcceptedIs(s.ops[e.t].targets, e.answers);
  }
}
