/** Applying a model's memory operations through a local index, and merging memory lists
    (src/application/memory_manager.rs). */
module Memory {
  import opened Domain

  datatype Memory = Memory(id: string, namespace: string, content: string, source: string, tags: seq<string>,
                           createdAt: nat, updatedAt: nat)

  datatype Operation =
    | Create(content: string, tags: seq<string>)
    | Update(targetId: string, content: string, tags: seq<string>)
    | Delete(targetId: string)

  /** What one operation draws from outside: a fresh identifier and the time. */
  datatype Draw = Draw(freshId: string, now: nat)

  type Index = map<string, Memory>

  // ---------------------------------------------------------------- operations as functions

  function NewMemory(namespace: string, source: string, content: string, tags: seq<string>, draw: Draw): Memory {
    Memory(draw.freshId, namespace, content, source, tags, draw.now, draw.now)
  }

  function UpdatedMemory(existing: Memory, source: string, content: string, tags: seq<string>, draw: Draw): Memory {
    existing.(content := content, source := source, tags := tags, updatedAt := draw.now)
  }

  function Applied(index: Index, op: Operation, namespace: string, source: string, draw: Draw): Index {
    match op
    case Create(content, tags) => index[draw.freshId := NewMemory(namespace, source, content, tags, draw)]
    case Update(targetId, content, tags) =>
      if targetId in index then index[targetId := UpdatedMemory(index[targetId], source, content, tags, draw)]
      else index[draw.freshId := NewMemory(namespace, source, content, tags, draw)]
    case Delete(targetId) => index - {targetId}
  }

  function AppliedAll(index: Index, ops: seq<Operation>, namespace: string, source: string, draws: seq<Draw>): Index
    requires |draws| == |ops|
  {
    if ops == [] then index
    else
      var k := |ops| - 1;
      Applied(AppliedAll(index, ops[..k], namespace, source, draws[..k]), ops[k], namespace, source, draws[k])
  }

  // ---------------------------------------------------------------- the storage

  function InNamespace(memories: Index, namespace: string): Index {
    map id | id in memories && memories[id].namespace == namespace :: memories[id]
  }

  function OtherNamespaces(memories: Index, namespace: string): Index {
    map id | id in memories && memories[id].namespace != namespace :: memories[id]
  }

  ghost predicate KeyedById(memories: Index) {
    forall id :: id in memories ==> memories[id].id == id
  }

  /** Drawn identifiers are new to the storage and different from each other. */
  ghost predicate Fresh(draws: seq<Draw>, memories: Index) {
    && (forall i :: 0 <= i < |draws| ==> draws[i].freshId !in memories)
    && (forall i, j :: 0 <= i < j < |draws| ==> draws[i].freshId != draws[j].freshId)
  }

  /** The list holds each memory of the namespace once. */
  ghost predicate Lists(existing: seq<Memory>, memories: Index) {
    && (forall i :: 0 <= i < |existing| ==> existing[i].id in memories && memories[existing[i].id] == existing[i])
    && (forall id :: id in memories ==> exists i :: 0 <= i < |existing| && existing[i].id == id)
  }

  /** A storage keyed by identifier. It may refuse any attempt to write; then nothing changes. */
  class MemoryStorage {
    const refuses: nat -> bool
    var memories: Index
    var attempts: nat

    constructor (refuses: nat -> bool)
      ensures this.refuses == refuses && memories == map[] && attempts == 0
    {
      this.refuses, memories, attempts := refuses, map[], 0;
    }

    /** The last attempt to write was refused. */
    predicate Refused()
      reads `attempts
    {
      attempts > 0 && refuses(attempts - 1)
    }

    method Upsert(memory: Memory) returns (ok: bool)
      modifies this
      ensures attempts == old(attempts) + 1 && ok == !Refused() && ok == !refuses(old(attempts))
      ensures memories == if ok then old(memories)[memory.id := memory] else old(memories)
    {
      ok := !refuses(attempts);
      attempts := attempts + 1;
      if ok {
        memories := memories[memory.id := memory];
      }
    }

    method Delete(id: string) returns (ok: bool)
      modifies this
      ensures attempts == old(attempts) + 1 && ok == !Refused() && ok == !refuses(old(attempts))
      ensures memories == if ok then old(memories) - {id} else old(memories)
    {
      ok := !refuses(attempts);
      attempts := attempts + 1;
      if ok {
        memories := memories - {id};
      }
    }
  }

  /** Builds the index from a listing; a later entry replaces an earlier one with its identifier. */
  method BuildIndex(existing: seq<Memory>, ghost memories: Index) returns (index: Index)
    requires Lists(existing, memories)
    ensures index == memories
  {
    index := map[];
    for i := 0 to |existing|
      invariant forall id :: id in index ==> id in memories && index[id] == memories[id]
      invariant forall k :: 0 <= k < i ==> existing[k].id in index
    {
      index := index[existing[i].id := existing[i]];
    }
  }

  /** Runs the operations in order against index and storage. The index and the namespace's stored memories
      stay the same map after every operation; only a refusal ends the run early, and it leaves exactly the effect of
      the `completed` operations. Other namespaces are never touched. */
  method ApplyMemoryOperations(storage: MemoryStorage, namespace: string, source: string, existing: seq<Memory>,
                               ops: seq<Operation>, draws: seq<Draw>)
    returns (r: Result<(), AgentError>, ghost completed: nat)
    requires KeyedById(storage.memories) && Lists(existing, InNamespace(storage.memories, namespace))
    requires |draws| == |ops| && Fresh(draws, storage.memories)
    modifies storage
    ensures completed <= |ops| && (r.Ok? <==> completed == |ops|) && (r.Err? ==> r.error == StorageError)
    ensures r.Err? ==> old(storage.attempts) < storage.attempts && storage.Refused()
    ensures r.Ok? ==> forall i :: old(storage.attempts) <= i < storage.attempts ==> !storage.refuses(i)
    ensures InNamespace(storage.memories, namespace)
         == AppliedAll(InNamespace(old(storage.memories), namespace), ops[..completed], namespace, source,
                       draws[..completed])
    ensures OtherNamespaces(storage.memories, namespace) == OtherNamespaces(old(storage.memories), namespace)
    ensures KeyedById(storage.memories)
  {
    hide *;
    ghost var before := storage.memories;
    var index := BuildIndex(existing, InNamespace(before, namespace));
    completed := 0;
    NothingApplied(before, ops, namespace, source, draws);
    for k := 0 to |ops|
      invariant k == completed && StorageTracks(before, storage.memories, ops, namespace, source, draws, k)
      invariant index == InNamespace(storage.memories, namespace)
      invariant old(storage.attempts) <= storage.attempts
      invariant forall i :: old(storage.attempts) <= i < storage.attempts ==> !storage.refuses(i)
    {
      Tracked(before, storage.memories, ops, namespace, source, draws, k);
      TrackStep(before, storage.memories, ops, namespace, source, draws, k);
      var ok := true;
      match ops[k] {
        case Create(content, tags) =>
          var memory := NewMemory(namespace, source, content, tags, draws[k]);
          index := index[memory.id := memory];
          ok := storage.Upsert(memory);
        case Update(targetId, content, tags) =>
          var memory := if targetId in index then UpdatedMemory(index[targetId], source, content, tags, draws[k])
                        else NewMemory(namespace, source, content, tags, draws[k]);
          index := index[memory.id := memory];
          ok := storage.Upsert(memory);
        case Delete(targetId) =>
          if targetId in index {
            index := index - {targetId};
            ok := storage.Delete(targetId);
          }
      }
      if !ok {
        return Err(StorageError), k;
      }
      completed := completed + 1;
    }
    Tracked(before, storage.memories, ops, namespace, source, draws, |ops|);
    r := Ok(());
  }

  /** The storage after `k` operations. */
  ghost predicate StorageTracks(before: Index, now: Index, ops: seq<Operation>, namespace: string, source: string,
                                draws: seq<Draw>, k: nat)
  {
    && k <= |ops| == |draws| && Fresh(draws, before) && KeyedById(before) && KeyedById(now)
    && InNamespace(now, namespace)
        == AppliedAll(InNamespace(before, namespace), ops[..k], namespace, source, draws[..k])
    && OtherNamespaces(now, namespace) == OtherNamespaces(before, namespace)
    && (forall i :: k <= i < |draws| ==> draws[i].freshId !in now)
  }

  lemma NothingApplied(before: Index, ops: seq<Operation>, namespace: string, source: string, draws: seq<Draw>)
    requires |draws| == |ops| && Fresh(draws, before) && KeyedById(before)
    ensures StorageTracks(before, before, ops, namespace, source, draws, 0)
  {
    hide InNamespace, OtherNamespaces;
  }

  lemma Tracked(before: Index, stored: Index, ops: seq<Operation>, namespace: string, source: string, draws: seq<Draw>,
                k: nat)
    requires StorageTracks(before, stored, ops, namespace, source, draws, k)
    ensures k <= |ops| == |draws| && KeyedById(stored)
    ensures InNamespace(stored, namespace)
              == AppliedAll(InNamespace(before, namespace), ops[..k], namespace, source, draws[..k])
    ensures OtherNamespaces(stored, namespace) == OtherNamespaces(before, namespace)
  {
    hide InNamespace, OtherNamespaces, AppliedAll;
  }

  /** Storing a memory of the namespace, or removing one, does the same to the namespace's part. */
  lemma StoreOne(stored: Index, namespace: string, memory: Memory)
    requires KeyedById(stored) && memory.namespace == namespace
    requires memory.id in stored ==> stored[memory.id].namespace == namespace
    ensures InNamespace(stored[memory.id := memory], namespace) == InNamespace(stored, namespace)[memory.id := memory]
    ensures OtherNamespaces(stored[memory.id := memory], namespace) == OtherNamespaces(stored, namespace)
    ensures KeyedById(stored[memory.id := memory])
  {
  }

  lemma RemoveOne(stored: Index, namespace: string, id: string)
    requires KeyedById(stored) && id in InNamespace(stored, namespace)
    ensures InNamespace(stored - {id}, namespace) == InNamespace(stored, namespace) - {id}
    ensures OtherNamespaces(stored - {id}, namespace) == OtherNamespaces(stored, namespace)
    ensures KeyedById(stored - {id})
  {
  }

  lemma TrackStep(before: Index, stored: Index, ops: seq<Operation>, namespace: string, source: string,
                  draws: seq<Draw>, k: nat)
    requires StorageTracks(before, stored, ops, namespace, source, draws, k) && k < |ops|
    ensures
      var index := InNamespace(stored, namespace);
      match ops[k]
      case Create(content, tags) =>
        var memory := NewMemory(namespace, source, content, tags, draws[k]);
        && StorageTracks(before, stored[memory.id := memory], ops, namespace, source, draws, k + 1)
        && InNamespace(stored[memory.id := memory], namespace) == index[memory.id := memory]
      case Update(targetId, content, tags) =>
        var memory := if targetId in index then UpdatedMemory(index[targetId], source, content, tags, draws[k])
                      else NewMemory(namespace, source, content, tags, draws[k]);
        && StorageTracks(before, stored[memory.id := memory], ops, namespace, source, draws, k + 1)
        && InNamespace(stored[memory.id := memory], namespace) == index[memory.id := memory]
      case Delete(targetId) =>
        if targetId in index then
          && StorageTracks(before, stored - {targetId}, ops, namespace, source, draws, k + 1)
          && InNamespace(stored - {targetId}, namespace) == index - {targetId}
        else StorageTracks(before, stored, ops, namespace, source, draws, k + 1)
  {
    hide OtherNamespaces;
    var index := InNamespace(stored, namespace);
    assert ops[..k + 1][..k] == ops[..k] && draws[..k + 1][..k] == draws[..k];
    match ops[k]
    case Create(content, tags) =>
      StoreOne(stored, namespace, NewMemory(namespace, source, content, tags, draws[k]));
    case Update(targetId, content, tags) =>
      if targetId in index {
        StoreOne(stored, namespace, UpdatedMemory(index[targetId], source, content, tags, draws[k]));
      } else {
        StoreOne(stored, namespace, NewMemory(namespace, source, content, tags, draws[k]));
      }
    case Delete(targetId) =>
      if targetId in index {
        RemoveOne(stored, namespace, targetId);
      } else {
        assert index - {targetId} == index;
      }
  }

  // ---------------------------------------------------------------- what the operations mean

  /** The history of one memory under the operations, on its own: deleted ones are gone, updates replace
      text, source, tags and time. */
  function History(memory: Option<Memory>, ops: seq<Operation>, id: string, source: string,
                   draws: seq<Draw>): Option<Memory>
    requires |draws| == |ops|
  {
    if ops == [] then memory
    else
      var k := |ops| - 1;
      var earlier := History(memory, ops[..k], id, source, draws[..k]);
      match ops[k]
      case Create(_, _) => earlier
      case Update(targetId, content, tags) =>
        if targetId == id && earlier.Some? then Some(UpdatedMemory(earlier.value, source, content, tags, draws[k]))
        else earlier
      case Delete(targetId) => if targetId == id then None else earlier
  }

  function Lookup(index: Index, id: string): Option<Memory> {
    if id in index then Some(index[id]) else None
  }

  /** Memories do not influence each other: each one that was there has its own history. */
  lemma {:induction false} OwnHistory(index: Index, ops: seq<Operation>, namespace: string, source: string,
                                      draws: seq<Draw>, id: string)
    requires |draws| == |ops| && forall i :: 0 <= i < |draws| ==> draws[i].freshId != id
    requires KeyedById(index)
    ensures Lookup(AppliedAll(index, ops, namespace, source, draws), id)
              == History(Lookup(index, id), ops, id, source, draws)
    ensures KeyedById(AppliedAll(index, ops, namespace, source, draws))
  {
    if ops != [] {
      OwnHistory(index, ops[..|ops| - 1], namespace, source, draws[..|ops| - 1], id);
    }
  }

  /** A memory survives exactly when no operation deletes it, with its identifier, namespace and creation
      time; its content is that of the last update, if there is one. */
  lemma {:induction false} SurvivesUnlessDeleted(memory: Memory, ops: seq<Operation>, source: string, draws: seq<Draw>)
    requires |draws| == |ops|
    ensures var end := History(Some(memory), ops, memory.id, source, draws);
      && (end.Some? <==> forall i :: 0 <= i < |ops| ==> ops[i] != Delete(memory.id))
      && (end.Some? ==>
            && end.value.id == memory.id && end.value.namespace == memory.namespace
            && end.value.createdAt == memory.createdAt)
    ensures var end := History(Some(memory), ops, memory.id, source, draws);
      forall i :: 0 <= i < |ops| && ops[i].Update? && ops[i].targetId == memory.id && end.Some?
                  && (forall j :: i < j < |ops| ==> !(ops[j].Update? && ops[j].targetId == memory.id)) ==>
        end.value.content == ops[i].content && end.value.tags == ops[i].tags
        && end.value.source == source && end.value.updatedAt == draws[i].now
  {
    if ops != [] {
      SurvivesUnlessDeleted(memory, ops[..|ops| - 1], source, draws[..|ops| - 1]);
    }
  }

  /** A memory is created exactly by a create, or by an update whose target is not there at that moment. */
  function Born(index: Index, op: Operation, namespace: string, source: string, draw: Draw): Option<Memory> {
    if op.Create? || (op.Update? && op.targetId !in index)
    then Some(NewMemory(namespace, source, op.content, op.tags, draw))
    else None
  }

  lemma {:induction false} AppliedTwice(index: Index, ops: seq<Operation>, k: nat, namespace: string, source: string,
                                        draws: seq<Draw>)
    requires k <= |ops| == |draws|
    ensures AppliedAll(index, ops, namespace, source, draws)
         == AppliedAll(AppliedAll(index, ops[..k], namespace, source, draws[..k]), ops[k..], namespace, source,
                       draws[k..])
    decreases |ops|
  {
    hide Applied;
    if k < |ops| {
      var n := |ops| - 1;
      AppliedTwice(index, ops[..n], k, namespace, source, draws[..n]);
      assert ops[..n][..k] == ops[..k] && draws[..n][..k] == draws[..k];
      assert ops[k..][..n - k] == ops[..n][k..] && draws[k..][..n - k] == draws[..n][k..];
    } else {
      assert ops[..k] == ops && draws[..k] == draws && ops[k..] == [];
    }
  }

  lemma {:induction false} NeverThere(ops: seq<Operation>, id: string, source: string, draws: seq<Draw>)
    requires |draws| == |ops|
    ensures History(None, ops, id, source, draws) == None
  {
    if ops != [] {
      NeverThere(ops[..|ops| - 1], id, source, draws[..|ops| - 1]);
    }
  }

  lemma AppliedOne(index: Index, op: Operation, namespace: string, source: string, draw: Draw)
    requires draw.freshId !in index && KeyedById(index)
    ensures Lookup(Applied(index, op, namespace, source, draw), draw.freshId)
         == Born(index, op, namespace, source, draw)
    ensures KeyedById(Applied(index, op, namespace, source, draw))
  {
  }

  /** A new memory has its own history too: under the identifier drawn for operation `k` stands what that
      operation created, if it created anything, with the history of the operations after it. */
  lemma NewMemoryHistory(index: Index, ops: seq<Operation>, namespace: string, source: string, draws: seq<Draw>, k: nat)
    requires k < |ops| == |draws| && KeyedById(index) && Fresh(draws, index)
    ensures
      var before := AppliedAll(index, ops[..k], namespace, source, draws[..k]);
      Lookup(AppliedAll(index, ops, namespace, source, draws), draws[k].freshId)
      == History(Born(before, ops[k], namespace, source, draws[k]), ops[k + 1..], draws[k].freshId, source,
                 draws[k + 1..])
  {
    hide Applied, Born, AppliedAll, History;
    var id := draws[k].freshId;
    var before := AppliedAll(index, ops[..k], namespace, source, draws[..k]);
    OwnHistory(index, ops[..k], namespace, source, draws[..k], id);
    NeverThere(ops[..k], id, source, draws[..k]);
    AppliedOne(before, ops[k], namespace, source, draws[k]);
    var after := AppliedAll(index, ops[..k + 1], namespace, source, draws[..k + 1]);
    AppliedLast(index, ops, k, namespace, source, draws);
    AppliedTwice(index, ops, k + 1, namespace, source, draws);
    var later := draws[k + 1..];
    assert forall i :: 0 <= i < |later| ==> later[i] == draws[k + 1 + i];
    OwnHistory(after, ops[k + 1..], namespace, source, later, id);
  }

  lemma {:induction false} Untouched(memory: Memory, ops: seq<Operation>, id: string, source: string, draws: seq<Draw>)
    requires |draws| == |ops|
    requires forall i :: 0 <= i < |ops| ==> ops[i].Create? || ops[i].targetId != id
    ensures History(Some(memory), ops, id, source, draws) == Some(memory)
  {
    if ops != [] {
      Untouched(memory, ops[..|ops| - 1], id, source, draws[..|ops| - 1]);
    }
  }

  /** What a create, or an update without target, stores, field by field: when no later operation names the drawn
      identifier, the memory under it has the operation's content and tags, the given source and namespace, and
      both times are the moment drawn with it. */
  lemma CreatedFields(index: Index, ops: seq<Operation>, namespace: string, source: string, draws: seq<Draw>, k: nat)
    requires k < |ops| == |draws| && KeyedById(index) && Fresh(draws, index)
    requires
      || ops[k].Create?
      || (ops[k].Update? && ops[k].targetId !in AppliedAll(index, ops[..k], namespace, source, draws[..k]))
    requires forall i :: k < i < |ops| ==> ops[i].Create? || ops[i].targetId != draws[k].freshId
    ensures
      var after := AppliedAll(index, ops, namespace, source, draws);
      && draws[k].freshId in after
      && var memory := after[draws[k].freshId];
      && memory.id == draws[k].freshId && memory.content == ops[k].content && memory.tags == ops[k].tags
      && memory.source == source && memory.namespace == namespace
      && memory.createdAt == memory.updatedAt == draws[k].now
  {
    hide AppliedAll, History;
    NewMemoryHistory(index, ops, namespace, source, draws, k);
    var before := AppliedAll(index, ops[..k], namespace, source, draws[..k]);
    var born := Born(before, ops[k], namespace, source, draws[k]).value;
    var later := ops[k + 1..];
    assert forall i :: 0 <= i < |later| ==> later[i] == ops[k + 1 + i];
    Untouched(born, later, draws[k].freshId, source, draws[k + 1..]);
  }

  lemma AppliedLast(index: Index, ops: seq<Operation>, k: nat, namespace: string, source: string, draws: seq<Draw>)
    requires k < |ops| == |draws|
    ensures AppliedAll(index, ops[..k + 1], namespace, source, draws[..k + 1])
         == Applied(AppliedAll(index, ops[..k], namespace, source, draws[..k]), ops[k], namespace, source, draws[k])
  {
    hide Applied;
    assert ops[..k + 1][..k] == ops[..k] && draws[..k + 1][..k] == draws[..k];
  }

  /** Nothing else is ever there: every memory after the operations was there before or was drawn for one of them. */
  lemma {:induction false} OnlyOldAndDrawn(index: Index, ops: seq<Operation>, namespace: string, source: string,
                                           draws: seq<Draw>, id: string)
    requires |draws| == |ops| && id in AppliedAll(index, ops, namespace, source, draws)
    ensures id in index || exists k :: 0 <= k < |draws| && draws[k].freshId == id
  {
    if ops != [] {
      var n := |ops| - 1;
      if id in AppliedAll(index, ops[..n], namespace, source, draws[..n]) {
        OnlyOldAndDrawn(index, ops[..n], namespace, source, draws[..n], id);
        if id !in index {
          var k :| 0 <= k < n && draws[..n][k].freshId == id;
          assert draws[k].freshId == id;
        }
      } else {
        assert draws[n].freshId == id;
      }
    }
  }

  // ---------------------------------------------------------------- merging

  predicate HasId(memories: seq<Memory>, id: string) {
    exists i :: 0 <= i < |memories| && memories[i].id == id
  }

  /** The first memory of each identifier, in order. */
  function FirstOfEach(memories: seq<Memory>): (r: seq<Memory>)
    ensures |r| <= |memories|
  {
    if memories == [] then []
    else
      var rest, last := FirstOfEach(memories[..|memories| - 1]), memories[|memories| - 1];
      if HasId(rest, last.id) then rest else rest + [last]
  }

  /** Joins the bootstrap list and the search results up to `maxItems`, which the builder demands to be
      positive. */
  method MergeMemories(bootstrap: seq<Memory>, searched: seq<Memory>, maxItems: nat) returns (merged: seq<Memory>)
    requires maxItems > 0
    ensures merged == var all := FirstOfEach(bootstrap + searched); if |all| <= maxItems then all else all[..maxItems]
  {
    var all := bootstrap + searched;
    merged := [];
    var seen: set<string> := {};
    for k := 0 to |all|
      invariant merged == FirstOfEach(all[..k]) && |merged| < maxItems
      invariant forall id :: id in seen <==> HasId(merged, id)
    {
      assert all[..k + 1][..k] == all[..k];
      HasIdSnoc(merged, all[k]);
      if all[k].id !in seen {
        seen := seen + {all[k].id};
        merged := merged + [all[k]];
      }
      assert merged == FirstOfEach(all[..k + 1]);
      if |merged| >= maxItems {
        FirstOfEachPrefix(all, k + 1);
        return;
      }
    }
    assert all[..|all|] == all;
  }

  lemma {:induction false} FirstOfEachPrefix(memories: seq<Memory>, k: nat)
    requires k <= |memories|
    ensures FirstOfEach(memories[..k]) <= FirstOfEach(memories)
    decreases |memories|
  {
    if k < |memories| {
      FirstOfEachPrefix(memories[..|memories| - 1], k);
      assert memories[..|memories| - 1][..k] == memories[..k];
    } else {
      assert memories[..k] == memories;
    }
  }

  lemma HasIdSnoc(memories: seq<Memory>, last: Memory)
    ensures forall id :: HasId(memories + [last], id) <==> HasId(memories, id) || last.id == id
  {
    forall id | HasId(memories, id) ensures HasId(memories + [last], id) {
      var i :| 0 <= i < |memories| && memories[i].id == id;
      assert (memories + [last])[i].id == id;
    }
    assert (memories + [last])[|memories|] == last;
  }

  /** No memory with its identifier comes before it. */
  ghost predicate IsFirst(memories: seq<Memory>, memory: Memory) {
    exists k :: 0 <= k < |memories| && memories[k] == memory && !HasId(memories[..k], memory.id)
  }

  lemma FirstSnoc(memories: seq<Memory>, last: Memory)
    ensures forall m :: IsFirst(memories, m) ==> IsFirst(memories + [last], m)
    ensures !HasId(memories, last.id) ==> IsFirst(memories + [last], last)
  {
    hide HasId;
    var longer := memories + [last];
    assert longer[..|memories|] == memories && longer[|memories|] == last;
    forall m | IsFirst(memories, m) ensures IsFirst(longer, m) {
      var k :| 0 <= k < |memories| && memories[k] == m && !HasId(memories[..k], m.id);
      assert longer[k] == m && longer[..k] == memories[..k];
    }
  }

  /** Merging keeps exactly one memory of every identifier, and it is the first one. */
  lemma {:induction false} FirstOfEachMeaning(memories: seq<Memory>)
    ensures forall id :: HasId(FirstOfEach(memories), id) <==> HasId(memories, id)
    ensures forall i, j :: 0 <= i < j < |FirstOfEach(memories)| ==>
              FirstOfEach(memories)[i].id != FirstOfEach(memories)[j].id
    ensures forall i :: 0 <= i < |FirstOfEach(memories)| ==> IsFirst(memories, FirstOfEach(memories)[i])
  {
    hide IsFirst;
    if memories != [] {
      var init, last := memories[..|memories| - 1], memories[|memories| - 1];
      FirstOfEachMeaning(init);
      assert memories == init + [last];
      HasIdSnoc(init, last);
      HasIdSnoc(FirstOfEach(init), last);
      FirstSnoc(init, last);
    }
  }
}
