/**
 * The concrete store behind the storage port (Infrastructure/Storage/TaskOperations.cs).
 * The Entity Framework set of task records is a sequence. Entity Framework promises no order;
 * the model assumes one in which an add appends and a delete keeps the other records in order.
 */
module Storage {
  import opened Wrappers
  import opened Domain

  /** Position of the first record whose ID is `id`, as the store's first-match query finds it, or none. */
  function FindIndex(items: seq<TaskItem>, id: int): (r: Option<nat>)
    ensures r.Some? ==> r.value < |items| && items[r.value].id == Some(id)
    ensures r.Some? ==> forall j :: 0 <= j < r.value ==> items[j].id != Some(id)
    ensures r.None? <==> forall j :: 0 <= j < |items| ==> items[j].id != Some(id)
  {
    if items == [] then None
    else if items[0].id == Some(id) then Some(0)
    else match FindIndex(items[1..], id)
      case None => None
      case Some(k) => Some(k + 1)
  }

  /** The record GetByIdAsync returns: the first one with that ID, or null when there is none. */
  function Lookup(items: seq<TaskItem>, id: int): (r: Option<TaskItem>)
    ensures r.None? <==> forall j :: 0 <= j < |items| ==> items[j].id != Some(id)
    ensures r.Some? ==> exists i :: 0 <= i < |items| && items[i] == r.value && items[i].id == Some(id)
                                    && forall j :: 0 <= j < i ==> items[j].id != Some(id)
  {
    match FindIndex(items, id)
    case None => None
    case Some(i) => Some(items[i])
  }

  /** The primary-key discipline of the store: every record has an ID and no two records share one. */
  predicate UniqueKeys(items: seq<TaskItem>)
  {
    && (forall i :: 0 <= i < |items| ==> items[i].id.Some?)
    && (forall i, j :: 0 <= i < j < |items| ==> items[i].id != items[j].id)
  }

  /** Under unique keys, the record found for `id` is the only record with that ID. */
  lemma LookupUnique(items: seq<TaskItem>, id: int, x: TaskItem)
    requires UniqueKeys(items)
    ensures Lookup(items, id) == Some(x) <==> x in items && x.id == Some(id)
  {
    if x in items && x.id == Some(id) {
      var m :| 0 <= m < |items| && items[m] == x;
      assert items[FindIndex(items, id).value] == x;
    }
  }

  /** The first-match search depends on the records' IDs only (FindIndex's contract determines its result). */
  lemma FindIndexSameKeys(a: seq<TaskItem>, b: seq<TaskItem>, id: int)
    requires |a| == |b|
    requires forall p :: 0 <= p < |a| ==> a[p].id == b[p].id
    ensures FindIndex(a, id) == FindIndex(b, id)
  {
  }

  /** The key EF gives a record it starts to track: the record's own ID, or a generated one when that is null. */
  function WithKey(task: TaskItem, generatedId: int): (r: TaskItem)
    ensures r.id.Some?
    ensures task.id.Some? ==> r == task
    ensures task.id.None? ==> r == task.(id := Some(generatedId))
  {
    match task.id
    case Some(_) => task
    case None => task.(id := Some(generatedId))
  }

  /** A successful add appends a record with a fresh key: the keys stay unique and the new record is found by its key. */
  lemma AddKeepsKeys(items: seq<TaskItem>, added: TaskItem)
    requires UniqueKeys(items) && added.id.Some?
    requires Lookup(items, added.id.value) == None
    ensures UniqueKeys(items + [added])
    ensures Lookup(items + [added], added.id.value) == Some(added)
    ensures forall k :: k != added.id.value ==> Lookup(items + [added], k) == Lookup(items, k)
  {
    var s := items + [added];
    forall i, j | 0 <= i < j < |s| ensures s[i].id != s[j].id {
      if j == |items| {
        assert s[i] == items[i];
      }
    }
    LookupUnique(s, added.id.value, added);
    forall k | k != added.id.value ensures Lookup(s, k) == Lookup(items, k) {
      match Lookup(items, k)
      case None =>
        assert forall j :: 0 <= j < |s| ==> s[j].id != Some(k) by {
          forall j | 0 <= j < |s| ensures s[j].id != Some(k) {
            if j < |items| { assert s[j] == items[j]; }
          }
        }
      case Some(x) =>
        LookupUnique(items, k, x);
        LookupUnique(s, k, x);
    }
  }

  /**
   * The fields UpdateAsync copies onto the stored record: Title, Description, IsCompleted,
   * DueDate, Priority and UpdatedDate. The result is the payload, except that ID and
   * CreatedDate are the stored record's.
   */
  function CopyFields(existing: TaskItem, task: TaskItem): (r: TaskItem)
    ensures r == task.(id := existing.id, createdDate := existing.createdDate)
  {
    existing.(title := task.title, description := task.description, isCompleted := task.isCompleted,
              dueDate := task.dueDate, priority := task.priority, updatedDate := task.updatedDate)
  }

  /** The records after UpdateAsync(id, task). */
  function UpdatedItems(items: seq<TaskItem>, id: int, task: TaskItem): (r: seq<TaskItem>)
    ensures |r| == |items|
    ensures forall p :: 0 <= p < |items| ==> r[p].id == items[p].id && r[p].createdDate == items[p].createdDate
    ensures FindIndex(items, id).None? ==> r == items
    ensures FindIndex(items, id).Some? ==>
              var i := FindIndex(items, id).value;
              r[i] == CopyFields(items[i], task) && forall p :: 0 <= p < |items| && p != i ==> r[p] == items[p]
  {
    match FindIndex(items, id)
    case None => items
    case Some(i) => items[i := CopyFields(items[i], task)]
  }

  /** After an update the record found for `id` is the old one with the payload's fields copied on; every other ID finds what it found before. */
  lemma UpdateLookup(items: seq<TaskItem>, id: int, task: TaskItem, k: int)
    ensures Lookup(UpdatedItems(items, id, task), id) ==
              match Lookup(items, id) case None => None case Some(e) => Some(CopyFields(e, task))
    ensures k != id ==> Lookup(UpdatedItems(items, id, task), k) == Lookup(items, k)
  {
    var r := UpdatedItems(items, id, task);
    FindIndexSameKeys(items, r, id);
    FindIndexSameKeys(items, r, k);
  }

  /** An update keeps the keys unique. */
  lemma UpdateKeepsKeys(items: seq<TaskItem>, id: int, task: TaskItem)
    requires UniqueKeys(items)
    ensures UniqueKeys(UpdatedItems(items, id, task))
  {
    var r := UpdatedItems(items, id, task);
    assert forall i, j :: 0 <= i < j < |r| ==> r[i].id == items[i].id && r[j].id == items[j].id;
  }

  /** Updating twice with the same payload is the same as updating once. */
  lemma UpdateIdempotent(items: seq<TaskItem>, id: int, task: TaskItem)
    ensures UpdatedItems(UpdatedItems(items, id, task), id, task) == UpdatedItems(items, id, task)
  {
    var r := UpdatedItems(items, id, task);
    FindIndexSameKeys(items, r, id);
  }

  /** An update by the service, whose payload carries the current clock reading, keeps every record chronological. */
  lemma UpdateKeepsChronology(items: seq<TaskItem>, id: int, task: TaskItem, now: int)
    requires AllStampedBy(items, now)
    requires task.updatedDate == Some(now)
    ensures AllStampedBy(UpdatedItems(items, id, task), now)
  {
  }

  /** The records after DeleteAsync(id). */
  function RemovedItems(items: seq<TaskItem>, id: int): (r: seq<TaskItem>)
    ensures FindIndex(items, id).None? ==> r == items
    ensures FindIndex(items, id).Some? ==>
              var i := FindIndex(items, id).value;
              && |r| == |items| - 1
              && (forall p :: 0 <= p < i ==> r[p] == items[p])
              && (forall p :: i <= p < |r| ==> r[p] == items[p + 1])
  {
    match FindIndex(items, id)
    case None => items
    case Some(i) => items[..i] + items[i + 1..]
  }

  /** Every record left after a delete was in the store before and is not the one removed. */
  lemma RemovedFrom(items: seq<TaskItem>, id: int, x: TaskItem)
    requires UniqueKeys(items)
    ensures x in RemovedItems(items, id) <==> x in items && x.id != Some(id)
  {
    var r := RemovedItems(items, id);
    match FindIndex(items, id)
    case None =>
    case Some(i) =>
      if x in r {
        var p :| 0 <= p < |r| && r[p] == x;
        if p < i {
          assert items[p] == x;
        } else {
          assert items[p + 1] == x;
        }
      }
      if x in items && x.id != Some(id) {
        var m :| 0 <= m < |items| && items[m] == x;
        if m < i {
          assert r[m] == x;
        } else {
          assert m != i;
          assert r[m - 1] == x;
        }
      }
  }

  /** A delete keeps the keys unique, removes the record with that ID, and leaves what every other ID finds. */
  lemma DeleteLookup(items: seq<TaskItem>, id: int, k: int)
    requires UniqueKeys(items)
    ensures UniqueKeys(RemovedItems(items, id))
    ensures Lookup(RemovedItems(items, id), id) == None
    ensures k != id ==> Lookup(RemovedItems(items, id), k) == Lookup(items, k)
  {
    var r := RemovedItems(items, id);
    match FindIndex(items, id)
    case None =>
    case Some(i) =>
      forall p, q | 0 <= p < q < |r| ensures r[p].id != r[q].id {
        var p' := if p < i then p else p + 1;
        var q' := if q < i then q else q + 1;
        assert r[p] == items[p'] && r[q] == items[q'];
      }
      forall j | 0 <= j < |r| ensures r[j].id != Some(id) {
        RemovedFrom(items, id, r[j]);
      }
      if k != id {
        match Lookup(items, k)
        case None =>
          forall j | 0 <= j < |r| ensures r[j].id != Some(k) {
            RemovedFrom(items, id, r[j]);
          }
        case Some(x) =>
          LookupUnique(items, k, x);
          RemovedFrom(items, id, x);
          LookupUnique(r, k, x);
      }
  }

  /** Deleting twice is the same as deleting once. */
  lemma DeleteIdempotent(items: seq<TaskItem>, id: int)
    requires UniqueKeys(items)
    ensures RemovedItems(RemovedItems(items, id), id) == RemovedItems(items, id)
  {
    DeleteLookup(items, id, id);
  }

  /** The store: the set of task records behind the storage port. */
  class TaskOperations {
    var items: seq<TaskItem>

    ghost predicate Valid()
      reads this
    {
      UniqueKeys(items)
    }

    constructor ()
      ensures Valid() && items == []
    {
      items := [];
    }

    /** GetAllAsync: every record, in the store's order. */
    method GetAll() returns (all: seq<TaskItem>)
      ensures all == items
    {
      all := items;
    }

    /** GetByIdAsync: the first record with that ID, or null. */
    method GetById(id: int) returns (found: Option<TaskItem>)
      ensures found == Lookup(items, id)
    {
      var i := FindIndex(items, id);
      found := if i.Some? then Some(items[i.value]) else None;
    }

    /**
     * AddAsync then SaveChangesAsync: the record, keyed, is appended. A record whose key
     * is already taken is refused with DuplicateKey and the store is left as it was. The
     * key goes onto the caller's object either way; `added` is that object afterwards.
     */
    method Add(task: TaskItem, generatedId: int) returns (added: TaskItem, outcome: Outcome<Exception>)
      requires Valid()
      modifies this
      ensures Valid()
      ensures added == WithKey(task, generatedId)
      ensures outcome == if Lookup(old(items), added.id.value).Some? then Fail(DuplicateKey(added.id.value)) else Pass
      ensures items == if outcome.Pass? then old(items) + [added] else old(items)
    {
      added := WithKey(task, generatedId);
      var key := added.id.value;
      if FindIndex(items, key).Some? {
        outcome := Fail(DuplicateKey(key));
        return;
      }
      AddKeepsKeys(items, added);
      items := items + [added];
      outcome := Pass;
    }

    /** UpdateAsync: copies the payload's fields onto the record with that ID; nothing happens when there is none. */
    method Update(id: int, task: TaskItem)
      requires Valid()
      modifies this
      ensures Valid()
      ensures items == UpdatedItems(old(items), id, task)
    {
      var existing := FindIndex(items, id);
      if existing.None? {
        return;
      }
      var i := existing.value;
      var record := items[i];
      record := record.(title := task.title);
      record := record.(description := task.description);
      record := record.(isCompleted := task.isCompleted);
      record := record.(dueDate := task.dueDate);
      record := record.(priority := task.priority);
      record := record.(updatedDate := task.updatedDate);
      UpdateKeepsKeys(items, id, task);
      items := items[i := record];
    }

    /** DeleteAsync: removes the record with that ID if there is one. */
    method Delete(id: int)
      requires Valid()
      modifies this
      ensures Valid()
      ensures items == RemovedItems(old(items), id)
    {
      var found := FindIndex(items, id);
      if found.Some? {
        var i := found.value;
        DeleteLookup(items, id, id);
        items := items[..i] + items[i + 1..];
      }
    }
  }
}
