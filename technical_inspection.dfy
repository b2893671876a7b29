/** The technical inspection form (components/TechnicalInspection.tsx): a list of leaves (the
    panes of a window or door), each with a status, defects and a photo, and a general checklist
    whose entries are ticked in place. */
module TechnicalInspection {

  import opened Common
  import opened Lists

  datatype Status = Perfect | Attention | Damaged

  datatype Leaf = Leaf(id: int, status: Status, defects: seq<string>, photo: Option<string>)

  const DefectOptions: seq<string> := ["Roldana", "Vedação", "Vidro Lascado", "Fechadura", "Trilho"]

  const GeneralChecklistItems: seq<string> := [
    "Proteção do piso realizada", "Condição das paredes verificada", "Área de trabalho limpa",
    "Ferramentas organizadas"
  ]

  /** A leaf created by resizing: perfect, no defects, no photo. */
  function FreshLeaf(id: int): Leaf
  {
    Leaf(id, Perfect, [], None)
  }

  /** `leaves.find(l => l.id === id)`. */
  function Find(leaves: seq<Leaf>, id: int): Option<Leaf>
  {
    if leaves == [] then None
    else if leaves[0].id == id then Some(leaves[0])
    else Find(leaves[1..], id)
  }

  /** `find` yields the first leaf with the id, and nothing when no leaf has it. */
  lemma {:induction false} FindSpec(leaves: seq<Leaf>, id: int)
    ensures Find(leaves, id).None? <==> forall i :: 0 <= i < |leaves| ==> leaves[i].id != id
    ensures Find(leaves, id).Some? ==>
      exists k :: 0 <= k < |leaves| && leaves[k] == Find(leaves, id).value && leaves[k].id == id
                  && forall i :: 0 <= i < k ==> leaves[i].id != id
  {
    if leaves != [] && leaves[0].id != id {
      FindSpec(leaves[1..], id);
      if Find(leaves, id).Some? {
        var k :| 0 <= k < |leaves[1..]| && leaves[1..][k] == Find(leaves, id).value && leaves[1..][k].id == id
                 && forall i :: 0 <= i < k ==> leaves[1..][i].id != id;
        assert leaves[k + 1] == leaves[1..][k];
        forall i | 0 <= i < k + 1 ensures leaves[i].id != id {
          if i > 0 { assert leaves[i] == leaves[1..][i - 1]; }
        }
      } else {
        forall i | 0 <= i < |leaves| ensures leaves[i].id != id {
          if i > 0 { assert leaves[i] == leaves[1..][i - 1]; }
        }
      }
    } else if leaves != [] {
      assert leaves[0] == Find(leaves, id).value;
    }
  }

  /** The leaf at position `i` (id `i + 1`) after resizing: the existing one with that id, or a
      fresh one. */
  function Resized(leaves: seq<Leaf>, id: int): Leaf
  {
    match Find(leaves, id)
    case Some(existing) => existing
    case None => FreshLeaf(id)
  }

  /** `updateLeafStatus`: the leaves keep their ids, order, defects and photos; the leaves with
      the id get the status, and every other leaf is untouched. */
  function WithStatus(leaves: seq<Leaf>, leafId: int, status: Status): (r: seq<Leaf>)
    ensures |r| == |leaves|
    ensures forall i :: 0 <= i < |leaves| ==>
      r[i].id == leaves[i].id && r[i].defects == leaves[i].defects && r[i].photo == leaves[i].photo
    ensures forall i :: 0 <= i < |leaves| && leaves[i].id == leafId ==> r[i].status == status
    ensures forall i :: 0 <= i < |leaves| && leaves[i].id != leafId ==> r[i] == leaves[i]
  {
    seq(|leaves|, i requires 0 <= i < |leaves| =>
      if leaves[i].id == leafId then leaves[i].(status := status) else leaves[i])
  }

  /** `handlePhotoUpload`: the leaves keep their ids, order, statuses and defects; the leaves
      with the id get the photo, and every other leaf is untouched. */
  function WithPhoto(leaves: seq<Leaf>, leafId: int, url: string): (r: seq<Leaf>)
    ensures |r| == |leaves|
    ensures forall i :: 0 <= i < |leaves| ==>
      r[i].id == leaves[i].id && r[i].status == leaves[i].status && r[i].defects == leaves[i].defects
    ensures forall i :: 0 <= i < |leaves| && leaves[i].id == leafId ==> r[i].photo == Some(url)
    ensures forall i :: 0 <= i < |leaves| && leaves[i].id != leafId ==> r[i] == leaves[i]
  {
    seq(|leaves|, i requires 0 <= i < |leaves| =>
      if leaves[i].id == leafId then leaves[i].(photo := Some(url)) else leaves[i])
  }

  /** `toggleDefect`: the leaves with the id have the defect toggled; nothing else changes. */
  function WithDefectToggled(leaves: seq<Leaf>, leafId: int, defect: string): (r: seq<Leaf>)
    ensures |r| == |leaves|
    ensures forall i :: 0 <= i < |leaves| ==>
      r[i] == if leaves[i].id == leafId then leaves[i].(defects := Toggle(leaves[i].defects, defect))
              else leaves[i]
  {
    seq(|leaves|, i requires 0 <= i < |leaves| =>
      if leaves[i].id == leafId then leaves[i].(defects := Toggle(leaves[i].defects, defect))
      else leaves[i])
  }

  /** Toggling a defect on a leaf removes every occurrence when the leaf has it and appends it
      otherwise; no other defect's presence changes and the other leaves are untouched. */
  lemma ToggleDefectEffect(leaves: seq<Leaf>, leafId: int, defect: string, i: int)
    requires 0 <= i < |leaves| && leaves[i].id == leafId
    ensures var after := WithDefectToggled(leaves, leafId, defect)[i];
      && after.id == leaves[i].id && after.status == leaves[i].status && after.photo == leaves[i].photo
      && (defect in leaves[i].defects ==> defect !in after.defects)
      && (defect !in leaves[i].defects ==> after.defects == leaves[i].defects + [defect])
      && forall d :: d != defect ==> (d in after.defects <==> d in leaves[i].defects)
  {
    RemoveAllSpec(leaves[i].defects, defect);
    ToggleMembership(leaves[i].defects, defect);
  }

  /** Toggling a defect the leaves with the id lack, twice, gives the list back. */
  lemma ToggleDefectTwice(leaves: seq<Leaf>, leafId: int, defect: string)
    requires forall i :: 0 <= i < |leaves| && leaves[i].id == leafId ==> defect !in leaves[i].defects
    ensures WithDefectToggled(WithDefectToggled(leaves, leafId, defect), leafId, defect) == leaves
  {
    var once := WithDefectToggled(leaves, leafId, defect);
    var twice := WithDefectToggled(once, leafId, defect);
    forall i | 0 <= i < |leaves| ensures twice[i] == leaves[i] {
      if leaves[i].id == leafId {
        ToggleTwice(leaves[i].defects, defect);
      }
    }
  }

  /** `leaves.filter(leaf => leaf.defects.includes(defect)).length`. */
  function CountWith(leaves: seq<Leaf>, defect: string): nat
  {
    if leaves == [] then 0
    else (if defect in leaves[0].defects then 1 else 0) + CountWith(leaves[1..], defect)
  }

  /** The defect count is at most the number of leaves; it is 0 exactly when no leaf has the
      defect and the number of leaves exactly when every leaf has it. */
  lemma {:induction false} CountWithBounds(leaves: seq<Leaf>, defect: string)
    ensures CountWith(leaves, defect) <= |leaves|
    ensures CountWith(leaves, defect) == 0 <==>
      forall i :: 0 <= i < |leaves| ==> defect !in leaves[i].defects
    ensures CountWith(leaves, defect) == |leaves| <==>
      forall i :: 0 <= i < |leaves| ==> defect in leaves[i].defects
  {
    if leaves != [] {
      CountWithBounds(leaves[1..], defect);
      forall i | 0 < i < |leaves| ensures leaves[i] == leaves[1..][i - 1] { }
    }
  }

  /** Leaves with the same defects, position by position, have the same defect counts. */
  lemma {:induction false} SameDefectsSameCount(a: seq<Leaf>, b: seq<Leaf>, defect: string)
    requires |a| == |b| && forall i :: 0 <= i < |a| ==> a[i].defects == b[i].defects
    ensures CountWith(a, defect) == CountWith(b, defect)
  {
    if a != [] {
      assert a[0].defects == b[0].defects;
      SameDefectsSameCount(a[1..], b[1..], defect);
    }
  }

  /** A new status or photo changes no defect count, and setting the same status or photo a
      second time changes nothing. */
  lemma StatusKeepsDefectCount(leaves: seq<Leaf>, leafId: int, status: Status, defect: string)
    ensures CountWith(WithStatus(leaves, leafId, status), defect) == CountWith(leaves, defect)
    ensures WithStatus(WithStatus(leaves, leafId, status), leafId, status) == WithStatus(leaves, leafId, status)
  {
    SameDefectsSameCount(WithStatus(leaves, leafId, status), leaves, defect);
  }

  lemma PhotoKeepsDefectCount(leaves: seq<Leaf>, leafId: int, url: string, defect: string)
    ensures CountWith(WithPhoto(leaves, leafId, url), defect) == CountWith(leaves, defect)
    ensures WithPhoto(WithPhoto(leaves, leafId, url), leafId, url) == WithPhoto(leaves, leafId, url)
  {
    SameDefectsSameCount(WithPhoto(leaves, leafId, url), leaves, defect);
  }

  /** The defect summary (lines 305-320): each of the options some leaf has, in the order of the
      options, with the number of leaves that have it. */
  function Summary(leaves: seq<Leaf>, options: seq<string>): (r: seq<(string, nat)>)
    ensures forall k :: 0 <= k < |r| ==> r[k].0 in options && r[k].1 == CountWith(leaves, r[k].0) && r[k].1 > 0
    ensures forall d :: d in options && CountWith(leaves, d) > 0 ==> (d, CountWith(leaves, d)) in r
  {
    if options == [] then []
    else
      var count := CountWith(leaves, options[0]);
      (if count == 0 then [] else [(options[0], count)]) + Summary(leaves, options[1..])
  }

  /** A general checklist entry; the component flips `completed` on the shared object. */
  class ChecklistEntry {
    const task: string
    var completed: bool

    constructor (task: string)
      ensures this.task == task && !completed
    {
      this.task := task;
      completed := false;
    }
  }

  class Inspection {
    var numberOfLeaves: int
    var leaves: seq<Leaf>
    var generalChecklist: seq<ChecklistEntry>

    /** The checklist entries are distinct objects. */
    ghost predicate Valid()
      reads this
    {
      forall i, j :: 0 <= i < j < |generalChecklist| ==> generalChecklist[i] != generalChecklist[j]
    }

    /** The first render: the initial leaves (none by default) and their count, and the
        initial checklist or, by default, one open entry per general task. */
    constructor (initialLeaves: seq<Leaf>, initialChecklist: Option<seq<ChecklistEntry>>)
      requires initialChecklist.Some? ==>
        forall i, j :: 0 <= i < j < |initialChecklist.value| ==> initialChecklist.value[i] != initialChecklist.value[j]
      ensures Valid()
      ensures leaves == initialLeaves && numberOfLeaves == |initialLeaves|
      ensures initialChecklist.Some? ==> generalChecklist == initialChecklist.value
      ensures initialChecklist.None? ==>
        && |generalChecklist| == |GeneralChecklistItems|
        && forall i :: 0 <= i < |generalChecklist| ==>
             generalChecklist[i].task == GeneralChecklistItems[i] && !generalChecklist[i].completed
    {
      var checklist := if initialChecklist.Some? then initialChecklist.value else [];
      if initialChecklist.None? {
        checklist := DefaultChecklist();
      }
      leaves := initialLeaves;
      numberOfLeaves := |initialLeaves|;
      generalChecklist := checklist;
    }

    /** The leaf count field: `parseInt(text) || 0`, where `parsed` is what `parseInt` gave
        (`None` for NaN). */
    method SetNumberOfLeaves(parsed: Option<int>)
      modifies this`numberOfLeaves
      ensures numberOfLeaves == (if parsed.Some? then parsed.value else 0)
    {
      numberOfLeaves := if parsed.Some? && parsed.value != 0 then parsed.value else 0;
    }

    /** `handleSetLeaves`: a count that is not positive is refused and nothing changes; otherwise
        the list becomes exactly leaves 1..n in order, each the existing leaf with its id if
        there is one, or a fresh perfect leaf. */
    method SetLeaves() returns (accepted: bool)
      modifies this`leaves
      ensures accepted <==> numberOfLeaves > 0
      ensures !accepted ==> leaves == old(leaves)
      ensures accepted ==> |leaves| == numberOfLeaves
      ensures accepted ==> forall i :: 0 <= i < |leaves| ==>
        leaves[i] == Resized(old(leaves), i + 1) && leaves[i].id == i + 1
    {
      if numberOfLeaves <= 0 {
        return false;
      }
      var before := leaves;
      var newLeaves: seq<Leaf> := [];
      var i := 0;
      while i < numberOfLeaves
        invariant 0 <= i <= numberOfLeaves
        invariant |newLeaves| == i
        invariant forall k :: 0 <= k < i ==> newLeaves[k] == Resized(before, k + 1)
        invariant forall k :: 0 <= k < i ==> newLeaves[k].id == k + 1
      {
        var existing := Find(before, i + 1);
        FindSpec(before, i + 1);
        var leaf := if existing.Some? then existing.value else FreshLeaf(i + 1);
        newLeaves := newLeaves + [leaf];
        i := i + 1;
      }
      leaves := newLeaves;
      return true;
    }

    method UpdateLeafStatus(leafId: int, status: Status)
      modifies this`leaves
      ensures leaves == WithStatus(old(leaves), leafId, status)
      ensures forall defect :: DefectCount(defect) == old(DefectCount(defect))
    {
      var before := leaves;
      leaves := WithStatus(leaves, leafId, status);
      forall defect ensures DefectCount(defect) == CountWith(before, defect) {
        StatusKeepsDefectCount(before, leafId, status, defect);
      }
    }

    method ToggleDefect(leafId: int, defect: string)
      modifies this`leaves
      ensures leaves == WithDefectToggled(old(leaves), leafId, defect)
    {
      leaves := WithDefectToggled(leaves, leafId, defect);
    }

    method PhotoUpload(leafId: int, url: string)
      modifies this`leaves
      ensures leaves == WithPhoto(old(leaves), leafId, url)
      ensures forall defect :: DefectCount(defect) == old(DefectCount(defect))
    {
      var before := leaves;
      leaves := WithPhoto(leaves, leafId, url);
      forall defect ensures DefectCount(defect) == CountWith(before, defect) {
        PhotoKeepsDefectCount(before, leafId, url, defect);
      }
    }

    /** `toggleGeneralChecklist`: the entry at `index` is flipped in place; the list, every task
        and every other entry are unchanged. The component only passes the index of a rendered
        entry. */
    method ToggleGeneralChecklist(index: int)
      requires Valid() && 0 <= index < |generalChecklist|
      modifies generalChecklist[index]
      ensures Valid()
      ensures generalChecklist[index].completed == !old(generalChecklist[index].completed)
      ensures forall j :: 0 <= j < |generalChecklist| && j != index ==>
        generalChecklist[j].completed == old(generalChecklist[j].completed)
    {
      var updated := generalChecklist;
      updated[index].completed := !updated[index].completed;
    }

    function DefectCount(defect: string): nat
      reads this
    {
      CountWith(leaves, defect)
    }

    function DefectSummary(): seq<(string, nat)>
      reads this
    {
      Summary(leaves, DefectOptions)
    }
  }

  /** `GENERAL_CHECKLIST_ITEMS.map(task => ({ task, completed: false }))`: a new open entry per
      general task. */
  method DefaultChecklist() returns (entries: seq<ChecklistEntry>)
    ensures |entries| == |GeneralChecklistItems|
    ensures forall i :: 0 <= i < |entries| ==> entries[i].task == GeneralChecklistItems[i] && !entries[i].completed
    ensures forall i, j :: 0 <= i < j < |entries| ==> entries[i] != entries[j]
  {
    entries := [];
    var i := 0;
    while i < |GeneralChecklistItems|
      invariant 0 <= i <= |GeneralChecklistItems| && |entries| == i
      invariant forall k :: 0 <= k < i ==> entries[k].task == GeneralChecklistItems[k] && !entries[k].completed
      invariant forall k, j :: 0 <= k < j < i ==> entries[k] != entries[j]
    {
      var entry := new ChecklistEntry(GeneralChecklistItems[i]);
      entries := entries + [entry];
      i := i + 1;
    }
  }

  /** Resizing keeps an existing leaf whose id is within the new count verbatim, creates fresh
      perfect leaves for the missing ids, and drops every leaf with a larger id. */
  lemma ResizeKeepsAndDrops(old_leaves: seq<Leaf>, n: int, k: int)
    requires 0 <= k < |old_leaves|
    requires forall i, j :: 0 <= i < j < |old_leaves| ==> old_leaves[i].id != old_leaves[j].id
    ensures 1 <= old_leaves[k].id <= n ==> Resized(old_leaves, old_leaves[k].id) == old_leaves[k]
    ensures forall id :: (forall i :: 0 <= i < |old_leaves| ==> old_leaves[i].id != id) ==>
              Resized(old_leaves, id) == FreshLeaf(id)
    ensures forall id :: Resized(old_leaves, id).id == id
  {
    FindSpec(old_leaves, old_leaves[k].id);
    forall id ensures Resized(old_leaves, id).id == id {
      FindSpec(old_leaves, id);
    }
    forall id | forall i :: 0 <= i < |old_leaves| ==> old_leaves[i].id != id
      ensures Resized(old_leaves, id) == FreshLeaf(id)
    {
      FindSpec(old_leaves, id);
    }
  }
}
