/** The work order page (pages/WorkOrderDetails.tsx): photos are appended and removed, checklist
    entries ticked, notes saved and the status changed, each change written to the backend first.
    The outcome of that write is the parameter `writeOk`; the route's id is a text where the
    empty text stands for a missing id. */
module WorkOrderDetails {

  import opened Common
  import opened Text
  import opened Lists

  datatype Status = Scheduled | InProgress | Completed

  /** A checklist entry; the page flips `completed` on the shared object. */
  class Task {
    const task: string
    var completed: bool

    constructor (task: string, completed: bool)
      ensures this.task == task && this.completed == completed
    {
      this.task := task;
      this.completed := completed;
    }
  }

  /** The loaded work order. `photos`, `checklist` and `feedbackLink` may be absent from the
      stored document. */
  datatype WorkOrder = WorkOrder(
    id: string, quoteId: string, clientName: string, scheduledDate: string, technician: string,
    status: Status, checklist: Option<seq<Task>>, notes: string, photos: Option<seq<string>>,
    feedbackLink: Option<string>)

  /** `workOrder.photos || []`. */
  function PhotosOf(w: WorkOrder): seq<string>
  {
    if w.photos.Some? then w.photos.value else []
  }

  /** `!workOrder.feedbackLink`: no link, or an empty one. */
  predicate NoFeedbackLink(w: WorkOrder)
  {
    w.feedbackLink.None? || w.feedbackLink.value == ""
  }

  /** The link the page generates when a work order is first completed. */
  function FeedbackLink(origin: string, id: string): (link: string)
    ensures StartsWith(link, origin)
    ensures link[|origin|..] == "/feedback/" + id
  {
    origin + "/feedback/" + id
  }

  class WorkOrderPage {
    const id: string
    var workOrder: Option<WorkOrder>
    var newPhotoUrl: string
    var notes: string

    /** The checklist entries of the loaded work order. */
    ghost function Entries(): seq<Task>
      reads this
    {
      if workOrder.Some? && workOrder.value.checklist.Some? then workOrder.value.checklist.value else []
    }

    ghost function EntrySet(): set<Task>
      reads this
    {
      set t | t in Entries()
    }

    /** The checklist entries are distinct objects. */
    ghost predicate Valid()
      reads this
    {
      forall i, j :: 0 <= i < j < |Entries()| ==> Entries()[i] != Entries()[j]
    }

    /** The handlers' common guard: an id and a loaded work order. */
    predicate Ready()
      reads this
    {
      id != "" && workOrder.Some?
    }

    /** The page once the work order is read: each stored checklist entry becomes its own
        object. */
    constructor (id: string, loaded: Option<WorkOrder>)
      requires loaded.Some? && loaded.value.checklist.Some? ==>
        var entries := loaded.value.checklist.value;
        forall i, j :: 0 <= i < j < |entries| ==> entries[i] != entries[j]
      ensures Valid()
      ensures this.id == id && workOrder == loaded && newPhotoUrl == ""
      ensures notes == (if loaded.Some? then loaded.value.notes else "")
    {
      this.id := id;
      workOrder := loaded;
      newPhotoUrl := "";
      notes := if loaded.Some? then loaded.value.notes else "";
    }

    method SetNewPhotoUrl(text: string)
      modifies this`newPhotoUrl
      ensures newPhotoUrl == text
    {
      newPhotoUrl := text;
    }

    method SetNotes(text: string)
      modifies this`notes
      ensures notes == text
    {
      notes := text;
    }

    /** `handleAddPhoto`: a URL that is blank after trimming, a missing id or work order, or a
        failed write change nothing; otherwise the trimmed URL is appended after the existing
        photos and the URL field is cleared. */
    method AddPhoto(writeOk: bool)
      modifies this`workOrder, this`newPhotoUrl
      ensures var applies := !Blank(old(newPhotoUrl)) && old(Ready()) && writeOk;
      && (applies ==>
            && workOrder == Some(old(workOrder).value.(photos := Some(PhotosOf(old(workOrder).value) + [Trim(old(newPhotoUrl))])))
            && newPhotoUrl == "")
      && (!applies ==> workOrder == old(workOrder) && newPhotoUrl == old(newPhotoUrl))
    {
      TrimEmptyIffBlank(newPhotoUrl);
      if Trim(newPhotoUrl) == "" || id == "" || workOrder.None? {
        return;
      }
      var updatedPhotos := PhotosOf(workOrder.value) + [Trim(newPhotoUrl)];
      if writeOk {
        workOrder := Some(workOrder.value.(photos := Some(updatedPhotos)));
        newPhotoUrl := "";
      }
    }

    /** `handleRemovePhoto`: with an id, a work order that has a photo list and a successful
        write, exactly the photo at `index` is dropped and the others keep their order (an index
        outside the list drops nothing); otherwise nothing changes. */
    method RemovePhoto(index: int, writeOk: bool)
      modifies this`workOrder
      ensures var applies := old(Ready()) && old(workOrder).value.photos.Some? && writeOk;
      && (applies ==>
            var before := old(workOrder).value.photos.value;
            && workOrder == Some(old(workOrder).value.(photos := Some(DropIndex(before, index))))
            && (0 <= index < |before| ==> DropIndex(before, index) == before[..index] + before[index + 1..])
            && (!(0 <= index < |before|) ==> DropIndex(before, index) == before))
      && (!applies ==> workOrder == old(workOrder))
    {
      if id == "" || workOrder.None? || workOrder.value.photos.None? {
        return;
      }
      var updatedPhotos := DropIndex(workOrder.value.photos.value, index);
      DropIndexSlices(workOrder.value.photos.value, index);
      if writeOk {
        workOrder := Some(workOrder.value.(photos := Some(updatedPhotos)));
      }
    }

    /** `handleSaveNotes`: with an id and a successful write, the loaded work order (if any)
        takes the typed notes. */
    method SaveNotes(writeOk: bool)
      modifies this`workOrder
      ensures id != "" && writeOk && old(workOrder).Some? ==>
        workOrder == Some(old(workOrder).value.(notes := notes))
      ensures !(id != "" && writeOk && old(workOrder).Some?) ==> workOrder == old(workOrder)
    {
      if id == "" {
        return;
      }
      if writeOk && workOrder.Some? {
        workOrder := Some(workOrder.value.(notes := notes));
      }
    }

    /** `handleToggleChecklist` as written: the entry is flipped on the shared object before the
        write, so it stays flipped when the write fails. */
    method ToggleChecklistAsWritten(index: int, writeOk: bool)
      requires Valid()
      requires Ready() && workOrder.value.checklist.Some? ==> 0 <= index < |Entries()|
      modifies this`workOrder, EntrySet()
      ensures Valid() && workOrder == old(workOrder)
      ensures Ready() && workOrder.value.checklist.Some? ==>
        && Entries()[index].completed == !old(Entries()[index].completed)
        && forall j :: 0 <= j < |Entries()| && j != index ==> Entries()[j].completed == old(Entries()[j].completed)
      ensures !(Ready() && workOrder.value.checklist.Some?) ==>
        forall j :: 0 <= j < |Entries()| ==> Entries()[j].completed == old(Entries()[j].completed)
    {
      if id == "" || workOrder.None? || workOrder.value.checklist.None? {
        return;
      }
      var updatedChecklist := workOrder.value.checklist.value;
      updatedChecklist[index].completed := !updatedChecklist[index].completed;
      if writeOk {
        workOrder := Some(workOrder.value.(checklist := Some(updatedChecklist)));
      }
    }

    /** `handleToggleChecklist` as intended: with an id, a checklist and a successful write, only
        the entry at `index` is flipped; otherwise no entry changes. */
    method ToggleChecklist(index: int, writeOk: bool)
      requires Valid()
      requires Ready() && workOrder.value.checklist.Some? ==> 0 <= index < |Entries()|
      modifies this`workOrder, EntrySet()
      ensures Valid() && workOrder == old(workOrder)
      ensures Ready() && workOrder.value.checklist.Some? && writeOk ==>
        && Entries()[index].completed == !old(Entries()[index].completed)
        && forall j :: 0 <= j < |Entries()| && j != index ==> Entries()[j].completed == old(Entries()[j].completed)
      ensures !(Ready() && workOrder.value.checklist.Some? && writeOk) ==>
        forall j :: 0 <= j < |Entries()| ==> Entries()[j].completed == old(Entries()[j].completed)
    {
      if id == "" || workOrder.None? || workOrder.value.checklist.None? {
        return;
      }
      if writeOk {
        var entry := workOrder.value.checklist.value[index];
        entry.completed := !entry.completed;
      }
    }

    /** `handleStatusChange`: completing a work order without a feedback link sets the status and
        the link `origin/feedback/id`; any other change, including completing one that has a
        link, sets only the status. Nothing changes without an id, a work order or a successful
        write. */
    method StatusChange(newStatus: Status, origin: string, writeOk: bool)
      modifies this`workOrder
      ensures var applies := old(Ready()) && writeOk;
      && (applies && newStatus == Completed && NoFeedbackLink(old(workOrder).value) ==>
            workOrder == Some(old(workOrder).value.(status := newStatus, feedbackLink := Some(FeedbackLink(origin, id)))))
      && (applies && !(newStatus == Completed && NoFeedbackLink(old(workOrder).value)) ==>
            workOrder == Some(old(workOrder).value.(status := newStatus)))
      && (!applies ==> workOrder == old(workOrder))
    {
      if id == "" || workOrder.None? {
        return;
      }
      if newStatus == Completed && NoFeedbackLink(workOrder.value) {
        var feedbackLink := origin + "/feedback/" + id;
        if writeOk {
          workOrder := Some(workOrder.value.(status := newStatus, feedbackLink := Some(feedbackLink)));
        }
      } else {
        if writeOk {
          workOrder := Some(workOrder.value.(status := newStatus));
        }
      }
    }
  }

  /** A checklist of one open entry, toggled while the write fails: the component's entry is
      ticked all the same, the corrected handler leaves it open. */
  method FailedToggleExample() returns (asWritten: bool, corrected: bool)
    ensures asWritten && !corrected
  {
    var entry := new Task("Instalar", false);
    var order := WorkOrder("os-1", "q-1", "Cliente", "2024-01-01", "Técnico", InProgress,
                           Some([entry]), "", None, None);
    var page := new WorkOrderPage("os-1", Some(order));
    page.ToggleChecklistAsWritten(0, false);
    asWritten := entry.completed;

    var other := new Task("Instalar", false);
    var order2 := order.(checklist := Some([other]));
    var page2 := new WorkOrderPage("os-1", Some(order2));
    page2.ToggleChecklist(0, false);
    corrected := other.completed;
  }
}
