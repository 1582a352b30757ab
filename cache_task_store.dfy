/** The `CacheTaskStore` actor (CacheTaskStore.swift): a dictionary from photo id to the handle of
    the background task caching that photo's image. A handle is an object with a cancellation
    flag; cancelling is the only thing the registry does to it. */
module TaskRegistry {
  import opened Models

  /** A `Task<(), Never>` handle. `photo` is the record its closure captured; the closure's
      effect is modelled by the view model. */
  class CacheTask {
    const photo: Photo
    var isCancelled: bool

    constructor (photo: Photo)
      ensures this.photo == photo && !isCancelled
    {
      this.photo := photo;
      isCancelled := false;
    }

    /** `cancel()`: sets the flag; cancelling twice is harmless. */
    method Cancel()
      modifies this
      ensures isCancelled
    {
      isCancelled := true;
    }
  }

  class CacheTaskStore {
    var tasks: map<string, CacheTask>

    constructor ()
      ensures tasks == map[]
    {
      tasks := map[];
    }

    /** `add(task:for:)`: register `task` under `id`. A task already registered under `id` is
        dropped from the registry WITHOUT being cancelled. */
    method Add(task: CacheTask, id: string)
      modifies this
      ensures tasks == old(tasks)[id := task]
      ensures forall t :: t in old(tasks).Values ==> t.isCancelled == old(t.isCancelled)
    {
      tasks := tasks[id := task];
    }

    /** `remove(for:)`: cancel the task registered under `id`, if any, and unregister it. Other
        entries and other handles are untouched; an absent id changes nothing, so a second
        removal is a no-op. */
    method Remove(id: string)
      modifies this, if id in tasks then {tasks[id]} else {}
      ensures tasks == old(tasks) - {id}
      ensures id in old(tasks) ==> old(tasks)[id].isCancelled
      ensures id !in old(tasks) ==> tasks == old(tasks)
    {
      if id in tasks {
        tasks[id].Cancel();
      }
      tasks := tasks - {id};
    }

    /** `task(for:)`: the registered handle, or nil; nothing changes. */
    method TaskFor(id: string) returns (t: CacheTask?)
      ensures t != null <==> id in tasks
      ensures t != null ==> t == tasks[id]
    {
      if id in tasks {
        t := tasks[id];
      } else {
        t := null;
      }
    }

    /** `removeAll()`: cancel every registered task and empty the registry. */
    method RemoveAll()
      modifies this, tasks.Values
      ensures tasks == map[]
      ensures forall t :: t in old(tasks).Values ==> t.isCancelled
    {
      var pending := tasks.Values;
      while pending != {}
        invariant pending <= old(tasks).Values && tasks == old(tasks)
        invariant forall t :: t in old(tasks).Values - pending ==> t.isCancelled
        decreases |pending|
      {
        var t :| t in pending;
        t.Cancel();
        pending := pending - {t};
      }
      tasks := map[];
    }
  }
}
