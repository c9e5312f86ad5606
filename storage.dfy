/** The process-lifetime stores of tasks, routes and uploads: each class
    owns one dictionary that its methods assign into. Stored values are
    kept as values, so later in-place changes by a caller to a dictionary it
    handed over are not reflected here. */
module Storage {
  import opened Wrappers
  import opened Json
  import opened PyDict
  import Schemas

  type TaskData = Object
  type UploadRecord = Object

  /** `task.update(updates)`: the keys of `updates` overwrite, the others stay. */
  function Merge(task: TaskData, updates: TaskData): (r: TaskData)
    ensures r.Keys == task.Keys + updates.Keys
    ensures forall k :: k in updates ==> r[k] == updates[k]
    ensures forall k :: k in task && k !in updates ==> r[k] == task[k]
  {
    task + updates
  }

  /** The state `update_task(id, updates)` leaves behind. */
  function Updated(tasks: Dict<TaskData>, id: string, updates: TaskData): (r: Dict<TaskData>)
    requires tasks.Valid()
    ensures r.Valid() && r.keys == tasks.keys
    ensures id !in tasks.entries ==> r == tasks
    ensures id in tasks.entries ==> r.Get(id) == Some(Merge(tasks.entries[id], updates))
    ensures forall k :: k != id ==> r.Get(k) == tasks.Get(k)
  {
    if id in tasks.entries then tasks.Put(id, Merge(tasks.entries[id], updates)) else tasks
  }

  /** Applying the same update twice leaves the same state as applying it once. */
  lemma UpdateIdempotent(tasks: Dict<TaskData>, id: string, updates: TaskData)
    requires tasks.Valid()
    ensures Updated(Updated(tasks, id, updates), id, updates) == Updated(tasks, id, updates)
  {
    if id in tasks.entries {
      var once := Updated(tasks, id, updates);
      assert Merge(once.entries[id], updates) == once.entries[id];
      assert once.entries[id := once.entries[id]] == once.entries;
    }
  }

  /** The state `approve_route(id)` leaves behind. */
  function Approved(routes: Dict<Schemas.OptimizedRoute>, id: string): (r: Dict<Schemas.OptimizedRoute>)
    requires routes.Valid()
    ensures r.Valid() && r.keys == routes.keys
    ensures id !in routes.entries ==> r == routes
    ensures id in routes.entries ==> r.Get(id) == Some(routes.entries[id].(status := "approved"))
    ensures forall k :: k != id ==> r.Get(k) == routes.Get(k)
  {
    if id in routes.entries then routes.Put(id, routes.entries[id].(status := "approved")) else routes
  }

  /** Approving a route twice is the same as approving it once. */
  lemma ApproveIdempotent(routes: Dict<Schemas.OptimizedRoute>, id: string)
    requires routes.Valid()
    ensures Approved(Approved(routes, id), id) == Approved(routes, id)
  {
    if id in routes.entries {
      var once := Approved(routes, id);
      assert once.entries[id := once.entries[id]] == once.entries;
    }
  }

  class TaskStorage {
    var tasks: Dict<TaskData>

    ghost predicate Valid()
      reads this
    {
      tasks.Valid()
    }

    constructor ()
      ensures Valid() && tasks.keys == []
      ensures forall id :: GetTask(id) == None
    {
      tasks := Empty();
    }

    /** `create_task`: stores `taskData` under `taskId`, replacing any task
        already there. */
    method CreateTask(taskId: string, taskData: TaskData)
      requires Valid()
      modifies this
      ensures Valid()
      ensures GetTask(taskId) == Some(taskData)
      ensures forall id :: id != taskId ==> GetTask(id) == old(GetTask(id))
      ensures tasks.keys == if taskId in old(tasks.entries) then old(tasks.keys) else old(tasks.keys) + [taskId]
    {
      tasks := tasks.Put(taskId, taskData);
    }

    /** `get_task`: None for an unknown id. */
    function GetTask(taskId: string): (r: Option<TaskData>)
      reads this
      ensures r.Some? <==> taskId in tasks.entries
      ensures r.Some? ==> r.value == tasks.entries[taskId]
    {
      tasks.Get(taskId)
    }

    /** `update_task`: merges into a present task; an unknown id changes nothing. */
    method UpdateTask(taskId: string, updates: TaskData)
      requires Valid()
      modifies this
      ensures Valid()
      ensures tasks == Updated(old(tasks), taskId, updates)
      ensures taskId !in old(tasks.entries) ==> tasks == old(tasks)
    {
      if taskId in tasks.entries {
        tasks := tasks.Put(taskId, Merge(tasks.entries[taskId], updates));
      }
    }

    /** `get_all_tasks`: one task per stored id, in insertion order. */
    function GetAllTasks(): (r: seq<TaskData>)
      requires Valid()
      reads this
      ensures |r| == |tasks.keys| == |tasks.entries|
      ensures forall i :: 0 <= i < |r| ==> GetTask(tasks.keys[i]) == Some(r[i])
    {
      tasks.Values()
    }
  }

  class RouteStorage {
    var routes: Dict<Schemas.OptimizedRoute>

    ghost predicate Valid()
      reads this
    {
      routes.Valid()
    }

    constructor ()
      ensures Valid() && routes.keys == []
      ensures forall id :: GetRoute(id) == None
    {
      routes := Empty();
    }

    /** `store_route`: stores `route` under `routeId`, replacing any route there. */
    method StoreRoute(routeId: string, route: Schemas.OptimizedRoute)
      requires Valid()
      modifies this
      ensures Valid()
      ensures GetRoute(routeId) == Some(route)
      ensures forall id :: id != routeId ==> GetRoute(id) == old(GetRoute(id))
      ensures routes.keys == if routeId in old(routes.entries) then old(routes.keys) else old(routes.keys) + [routeId]
    {
      routes := routes.Put(routeId, route);
    }

    /** `get_route`: None for an unknown id. */
    function GetRoute(routeId: string): (r: Option<Schemas.OptimizedRoute>)
      reads this
      ensures r.Some? <==> routeId in routes.entries
      ensures r.Some? ==> r.value == routes.entries[routeId]
    {
      routes.Get(routeId)
    }

    /** `get_all_routes`: one route per stored id, in insertion order. */
    function GetAllRoutes(): (r: seq<Schemas.OptimizedRoute>)
      requires Valid()
      reads this
      ensures |r| == |routes.keys| == |routes.entries|
      ensures forall i :: 0 <= i < |r| ==> GetRoute(routes.keys[i]) == Some(r[i])
    {
      routes.Values()
    }

    /** `approve_route`: sets the status of a present route to "approved";
        every other route and field is left alone, and an unknown id
        changes nothing. */
    method ApproveRoute(routeId: string)
      requires Valid()
      modifies this
      ensures Valid()
      ensures routes == Approved(old(routes), routeId)
      ensures routeId in old(routes.entries) ==>
                GetRoute(routeId) == Some(old(routes.entries[routeId]).(status := "approved"))
      ensures forall id :: id != routeId ==> GetRoute(id) == old(GetRoute(id))
    {
      if routeId in routes.entries {
        var route := routes.entries[routeId];
        routes := routes.Put(routeId, route.(status := "approved"));
      }
    }
  }

  class UploadStorage {
    var uploads: Dict<UploadRecord>

    ghost predicate Valid()
      reads this
    {
      uploads.Valid()
    }

    constructor ()
      ensures Valid() && uploads.keys == []
      ensures forall id :: GetUpload(id) == None
    {
      uploads := Empty();
    }

    /** `store_upload`: stores the record under `uploadId`, replacing any there. */
    method StoreUpload(uploadId: string, uploadData: UploadRecord)
      requires Valid()
      modifies this
      ensures Valid()
      ensures GetUpload(uploadId) == Some(uploadData)
      ensures forall id :: id != uploadId ==> GetUpload(id) == old(GetUpload(id))
      ensures uploads.keys == if uploadId in old(uploads.entries) then old(uploads.keys) else old(uploads.keys) + [uploadId]
    {
      uploads := uploads.Put(uploadId, uploadData);
    }

    /** `get_upload`: None for an unknown id. */
    function GetUpload(uploadId: string): (r: Option<UploadRecord>)
      reads this
      ensures r.Some? <==> uploadId in uploads.entries
      ensures r.Some? ==> r.value == uploads.entries[uploadId]
    {
      uploads.Get(uploadId)
    }

    /** `get_all_uploads`: one record per stored id, in insertion order. */
    function GetAllUploads(): (r: seq<UploadRecord>)
      requires Valid()
      reads this
      ensures |r| == |uploads.keys| == |uploads.entries|
      ensures forall i :: 0 <= i < |r| ==> GetUpload(uploads.keys[i]) == Some(r[i])
    {
      uploads.Values()
    }
  }
}
