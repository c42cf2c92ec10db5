/** The calls of a reconcile to the API server. */
module Api {
  import opened Prelude
  import opened Rbac
  import opened Drift
  import opened MonitorStatus

  datatype Call = Get(key: Key) | List(kind: Kind) | Update(status: Status)

  datatype Response = Got(result: ReadResult) | Listed(items: Option<seq<Item>>) | Updated(ok: bool)

  datatype Access = Access(call: Call, response: Response)

  predicate WellTypedItems(kind: Kind, items: seq<Item>) {
    forall i :: 0 <= i < |items| ==> items[i].key.kind == kind && WellTyped(items[i].key, items[i].obj.content)
  }

  /** The API client.  The cluster may change between two calls and any call may fail,
      so responses are arbitrary; the log records what they were. */
  class Client {
    ghost var log: seq<Access>

    constructor ()
      ensures log == []
    {
      log := [];
    }

    method Get(key: Key) returns (r: ReadResult)
      modifies this
      ensures log == old(log) + [Access(Call.Get(key), Got(r))]
      ensures r.Found? ==> WellTyped(key, r.obj.content)
    {
      r := *;
      if r.Found? && !WellTyped(key, r.obj.content) {
        r := Failed;
      }
      log := log + [Access(Call.Get(key), Got(r))];
    }

    method List(kind: Kind) returns (r: Option<seq<Item>>)
      modifies this
      ensures log == old(log) + [Access(Call.List(kind), Listed(r))]
      ensures r.Some? ==> WellTypedItems(kind, r.value)
    {
      r := *;
      if r.Some? && !WellTypedItems(kind, r.value) {
        r := None;
      }
      log := log + [Access(Call.List(kind), Listed(r))];
    }

    /** `Status().Update`. */
    method Update(status: Status) returns (ok: bool)
      modifies this
      ensures log == old(log) + [Access(Call.Update(status), Updated(ok))]
    {
      ok := *;
      log := log + [Access(Call.Update(status), Updated(ok))];
    }
  }
}
