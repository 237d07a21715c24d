/** The shared IndexedDB database `emergency-app-db`, version 1. The service
    worker and the page each open it with their own `onupgradeneeded` handler;
    an upgrade runs only when the database does not exist yet. */
module Database {
  import opened Wrappers

  const DbName: string := "emergency-app-db"
  const DbVersion: nat := 1
  const OutboxStore: string := "smsOutbox"
  const EmergencyStore: string := "emergencyData"

  /** Whose `openDatabase` runs: the service worker's or the page's. */
  datatype Opener = WorkerOpener | PageOpener

  /** `createObjectStore`: fails (a `ConstraintError`) when the store exists. */
  function CreateStore(stores: set<string>, name: string): (r: Option<set<string>>)
    ensures r.Some? <==> name !in stores
    ensures r.Some? ==> r.value == stores + {name}
  {
    if name in stores then None else Some(stores + {name})
  }

  /** The upgrade handler; `None` when it throws, which aborts the upgrade. The
      worker's handler guards each creation, so it never fails and yields the
      existing stores plus the two it needs; the page's creates `emergencyData`
      unconditionally, so it fails exactly when that store exists, and it never
      creates the outbox. */
  function Upgrade(who: Opener, stores: set<string>): (r: Option<set<string>>)
    ensures who.WorkerOpener? ==> r == Some(stores + {OutboxStore, EmergencyStore})
    ensures who.PageOpener? ==> (r.None? <==> EmergencyStore in stores)
    ensures who.PageOpener? && r.Some? ==> r.value == stores + {EmergencyStore}
  {
    match who
    case WorkerOpener =>
      var withOutbox := if OutboxStore in stores then stores else CreateStore(stores, OutboxStore).value;
      var r := if EmergencyStore in withOutbox then Some(withOutbox) else CreateStore(withOutbox, EmergencyStore);
      assert r.value == stores + {OutboxStore, EmergencyStore} by {
        assert withOutbox == stores + {OutboxStore};
      }
      r
    case PageOpener => CreateStore(stores, EmergencyStore)
  }

  /** The stores of the database after `indexedDB.open(DbName, DbVersion)`
      succeeds; `None` when it fails. `existing` is `None` while the database
      does not exist. */
  function Open(who: Opener, existing: Option<set<string>>): (r: Option<set<string>>)
    ensures existing.Some? ==> r == existing
    ensures existing.None? && who.WorkerOpener? ==> r == Some({OutboxStore, EmergencyStore})
    ensures existing.None? && who.PageOpener? ==> r == Some({EmergencyStore})
  {
    if existing.Some? then existing
    else
      assert {} + {OutboxStore, EmergencyStore} == {OutboxStore, EmergencyStore};
      assert {} + {EmergencyStore} == {EmergencyStore};
      Upgrade(who, {})
  }

  /** The database afterwards: unchanged when the open failed. */
  function AfterOpen(who: Opener, existing: Option<set<string>>): Option<set<string>> {
    if Open(who, existing).Some? then Open(who, existing) else existing
  }

  /** Which side creates the database decides whether the outbox ever exists:
      after the page opens first, no later open adds `smsOutbox`. */
  lemma OpenOrderDecidesOutbox()
    ensures OutboxStore !in AfterOpen(WorkerOpener, AfterOpen(PageOpener, None)).value
    ensures OutboxStore in AfterOpen(PageOpener, AfterOpen(WorkerOpener, None)).value
  {
  }
}
