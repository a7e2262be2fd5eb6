// What the administrator sees is derived three times over: as flags on single
// devices, as counts on the dashboard and as filters of the list.
module Views {
  import opened Schema
  import opened Handlers
  import opened Runs

  const ONLINE_SECONDS := 120

  // ---------- Flags of one device ----------

  predicate OnlineFlag(d: Device, now: int) { now - d.lastSeen <= ONLINE_SECONDS }

  // ---------- Dashboard ----------

  datatype Dashboard = Dashboard(total: nat, online: nat, offline: int, pending: nat, passwordPending: nat)

  function Waiting(db: Db): set<int> {
    set id | id in db.devices
      && db.devices[id].status == Approved && db.devices[id].appliedPassword < CredVersion(db, id)
  }

  function DashboardOf(db: Db, now: int): Dashboard {
    var online := |set id | id in db.devices && db.devices[id].lastSeen >= now - ONLINE_SECONDS|;
    Dashboard(
      |db.devices|,
      online,
      |db.devices| - online,
      |set id | id in db.devices && db.devices[id].status == Pending|,
      |Waiting(db)|)
  }

  // ---------- List ----------

  datatype OnlineFilter = Any | OnlyOnline | OnlyOffline

  function Listed(db: Db, filter: OnlineFilter, now: int): set<int> {
    set id | id in db.devices &&
      match filter
      case Any => true
      case OnlyOnline => db.devices[id].lastSeen >= now - ONLINE_SECONDS
      case OnlyOffline => db.devices[id].lastSeen < now - ONLINE_SECONDS
  }

  // ---------- Agreement ----------

  lemma SplitSize(whole: set<int>, left: set<int>, right: set<int>)
    requires whole == left + right && left !! right
    ensures |whole| == |left| + |right|
  {
  }

  lemma DevicesSize(db: Db)
    ensures |db.devices| == |db.devices.Keys|
  {
  }

  // Approved devices are either flagged as synchronized or counted as pending,
  // when their reports are not ahead of their credentials.
  lemma PasswordViews(db: Db, now: int)
    requires forall id :: id in db.devices && db.devices[id].status == Approved ==>
               CredVersion(db, id) >= 1 && db.devices[id].appliedPassword <= CredVersion(db, id)
    ensures DashboardOf(db, now).passwordPending + |Synced(db)| == |WithStatus(db, Approved)|
  {
    assert WithStatus(db, Approved) == Waiting(db) + Synced(db);
    SplitSize(WithStatus(db, Approved), Waiting(db), Synced(db));
  }

  function Synced(db: Db): set<int> { set id | id in db.devices && PasswordSynced(db, id) }

  function WithStatus(db: Db, status: Status): set<int> { set id | id in db.devices && db.devices[id].status == status }

  function Flagged(db: Db, now: int): set<int> { set id | id in db.devices && OnlineFlag(db.devices[id], now) }

  // The online count is the number of online flags, and the two filters of the
  // list split the devices accordingly.
  lemma OnlineViews(db: Db, now: int)
    ensures DashboardOf(db, now).online == |Flagged(db, now)|
    ensures Listed(db, OnlyOnline, now) == Flagged(db, now)
    ensures Listed(db, OnlyOnline, now) !! Listed(db, OnlyOffline, now)
    ensures Listed(db, OnlyOnline, now) + Listed(db, OnlyOffline, now) == Listed(db, Any, now) == db.devices.Keys
    ensures DashboardOf(db, now).offline == |Listed(db, OnlyOffline, now)|
  {
    var recent := set id | id in db.devices && db.devices[id].lastSeen >= now - ONLINE_SECONDS;
    forall id
      ensures id in recent <==> id in Flagged(db, now)
      ensures id in recent <==> id in Listed(db, OnlyOnline, now)
    {
      assert id in db.devices ==>
          (OnlineFlag(db.devices[id], now) <==> db.devices[id].lastSeen >= now - ONLINE_SECONDS);
    }
    assert recent == Flagged(db, now) == Listed(db, OnlyOnline, now);
    assert Listed(db, Any, now) == db.devices.Keys;
    SplitSize(db.devices.Keys, Flagged(db, now), Listed(db, OnlyOffline, now));
    DevicesSize(db);
  }

  // In every reachable state and at one reading of the clock, flags, counts and
  // lists tell the same story.
  lemma ViewsAgree(master: string, ops: seq<Op>, db: Db, now: int)
    requires db == Run(master, FIRST, ops).db
    ensures DashboardOf(db, now).passwordPending + |Synced(db)| == |WithStatus(db, Approved)|
    ensures DashboardOf(db, now).pending == |WithStatus(db, Pending)|
    ensures DashboardOf(db, now).online == |Flagged(db, now)| == |Listed(db, OnlyOnline, now)|
    ensures DashboardOf(db, now).offline == |Listed(db, OnlyOffline, now)|
    ensures DashboardOf(db, now).total == |Listed(db, Any, now)|
  {
    Reachable(master, ops);
    assert forall id :: id in db.devices ==> DeviceTables(master, db, id);
    PasswordViews(db, now);
    OnlineViews(db, now);
    DevicesSize(db);
  }
}
