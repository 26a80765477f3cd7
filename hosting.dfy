/**
 * The hosting-account service: mapping `hosting_accounts` rows to accounts
 * with their defaults, the insert record of a new account, the update records,
 * and suspend, activate and terminate as aliases of the status update and the
 * delete.
 */
module HostingService {
  import opened Common
  import opened Tables

  datatype HostingAccount = HostingAccount(id: string, name: string, domain: Option<string>, plan: Plan,
                                           isActive: bool, storageUsedGb: int, bandwidthUsedGb: int,
                                           serverLocation: string, ownerId: string, createdAt: string,
                                           updatedAt: string)

  const DefaultLocation: string := "us-east"

  /**
   * The row-to-account mapping. A falsy domain is absent, a null plan is `planDefault`, a null
   * `is_active` counts as active, a null usage counter as 0, a falsy location as us-east and a
   * falsy timestamp as the current time.
   */
  function ToAccount(row: HostingRow, planDefault: Plan, now: string): (a: HostingAccount)
    ensures a.domain.Some? <==> Truthy(row.domain)
    ensures a.domain.Some? ==> a.domain == row.domain
    ensures a.plan == (if row.plan.Some? then row.plan.value else planDefault)
    ensures a.isActive <==> row.isActive != Some(false)
    ensures a.storageUsedGb == (if row.storageUsedGb.Some? then row.storageUsedGb.value else 0)
    ensures a.bandwidthUsedGb == (if row.bandwidthUsedGb.Some? then row.bandwidthUsedGb.value else 0)
    ensures a.serverLocation == (if Truthy(row.serverLocation) then row.serverLocation.value else DefaultLocation)
    ensures a.createdAt == (if Truthy(row.createdAt) then row.createdAt.value else now)
    ensures a.updatedAt == (if Truthy(row.updatedAt) then row.updatedAt.value else now)
    ensures a.id == row.id && a.name == row.name && a.ownerId == row.ownerId
  {
    HostingAccount(row.id, row.name, if Truthy(row.domain) then row.domain else None,
                   row.plan.GetOr(planDefault), row.isActive.GetOr(true),
                   row.storageUsedGb.GetOr(0), row.bandwidthUsedGb.GetOr(0),
                   OrElse(row.serverLocation, DefaultLocation), row.ownerId,
                   OrElse(row.createdAt, now), OrElse(row.updatedAt, now))
  }

  /** The read paths (`getHostingAccounts`, `getHostingAccountById`) default a missing plan to free. */
  function ReadAccount(row: HostingRow, now: string): HostingAccount {
    ToAccount(row, Free, now)
  }

  /** `getHostingAccounts` over the rows the query returned; an error reads as no accounts. */
  function AccountsFrom(result: Result<seq<HostingRow>, string>, now: string): (accounts: seq<HostingAccount>)
    ensures result.Err? ==> accounts == []
    ensures result.Ok? ==> |accounts| == |result.value|
    ensures result.Ok? ==> forall k :: 0 <= k < |accounts| ==> accounts[k] == ReadAccount(result.value[k], now)
  {
    if result.Err? then []
    else seq(|result.value|, k requires 0 <= k < |result.value| => ReadAccount(result.value[k], now))
  }

  /** `getHostingAccountById`; a failed query reads as no account. */
  function AccountById(hosting: map<string, HostingRow>, id: string, failed: bool, now: string): (a: Option<HostingAccount>)
    ensures a.Some? <==> !failed && id in hosting
    ensures a.Some? ==> a.value == ReadAccount(hosting[id], now)
  {
    if !failed && id in hosting then Some(ReadAccount(hosting[id], now)) else None
  }

  /** The input of `createHostingAccount`; by default only the name "My Hosting" is given. */
  datatype AccountInput = AccountInput(name: string, domain: Option<string>, plan: Option<Plan>,
                                       serverLocation: Option<string>)

  const DefaultInput: AccountInput := AccountInput("My Hosting", None, None, None)

  /** The inserted row; `nowMs` is `Date.now()` and `now` the database's timestamp. */
  function InsertRow(id: string, userId: string, input: AccountInput, nowMs: int, now: string): (row: HostingRow)
    ensures row.isActive == Some(true) && row.storageUsedGb == Some(0) && row.bandwidthUsedGb == Some(0)
    ensures row.ownerId == userId && row.domain == input.domain
    ensures row.plan == Some(if input.plan.Some? then input.plan.value else Starter)
    ensures row.serverLocation == Some(if Truthy(input.serverLocation) then input.serverLocation.value else DefaultLocation)
    ensures row.name == (if input.name != "" then input.name else "Hosting Account - " + IntToString(nowMs))
  {
    HostingRow(id, if input.name != "" then input.name else "Hosting Account - " + IntToString(nowMs),
               input.domain, Some(input.plan.GetOr(Starter)), Some(true), Some(0), Some(0),
               Some(OrElse(input.serverLocation, DefaultLocation)), userId, Some(now), Some(now))
  }

  /** The fields `updateHostingAccount` may change; `domain` is `None` when not given. */
  datatype AccountUpdates = AccountUpdates(name: Option<string>, domain: Option<string>, plan: Option<Plan>,
                                           serverLocation: Option<string>)

  /** The update record: name, plan and location only when truthy, domain whenever given, always `updated_at`. */
  function UpdateRecord(u: AccountUpdates, now: string): (r: Record)
    ensures "name" in r <==> Truthy(u.name)
    ensures "domain" in r <==> u.domain.Some?
    ensures "plan" in r <==> u.plan.Some?
    ensures "server_location" in r <==> Truthy(u.serverLocation)
    ensures "updated_at" in r && r["updated_at"] == Str(now)
    ensures "name" in r ==> r["name"] == Str(u.name.value)
    ensures "domain" in r ==> r["domain"] == Str(u.domain.value)
    ensures "plan" in r ==> r["plan"] == Str(PlanName(u.plan.value))
    ensures "server_location" in r ==> r["server_location"] == Str(u.serverLocation.value)
    ensures r.Keys <= {"name", "domain", "plan", "server_location", "updated_at"}
  {
    var r: Record := map[];
    var r := if Truthy(u.name) then r["name" := Str(u.name.value)] else r;
    var r := if u.domain.Some? then r["domain" := Str(u.domain.value)] else r;
    var r := if u.plan.Some? then r["plan" := Str(PlanName(u.plan.value))] else r;
    var r := if Truthy(u.serverLocation) then r["server_location" := Str(u.serverLocation.value)] else r;
    r["updated_at" := Str(now)]
  }

  /** The record of `updateHostingAccountStatus`. */
  function StatusRecord(isActive: bool, now: string): Record {
    map["is_active" := Bool(isActive), "updated_at" := Str(now)]
  }

  /** An `update(record)` on one `hosting_accounts` row: only the columns in the record change. */
  function ApplyHostingUpdate(row: HostingRow, rec: Record): (r: HostingRow)
    ensures r.id == row.id && r.ownerId == row.ownerId && r.createdAt == row.createdAt
    ensures r.storageUsedGb == row.storageUsedGb && r.bandwidthUsedGb == row.bandwidthUsedGb
  {
    row.(name := if "name" in rec && rec["name"].Str? then rec["name"].s else row.name,
         domain := TextColumn(row.domain, rec, "domain"),
         plan := if "plan" in rec && rec["plan"].Str? && ParsePlan(rec["plan"].s).Some?
                 then ParsePlan(rec["plan"].s) else row.plan,
         isActive := if "is_active" in rec && rec["is_active"].Bool? then Some(rec["is_active"].b) else row.isActive,
         serverLocation := TextColumn(row.serverLocation, rec, "server_location"),
         updatedAt := TextColumn(row.updatedAt, rec, "updated_at"))
  }

  /** `{ success, error }`. */
  datatype Outcome = Outcome(success: bool, error: Option<string>)

  function OutcomeOf(error: Option<string>): (o: Outcome)
    ensures o.success <==> error.None?
    ensures o.error == error
  {
    if error.Some? then Outcome(false, error) else Outcome(true, None)
  }

  /** The table after an update of row `id`: nothing when the call failed or no row has that id. */
  function Updated(hosting: map<string, HostingRow>, id: string, rec: Record, error: Option<string>): map<string, HostingRow> {
    if error.None? && id in hosting then hosting[id := ApplyHostingUpdate(hosting[id], rec)] else hosting
  }

  /** `createHostingAccount`; a failed insert throws its message and writes nothing. */
  method CreateHostingAccount(db: Backend, userId: string, input: AccountInput, newId: string, nowMs: int,
                              now: string, error: Option<string>) returns (r: Result<HostingAccount, string>)
    modifies db
    ensures error.Some? ==> r == Err(error.value) && db.hosting == old(db.hosting)
    ensures error.None? && newId in old(db.hosting) ==> r == Err(DuplicateKey("hosting_accounts")) && db.hosting == old(db.hosting)
    ensures error.None? && newId !in old(db.hosting) ==>
      && db.hosting == old(db.hosting)[newId := InsertRow(newId, userId, input, nowMs, now)]
      && r == Ok(ToAccount(InsertRow(newId, userId, input, nowMs, now), Starter, now))
    ensures db.orders == old(db.orders) && db.profiles == old(db.profiles)
    ensures db.activityLog == old(db.activityLog) && db.notifications == old(db.notifications)
  {
    var row := InsertRow(newId, userId, input, nowMs, now);
    if error.Some? {
      return Err(error.value);
    }
    if newId in db.hosting {
      return Err(DuplicateKey("hosting_accounts"));
    }
    db.hosting := db.hosting[newId := row];
    r := Ok(ToAccount(row, Starter, now));
  }

  /** `updateHostingAccount`. */
  method UpdateHostingAccount(db: Backend, id: string, u: AccountUpdates, now: string, error: Option<string>)
    returns (o: Outcome)
    modifies db
    ensures o == OutcomeOf(error)
    ensures db.hosting == Updated(old(db.hosting), id, UpdateRecord(u, now), error)
    ensures db.orders == old(db.orders) && db.profiles == old(db.profiles)
    ensures db.activityLog == old(db.activityLog) && db.notifications == old(db.notifications)
  {
    var rec := UpdateRecord(u, now);
    if error.Some? {
      return Outcome(false, error);
    }
    if id in db.hosting {
      db.hosting := db.hosting[id := ApplyHostingUpdate(db.hosting[id], rec)];
    }
    o := Outcome(true, None);
  }

  /** `updateHostingAccountStatus`. */
  method UpdateHostingAccountStatus(db: Backend, id: string, isActive: bool, now: string, error: Option<string>)
    returns (o: Outcome)
    modifies db
    ensures o == OutcomeOf(error)
    ensures db.hosting == Updated(old(db.hosting), id, StatusRecord(isActive, now), error)
    ensures db.orders == old(db.orders) && db.profiles == old(db.profiles)
    ensures db.activityLog == old(db.activityLog) && db.notifications == old(db.notifications)
  {
    if error.Some? {
      return Outcome(false, error);
    }
    if id in db.hosting {
      db.hosting := db.hosting[id := ApplyHostingUpdate(db.hosting[id], StatusRecord(isActive, now))];
    }
    o := Outcome(true, None);
  }

  /** `deleteHostingAccount`. */
  method DeleteHostingAccount(db: Backend, id: string, error: Option<string>) returns (o: Outcome)
    modifies db
    ensures o == OutcomeOf(error)
    ensures db.hosting == if error.None? then old(db.hosting) - {id} else old(db.hosting)
    ensures db.orders == old(db.orders) && db.profiles == old(db.profiles)
    ensures db.activityLog == old(db.activityLog) && db.notifications == old(db.notifications)
  {
    if error.Some? {
      return Outcome(false, error);
    }
    db.hosting := db.hosting - {id};
    o := Outcome(true, None);
  }

  /** `suspendHostingAccount`: the status update to inactive. */
  method SuspendHostingAccount(db: Backend, id: string, now: string, error: Option<string>) returns (o: Outcome)
    modifies db
    ensures o == OutcomeOf(error)
    ensures db.hosting == Updated(old(db.hosting), id, StatusRecord(false, now), error)
    ensures db.orders == old(db.orders) && db.profiles == old(db.profiles)
    ensures db.activityLog == old(db.activityLog) && db.notifications == old(db.notifications)
  {
    o := UpdateHostingAccountStatus(db, id, false, now, error);
  }

  /** `activateHostingAccount`: the status update to active. */
  method ActivateHostingAccount(db: Backend, id: string, now: string, error: Option<string>) returns (o: Outcome)
    modifies db
    ensures o == OutcomeOf(error)
    ensures db.hosting == Updated(old(db.hosting), id, StatusRecord(true, now), error)
    ensures db.orders == old(db.orders) && db.profiles == old(db.profiles)
    ensures db.activityLog == old(db.activityLog) && db.notifications == old(db.notifications)
  {
    o := UpdateHostingAccountStatus(db, id, true, now, error);
  }

  /** `terminateHostingAccount`: the delete. */
  method TerminateHostingAccount(db: Backend, id: string, error: Option<string>) returns (o: Outcome)
    modifies db
    ensures o == OutcomeOf(error)
    ensures db.hosting == if error.None? then old(db.hosting) - {id} else old(db.hosting)
    ensures db.orders == old(db.orders) && db.profiles == old(db.profiles)
    ensures db.activityLog == old(db.activityLog) && db.notifications == old(db.notifications)
  {
    o := DeleteHostingAccount(db, id, error);
  }

  // ---------------------------------------------------------------------------
  // Properties

  /**
   * A freshly inserted account reads back active, with no usage, the requested or starter plan,
   * the requested or default location, owned by the creating user; the create path and the read
   * path agree on it.
   */
  lemma CreatedAccountReadsBack(id: string, userId: string, input: AccountInput, nowMs: int, now: string)
    ensures var row := InsertRow(id, userId, input, nowMs, now);
      var a := ReadAccount(row, now);
      && a == ToAccount(row, Starter, now)
      && a.isActive && a.storageUsedGb == 0 && a.bandwidthUsedGb == 0
      && a.plan == (if input.plan.Some? then input.plan.value else Starter)
      && a.ownerId == userId && a.name != ""
      && a.serverLocation == (if Truthy(input.serverLocation) then input.serverLocation.value else DefaultLocation)
  {
  }

  /** `createHostingAccount(userId)` with the default argument: a starter account "My Hosting" in us-east, no domain. */
  lemma DefaultAccountReadsBack(id: string, userId: string, nowMs: int, now: string)
    ensures var a := ReadAccount(InsertRow(id, userId, DefaultInput, nowMs, now), now);
      && a.name == "My Hosting" && a.plan == Starter && a.domain == None
      && a.serverLocation == DefaultLocation && a.isActive && a.ownerId == userId
  {
    CreatedAccountReadsBack(id, userId, DefaultInput, nowMs, now);
  }

  /** The two mappings disagree only on a row without a plan: free on reads, starter after create. */
  lemma PlanDefaultsDiffer(row: HostingRow, now: string)
    ensures row.plan.None? ==> ReadAccount(row, now).plan == Free && ToAccount(row, Starter, now).plan == Starter
    ensures row.plan.Some? ==> ReadAccount(row, now) == ToAccount(row, Starter, now)
  {
  }

  /**
   * Applying the update record changes name, plan and location exactly when a truthy value was
   * given, the domain whenever one was given, stamps `updated_at`, and keeps the activity flag.
   */
  lemma UpdateChangesOnlyGivenFields(row: HostingRow, u: AccountUpdates, now: string)
    ensures var r := ApplyHostingUpdate(row, UpdateRecord(u, now));
      && r.name == (if Truthy(u.name) then u.name.value else row.name)
      && r.domain == (if u.domain.Some? then u.domain else row.domain)
      && r.plan == (if u.plan.Some? then u.plan else row.plan)
      && r.serverLocation == (if Truthy(u.serverLocation) then u.serverLocation else row.serverLocation)
      && r.updatedAt == Some(now)
      && r.isActive == row.isActive
  {
    if u.plan.Some? {
      ParsePlanName(u.plan.value);
    }
  }

  /** Suspending makes an existing account read as inactive, activating as active; nothing else but the timestamp moves. */
  lemma StatusUpdateReadsBack(hosting: map<string, HostingRow>, id: string, isActive: bool, now: string)
    requires id in hosting
    ensures var h := Updated(hosting, id, StatusRecord(isActive, now), None);
      && h.Keys == hosting.Keys
      && ReadAccount(h[id], now).isActive == isActive
      && h[id] == hosting[id].(isActive := Some(isActive), updatedAt := Some(now))
  {
  }

  /** A failed update or delete leaves the table alone and reports its error. */
  lemma FailureWritesNothing(hosting: map<string, HostingRow>, id: string, rec: Record, error: string)
    ensures Updated(hosting, id, rec, Some(error)) == hosting
    ensures OutcomeOf(Some(error)) == Outcome(false, Some(error))
  {
  }
}
