/**
 * The grievance endpoints. Unlike the case endpoints, they compare the user's role itself
 * with the upper-case names "VICTIM", "OFFICER" and "ADMIN"; a role loaded as a member of
 * the `UserRole` enumeration equals none of them.
 */
module GrievanceRoutes {
  import opened Wrappers
  import opened Records

  /** The officer test of the grievance endpoints: the case's creator or its assigned officer, by user id. */
  predicate OfficerInvolved(c: Case, user: User) {
    c.createdByUserId == Some(user.id) || c.assignedOfficerUserId == Some(user.id)
  }

  /**
   * Who may file or view a grievance about case `c`: a "VICTIM" only about a case of their
   * own, an "OFFICER" only about a case they are involved with, every other role any case.
   */
  predicate MayReachCase(user: User, c: Case) {
    if RoleIs(user.role, "VICTIM") then VictimOwns(c, user)
    else if RoleIs(user.role, "OFFICER") then OfficerInvolved(c, user)
    else true
  }

  /** The roles `update_grievance` admits past its first check. */
  predicate MayUpdateGrievances(role: Role) {
    RoleIs(role, "ADMIN") || RoleIs(role, "OFFICER")
  }

  /** The role `delete_grievance` admits. */
  predicate MayDeleteGrievances(role: Role) {
    RoleIs(role, "ADMIN")
  }

  /**
   * As written, a user whose role is an enumeration member passes no role comparison: the
   * grievance endpoints treat such a user as unrestricted for filing and viewing, and refuse
   * every update and deletion.
   */
  lemma EnumeratedRolesAsWritten(user: User, c: Case)
    requires user.role.EnumRole?
    ensures MayReachCase(user, c)
    ensures !MayUpdateGrievances(user.role) && !MayDeleteGrievances(user.role)
  {
  }

  /** The fields of a new grievance that the request supplies. */
  datatype GrievanceDraft = GrievanceDraft(caseId: int, title: string, category: string)

  /** The row `create_grievance` stores, with the priority the classifier chose and status OPEN. */
  function NewGrievance(draft: GrievanceDraft, user: User, priority: string): (g: Grievance)
    ensures g.caseId == draft.caseId && g.createdByUserId == Some(user.id) && g.priority == priority
    ensures g.status == "OPEN" && g.resolvedAt.None? && g.resolutionNotes.None? && g.resolvedBy.None?
  {
    Grievance(draft.caseId, Some(user.id), draft.title, draft.category, priority, "OPEN", None, None, None)
  }

  /**
   * `create_grievance`, given the priority the classifier assigns: 404 for a missing case
   * before any role test, then the access test, then the new row.
   */
  method CreateGrievance(db: Database, user: User, draft: GrievanceDraft, priority: string) returns (r: Response<int>)
    modifies db
    ensures draft.caseId !in old(db.cases) ==> r == Fail(NotFound)
    ensures draft.caseId in old(db.cases) && !MayReachCase(user, old(db.cases)[draft.caseId]) ==> r == Fail(Forbidden)
    ensures draft.caseId in old(db.cases) && MayReachCase(user, old(db.cases)[draft.caseId]) ==>
              && r == Ok(old(db.nextGrievanceId))
              && db.grievances == old(db.grievances)[r.value := NewGrievance(draft, user, priority)]
              && db.nextGrievanceId == old(db.nextGrievanceId) + 1
    ensures r.Fail? ==> db.grievances == old(db.grievances) && db.nextGrievanceId == old(db.nextGrievanceId)
    ensures db.cases == old(db.cases) && db.nextCaseId == old(db.nextCaseId)
    ensures old(db.Valid()) ==> db.Valid()
  {
    if draft.caseId !in db.cases {
      return Fail(NotFound);
    }
    if !MayReachCase(user, db.cases[draft.caseId]) {
      return Fail(Forbidden);
    }
    var id := db.nextGrievanceId;
    db.grievances := db.grievances[id := NewGrievance(draft, user, priority)];
    db.nextGrievanceId := id + 1;
    r := Ok(id);
  }

  /**
   * `get_grievance`: 404 for a missing grievance; for a "VICTIM" or an "OFFICER" whose
   * grievance points at no case, reading the missing case's fields fails (500); otherwise the
   * access test.
   */
  function GetGrievance(db: Database, user: User, grievanceId: int): (r: Response<Grievance>)
    reads db
    ensures r == Fail(NotFound) <==> grievanceId !in db.grievances
    ensures r.Ok? <==> grievanceId in db.grievances &&
                       var caseId := db.grievances[grievanceId].caseId;
                       if caseId in db.cases then MayReachCase(user, db.cases[caseId])
                       else !RoleIs(user.role, "VICTIM") && !RoleIs(user.role, "OFFICER")
    ensures r.Ok? ==> r.value == db.grievances[grievanceId]
    ensures grievanceId in db.grievances && db.grievances[grievanceId].caseId in db.cases
            && !MayReachCase(user, db.cases[db.grievances[grievanceId].caseId])
            ==> r == Fail(Forbidden)
    ensures grievanceId in db.grievances && db.grievances[grievanceId].caseId !in db.cases
            && (RoleIs(user.role, "VICTIM") || RoleIs(user.role, "OFFICER"))
            ==> r == Fail(ServerError)
    ensures r.Fail? ==> r.code == NotFound || r.code == Forbidden || r.code == ServerError
  {
    if grievanceId !in db.grievances then Fail(NotFound)
    else
      var g := db.grievances[grievanceId];
      if g.caseId !in db.cases then
        if RoleIs(user.role, "VICTIM") || RoleIs(user.role, "OFFICER") then Fail(ServerError) else Ok(g)
      else if !MayReachCase(user, db.cases[g.caseId]) then Fail(Forbidden)
      else Ok(g)
  }

  /** In a consistent store every grievance has its case, so viewing never fails with 500. */
  lemma GetGrievanceNeverFailsWhenValid(db: Database, user: User, grievanceId: int)
    requires db.Valid()
    ensures GetGrievance(db, user, grievanceId) != Fail(ServerError)
  {
  }

  // ---------------------------------------------------------------------------------------
  // Partial update

  /** The body of an update request; the outer `None` is a field the request does not set. */
  datatype GrievanceUpdate = GrievanceUpdate(
    status: Option<Option<GrievanceStatus>>,
    resolutionNotes: Option<Option<string>>,
    resolvedBy: Option<Option<string>>)

  /**
   * The fields of the update schema in declaration order: `dict(exclude_unset=True)` yields
   * the fields the request sets, in this order.
   */
  datatype GrievanceKey = StatusKey | NotesKey | ResolvedByKey

  const GrievanceKeys: seq<GrievanceKey> := [StatusKey, NotesKey, ResolvedByKey]

  /** The request with only its first `n` schema fields kept. */
  function FirstGrievanceFields(u: GrievanceUpdate, n: nat): GrievanceUpdate {
    GrievanceUpdate(if n > 0 then u.status else None, if n > 1 then u.resolutionNotes else None,
                    if n > 2 then u.resolvedBy else None)
  }

  /** A status after which a grievance counts as resolved. */
  predicate Closes(status: GrievanceStatus) {
    status == Resolved || status == Closed
  }

  /** A grievance row being changed, and whether its NOT NULL status column has been set to null. */
  datatype StagedGrievance = StagedGrievance(row: Grievance, nullStatus: bool)

  /** The row after the `setattr` calls for the fields `u` sets, stamping `resolved_at` with `now` when due. */
  function StagedGrievanceUpdate(g: Grievance, u: GrievanceUpdate, now: int): StagedGrievance {
    var newStatus := u.status.Some? && u.status.value.Some?;
    var status := if newStatus then u.status.value.value.Value() else g.status;
    var resolvedAt := if newStatus && Closes(u.status.value.value) && g.resolvedAt.None? then Some(now) else g.resolvedAt;
    StagedGrievance(g.(status := status, resolvedAt := resolvedAt,
                       resolutionNotes := u.resolutionNotes.GetOr(g.resolutionNotes),
                       resolvedBy := u.resolvedBy.GetOr(g.resolvedBy)),
                    u.status == Some(None))
  }

  /**
   * The grievance as `update_grievance` leaves it at time `now`: the fields the request sets
   * take their new values, the status as its enumeration value; `resolved_at` is stamped
   * when the new status is RESOLVED or CLOSED and it was empty, and is otherwise kept. A
   * status set to null fails the commit (`None`).
   */
  function UpdatedGrievance(g: Grievance, u: GrievanceUpdate, now: int): (r: Option<Grievance>)
    ensures r.None? <==> u.status == Some(None)
    ensures r.Some? ==> r.value.(status := g.status, resolvedAt := g.resolvedAt, resolutionNotes := g.resolutionNotes,
                                 resolvedBy := g.resolvedBy) == g
    ensures r.Some? ==> r.value.status == (if u.status.Some? then u.status.value.value.Value() else g.status)
    ensures r.Some? ==> r.value.resolutionNotes == u.resolutionNotes.GetOr(g.resolutionNotes)
    ensures r.Some? ==> r.value.resolvedBy == u.resolvedBy.GetOr(g.resolvedBy)
    ensures r.Some? && g.resolvedAt.Some? ==> r.value.resolvedAt == g.resolvedAt
    ensures r.Some? && g.resolvedAt.None? ==>
              r.value.resolvedAt == if u.status.Some? && Closes(u.status.value.value) then Some(now) else None
  {
    var s := StagedGrievanceUpdate(g, u, now);
    if s.nullStatus then None else Some(s.row)
  }

  /** Updates applied one after the other, each at its own time; `None` once one fails. */
  function UpdateHistory(g: Grievance, updates: seq<(GrievanceUpdate, int)>): Option<Grievance>
    decreases |updates|
  {
    if updates == [] then Some(g)
    else
      match UpdateHistory(g, updates[..|updates| - 1])
      case None => None
      case Some(h) =>
        var (u, now) := updates[|updates| - 1];
        UpdatedGrievance(h, u, now)
  }

  /** Once stamped, `resolved_at` keeps its value through any later updates. */
  lemma {:induction false} ResolvedAtNeverOverwritten(g: Grievance, updates: seq<(GrievanceUpdate, int)>)
    requires g.resolvedAt.Some?
    ensures UpdateHistory(g, updates).Some? ==> UpdateHistory(g, updates).value.resolvedAt == g.resolvedAt
    decreases |updates|
  {
    if updates != [] {
      ResolvedAtNeverOverwritten(g, updates[..|updates| - 1]);
    }
  }

  /**
   * Along a history of updates, `resolved_at` is empty until the first update that sets
   * RESOLVED or CLOSED, and from then on holds that update's time.
   */
  lemma {:induction false} ResolvedAtIsFirstClosing(g: Grievance, updates: seq<(GrievanceUpdate, int)>)
    requires g.resolvedAt.None?
    ensures var h := UpdateHistory(g, updates);
            h.Some? ==>
              if exists k :: 0 <= k < |updates| && ClosingUpdate(updates[k].0)
              then h.value.resolvedAt == Some(updates[FirstClosing(updates)].1)
              else h.value.resolvedAt.None?
    decreases |updates|
  {
    if updates != [] {
      var prefix := updates[..|updates| - 1];
      ResolvedAtIsFirstClosing(g, prefix);
      var last := |updates| - 1;
      if exists k :: 0 <= k < |prefix| && ClosingUpdate(prefix[k].0) {
        var k :| 0 <= k < |prefix| && ClosingUpdate(prefix[k].0);
        assert updates[k] == prefix[k];
        FirstClosingOfPrefix(updates);
      } else if ClosingUpdate(updates[last].0) {
        FirstClosingOfPrefix(updates);
      } else {
        forall k | 0 <= k < |updates| ensures !ClosingUpdate(updates[k].0) {
          if k < last { assert updates[k] == prefix[k]; }
        }
      }
    }
  }

  /** An update whose status is RESOLVED or CLOSED. */
  predicate ClosingUpdate(u: GrievanceUpdate) {
    u.status.Some? && u.status.value.Some? && Closes(u.status.value.value)
  }

  /** The position of the first closing update. */
  function FirstClosing(updates: seq<(GrievanceUpdate, int)>): (k: nat)
    requires exists k :: 0 <= k < |updates| && ClosingUpdate(updates[k].0)
    ensures k < |updates| && ClosingUpdate(updates[k].0)
    ensures forall j :: 0 <= j < k ==> !ClosingUpdate(updates[j].0)
  {
    if ClosingUpdate(updates[0].0) then 0
    else
      assert exists k :: 0 <= k < |updates[1..]| && ClosingUpdate(updates[1..][k].0) by {
        var k :| 0 <= k < |updates| && ClosingUpdate(updates[k].0);
        assert updates[1..][k - 1] == updates[k];
      }
      var k := FirstClosing(updates[1..]);
      assert forall j :: 1 <= j < k + 1 ==> updates[j] == updates[1..][j - 1];
      k + 1
  }

  /** The first closing update of a history is that of its longest proper prefix, when that has one, or else the last. */
  lemma FirstClosingOfPrefix(updates: seq<(GrievanceUpdate, int)>)
    requires updates != []
    requires exists k :: 0 <= k < |updates| && ClosingUpdate(updates[k].0)
    ensures var prefix := updates[..|updates| - 1];
            if exists k :: 0 <= k < |prefix| && ClosingUpdate(prefix[k].0)
            then FirstClosing(updates) == FirstClosing(prefix)
            else FirstClosing(updates) == |updates| - 1
  {
    var prefix := updates[..|updates| - 1];
    var f := FirstClosing(updates);
    if exists k :: 0 <= k < |prefix| && ClosingUpdate(prefix[k].0) {
      var p := FirstClosing(prefix);
      assert prefix[p] == updates[p];
      assert forall j :: 0 <= j < p ==> prefix[j] == updates[j];
      assert f == p;
    } else {
      assert forall j :: 0 <= j < |prefix| ==> prefix[j] == updates[j];
    }
  }

  /**
   * The loop of `update_grievance` over the fields the request sets, in schema order: each
   * sets its column, and a RESOLVED or CLOSED status also stamps an empty `resolved_at`
   * with `now`; a null status is noted for the commit.
   */
  method ApplyGrievanceUpdate(g: Grievance, update: GrievanceUpdate, now: int) returns (staged: StagedGrievance)
    ensures staged == StagedGrievanceUpdate(g, update, now)
  {
    staged := StagedGrievance(g, false);
    for i := 0 to |GrievanceKeys|
      invariant staged == StagedGrievanceUpdate(g, FirstGrievanceFields(update, i), now)
    {
      match GrievanceKeys[i] {
        case StatusKey =>
          if update.status.Some? {
            if update.status.value.Some? {
              var value := update.status.value.value;
              staged := staged.(row := staged.row.(status := value.Value()));
              if Closes(value) && staged.row.resolvedAt.None? {
                staged := staged.(row := staged.row.(resolvedAt := Some(now)));
              }
            } else {
              staged := staged.(nullStatus := true);
            }
          }
        case NotesKey =>
          if update.resolutionNotes.Some? {
            staged := staged.(row := staged.row.(resolutionNotes := update.resolutionNotes.value));
          }
        case ResolvedByKey =>
          if update.resolvedBy.Some? {
            staged := staged.(row := staged.row.(resolvedBy := update.resolvedBy.value));
          }
      }
    }
    assert FirstGrievanceFields(update, |GrievanceKeys|) == update;
  }

  /**
   * `update_grievance`: 404, then the role test ("ADMIN" or "OFFICER"), then for an "OFFICER"
   * the involvement test (a grievance without its case fails with 500), then the update loop
   * and the commit at time `now`.
   */
  method UpdateGrievance(db: Database, user: User, grievanceId: int, update: GrievanceUpdate, now: int)
    returns (r: Response<Grievance>)
    modifies db
    ensures grievanceId !in old(db.grievances) ==> r == Fail(NotFound)
    ensures grievanceId in old(db.grievances) && !MayUpdateGrievances(user.role) ==> r == Fail(Forbidden)
    ensures grievanceId in old(db.grievances) && RoleIs(user.role, "OFFICER") ==>
              var caseId := old(db.grievances)[grievanceId].caseId;
              && (caseId !in old(db.cases) ==> r == Fail(ServerError))
              && (caseId in old(db.cases) && !OfficerInvolved(old(db.cases)[caseId], user) ==> r == Fail(Forbidden))
    ensures r.Ok? ==> Some(r.value) == UpdatedGrievance(old(db.grievances)[grievanceId], update, now)
    ensures grievanceId in old(db.grievances) && MayUpdateGrievances(user.role)
            && (RoleIs(user.role, "OFFICER") ==>
                  var caseId := old(db.grievances)[grievanceId].caseId;
                  caseId in old(db.cases) && OfficerInvolved(old(db.cases)[caseId], user))
            ==> r == if update.status == Some(None) then Fail(ServerError)
                     else Ok(UpdatedGrievance(old(db.grievances)[grievanceId], update, now).value)
    ensures db.grievances == if r.Ok? then old(db.grievances)[grievanceId := r.value] else old(db.grievances)
    ensures db.cases == old(db.cases)
    ensures db.nextCaseId == old(db.nextCaseId) && db.nextGrievanceId == old(db.nextGrievanceId)
    ensures old(db.Valid()) ==> db.Valid()
  {
    if grievanceId !in db.grievances {
      return Fail(NotFound);
    }
    if !MayUpdateGrievances(user.role) {
      return Fail(Forbidden);
    }
    var g := db.grievances[grievanceId];
    if RoleIs(user.role, "OFFICER") {
      if g.caseId !in db.cases {
        return Fail(ServerError);
      }
      if !OfficerInvolved(db.cases[g.caseId], user) {
        return Fail(Forbidden);
      }
    }
    var staged := ApplyGrievanceUpdate(g, update, now);
    if staged.nullStatus {
      return Fail(ServerError);
    }
    db.grievances := db.grievances[grievanceId := staged.row];
    r := Ok(staged.row);
  }

  /** `delete_grievance`: the "ADMIN" test comes before the existence test. */
  method DeleteGrievance(db: Database, user: User, grievanceId: int) returns (r: Response<()>)
    modifies db
    ensures !MayDeleteGrievances(user.role) ==> r == Fail(Forbidden)
    ensures MayDeleteGrievances(user.role) ==>
              r == if grievanceId in old(db.grievances) then Ok(()) else Fail(NotFound)
    ensures db.grievances == if r.Ok? then old(db.grievances) - {grievanceId} else old(db.grievances)
    ensures db.cases == old(db.cases)
    ensures db.nextCaseId == old(db.nextCaseId) && db.nextGrievanceId == old(db.nextGrievanceId)
    ensures old(db.Valid()) ==> db.Valid()
  {
    if !MayDeleteGrievances(user.role) {
      return Fail(Forbidden);
    }
    if grievanceId !in db.grievances {
      return Fail(NotFound);
    }
    db.grievances := db.grievances - {grievanceId};
    r := Ok(());
  }

  // ---------------------------------------------------------------------------------------
  // Listing

  /**
   * The cases whose grievances a user may list: for a "VICTIM" the cases of their own, for an
   * "OFFICER" the cases they created or are assigned to by name, for every other role all
   * grievances, including those whose case is missing.
   */
  predicate ListsCaseOf(cases: map<int, Case>, user: User, caseId: int) {
    if RoleIs(user.role, "VICTIM") then caseId in cases && VictimOwns(cases[caseId], user)
    else if RoleIs(user.role, "OFFICER") then
      caseId in cases && (cases[caseId].assignedOfficer == Some(user.fullName) || cases[caseId].createdByUserId == Some(user.id))
    else true
  }

  /** A grievance `list_grievances` keeps: in a listed case and passing the given filters (a case id of 0 filters nothing). */
  predicate GrievanceListed(cases: map<int, Case>, g: Grievance, user: User, caseFilter: Option<int>,
                            statusFilter: Option<string>, priorityFilter: Option<string>) {
    && ListsCaseOf(cases, user, g.caseId)
    && (caseFilter.Some? && caseFilter.value != 0 ==> g.caseId == caseFilter.value)
    && (Given(statusFilter) ==> g.status == statusFilter.value)
    && (Given(priorityFilter) ==> g.priority == priorityFilter.value)
  }

  /** The ids of the stored grievances that `list_grievances` keeps. */
  function GrievancesListed(cases: map<int, Case>, grievances: map<int, Grievance>, user: User, caseFilter: Option<int>,
                            statusFilter: Option<string>, priorityFilter: Option<string>): set<int> {
    set id | id in grievances && GrievanceListed(cases, grievances[id], user, caseFilter, statusFilter, priorityFilter)
  }

  /**
   * The ids of `order` whose stored grievance is listed, in the same order (`KeptInOrder` keeps
   * the order, see `KeptInOrderAppend`), each once when `order` names each id once.
   */
  function ListedGrievances(cases: map<int, Case>, grievances: map<int, Grievance>, order: seq<int>, user: User,
                            caseFilter: Option<int>, statusFilter: Option<string>, priorityFilter: Option<string>)
    : (ids: seq<int>)
    ensures forall id :: id in ids <==>
              id in order && id in grievances
              && GrievanceListed(cases, grievances[id], user, caseFilter, statusFilter, priorityFilter)
    ensures |ids| <= |order|
    ensures Distinct(order) ==> Distinct(ids)
  {
    KeptInOrder(order, GrievancesListed(cases, grievances, user, caseFilter, statusFilter, priorityFilter))
  }

  /**
   * `list_grievances`, given the stored ids in the order of the query's `ORDER BY`: the page is
   * page `page` of the listed grievances, at `pageSize` per page (`skip = (page - 1) *
   * page_size`), and the total counts the listed grievances; when `order` names every stored
   * id once, that is the number of stored grievances the user may list.
   */
  function ListGrievances(db: Database, user: User, caseFilter: Option<int>, statusFilter: Option<string>,
                          priorityFilter: Option<string>, page: int, pageSize: int, order: seq<int>): (r: Listing)
    reads db
    ensures r.items == Page(ListedGrievances(db.cases, db.grievances, order, user, caseFilter, statusFilter, priorityFilter),
                            page, pageSize)
    ensures r.total == |ListedGrievances(db.cases, db.grievances, order, user, caseFilter, statusFilter, priorityFilter)|
    ensures Distinct(order) && (forall id :: id in order <==> id in db.grievances) ==>
              r.total == |GrievancesListed(db.cases, db.grievances, user, caseFilter, statusFilter, priorityFilter)|
    ensures 0 <= pageSize ==> |r.items| <= pageSize
    ensures forall id :: id in r.items ==>
              id in db.grievances && GrievanceListed(db.cases, db.grievances[id], user, caseFilter, statusFilter, priorityFilter)
  {
    var keep := GrievancesListed(db.cases, db.grievances, user, caseFilter, statusFilter, priorityFilter);
    var ids := ListedGrievances(db.cases, db.grievances, order, user, caseFilter, statusFilter, priorityFilter);
    var items := Page(ids, page, pageSize);
    PageIsDrawnFromRows(ids, page, pageSize);
    KeptInOrderCounts(order, keep);
    assert (forall id :: id in order <==> id in db.grievances) ==> keep * Elements(order) == keep;
    Listing(items, |ids|)
  }

  /** A user with an enumerated role, victims included, lists every stored grievance when no filter is given. */
  lemma EnumeratedRolesListEverything(db: Database, user: User, order: seq<int>)
    requires user.role.EnumRole?
    ensures forall id :: id in order && id in db.grievances ==>
              id in ListedGrievances(db.cases, db.grievances, order, user, None, None, None)
  {
  }
}
