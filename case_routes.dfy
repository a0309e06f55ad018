/**
 * The case endpoints: the role a user acts in (the role's value, lower-cased), who may
 * create, view, change, upload to and delete a case, the partial update of a case, the
 * growing list of uploaded documents, and the filtered, paged case list.
 */
module CaseRoutes {
  import opened Wrappers
  import opened PyStr
  import opened Records

  /** `get_user_role`: the value of an enumerated role, or the role text, lower-cased. */
  function UserRoleName(user: User): (r: string)
    ensures user.role.EnumRole? ==> r == user.role.member.Value()
    ensures user.role.TextRole? ==> |r| == |user.role.text|
  {
    match user.role
    case EnumRole(m) =>
      assert Lower(m.Value()) == m.Value();
      Lower(m.Value())
    case TextRole(t) => Lower(t)
  }

  /** The role name has no upper-case letter, and a textual role keeps every character that is not one. */
  lemma RoleNameIsLowerCase(user: User)
    ensures var r := UserRoleName(user);
            forall i :: 0 <= i < |r| ==> !IsUpper(r[i])
    ensures user.role.TextRole? ==>
              forall i :: 0 <= i < |user.role.text| && !IsUpper(user.role.text[i]) ==> UserRoleName(user)[i] == user.role.text[i]
  {
  }

  /** Two textual roles that differ only in letter case act as the same role. */
  lemma RoleNameIgnoresCase(u: User, v: User)
    requires u.role.TextRole? && v.role.TextRole? && Lower(u.role.text) == Lower(v.role.text)
    ensures UserRoleName(u) == UserRoleName(v)
  {
  }

  /** The roles that may create, change and delete cases. */
  predicate IsCaseManager(role: string) {
    role in ["admin", "official", "officer"]
  }

  /** The officer test of the case endpoints: named as the assigned officer, or the case's creator. */
  predicate OfficerHandles(c: Case, user: User) {
    c.assignedOfficer == Some(user.fullName) || c.createdByUserId == Some(user.id)
  }

  /**
   * Who may view a case or upload documents to it: a victim only a case of their own, an
   * official or officer only a case they handle, every other role any case.
   */
  predicate MayAccessCase(role: string, c: Case, user: User) {
    if role == "victim" then VictimOwns(c, user)
    else if role in ["official", "officer"] then OfficerHandles(c, user)
    else true
  }

  /** Of the two enumerated roles, an official manages cases and a victim does not. */
  lemma EnumeratedCaseManagers(user: User)
    requires user.role.EnumRole?
    ensures IsCaseManager(UserRoleName(user)) <==> user.role.member == Official
  {
  }

  /** The fields of a new case that the request supplies. */
  datatype CaseDraft = CaseDraft(victimName: string, victimPhone: string, victimEmail: Option<string>, stage: CaseStage)

  /** The row `create_case` stores: the draft, the stage's value, status PENDING, the creator, nothing else. */
  function NewCase(draft: CaseDraft, user: User): (c: Case)
    ensures c.status == "PENDING" && c.stage == draft.stage.Value()
    ensures c.createdByUserId == Some(user.id)
    ensures c.uploadedDocuments.None? && c.assignedOfficer.None? && c.assignedOfficerUserId.None? && c.remarks.None?
  {
    Case(draft.victimName, draft.victimPhone, draft.victimEmail, draft.stage.Value(), "PENDING",
         None, Some(user.id), None, None, None)
  }

  /** `create_case`. */
  method CreateCase(db: Database, user: User, draft: CaseDraft) returns (r: Response<int>)
    modifies db
    ensures !IsCaseManager(UserRoleName(user)) ==>
              r == Fail(Forbidden) && db.cases == old(db.cases) && db.nextCaseId == old(db.nextCaseId)
    ensures IsCaseManager(UserRoleName(user)) ==>
              && r == Ok(old(db.nextCaseId))
              && db.cases == old(db.cases)[r.value := NewCase(draft, user)]
              && db.nextCaseId == old(db.nextCaseId) + 1
    ensures db.grievances == old(db.grievances) && db.nextGrievanceId == old(db.nextGrievanceId)
    ensures old(db.Valid()) ==> db.Valid()
    ensures old(db.Valid()) && r.Ok? ==> r.value !in old(db.cases)
  {
    if !IsCaseManager(UserRoleName(user)) {
      return Fail(Forbidden);
    }
    var id := db.nextCaseId;
    db.cases := db.cases[id := NewCase(draft, user)];
    db.nextCaseId := id + 1;
    r := Ok(id);
  }

  /** `get_case`: 404 for a missing case, then the access test. */
  function GetCase(db: Database, user: User, caseId: int): (r: Response<Case>)
    reads db
    ensures r == Fail(NotFound) <==> caseId !in db.cases
    ensures r.Ok? <==> caseId in db.cases && MayAccessCase(UserRoleName(user), db.cases[caseId], user)
    ensures r.Ok? ==> r.value == db.cases[caseId]
    ensures r.Fail? ==> r.code == NotFound || r.code == Forbidden
  {
    if caseId !in db.cases then Fail(NotFound)
    else if !MayAccessCase(UserRoleName(user), db.cases[caseId], user) then Fail(Forbidden)
    else Ok(db.cases[caseId])
  }

  /** A victim acting as one is shown only cases whose victim phone or e-mail is theirs. */
  lemma VictimViewsOnlyOwnCases(db: Database, user: User, caseId: int)
    requires UserRoleName(user) == "victim"
    ensures GetCase(db, user, caseId).Ok? ==> VictimOwns(db.cases[caseId], user)
  {
  }

  // ---------------------------------------------------------------------------------------
  // Partial update

  /**
   * The body of an update request. The outer `None` is a field the request does not set;
   * `Some(None)` is a field set to null.
   */
  datatype CaseUpdate = CaseUpdate(
    status: Option<Option<CaseStatus>>,
    assignedOfficer: Option<Option<string>>,
    remarks: Option<Option<string>>)

  /**
   * The fields of the update schema in declaration order: `dict(exclude_unset=True)` yields
   * the fields the request sets, in this order.
   */
  datatype CaseKey = StatusKey | OfficerKey | RemarksKey

  const CaseKeys: seq<CaseKey> := [StatusKey, OfficerKey, RemarksKey]

  /** The request with only its first `n` schema fields kept. */
  function FirstCaseFields(u: CaseUpdate, n: nat): CaseUpdate {
    CaseUpdate(if n > 0 then u.status else None, if n > 1 then u.assignedOfficer else None,
               if n > 2 then u.remarks else None)
  }

  /** A case row being changed, and whether its NOT NULL status column has been set to null. */
  datatype StagedCase = StagedCase(row: Case, nullStatus: bool)

  /** The row after the `setattr` calls for the fields `u` sets; a status is stored as its value. */
  function StagedUpdate(c: Case, u: CaseUpdate): StagedCase {
    var status := if u.status.Some? && u.status.value.Some? then u.status.value.value.Value() else c.status;
    StagedCase(c.(status := status, assignedOfficer := u.assignedOfficer.GetOr(c.assignedOfficer),
                  remarks := u.remarks.GetOr(c.remarks)),
               u.status == Some(None))
  }

  /**
   * The case as `update_case` leaves it: every field the request sets takes its new value,
   * the status as its enumeration value, and every other field keeps its old one. A status
   * set to null fails the commit (`None`), which rolls the change back.
   */
  function UpdatedCase(c: Case, u: CaseUpdate): (r: Option<Case>)
    ensures r.None? <==> u.status == Some(None)
    ensures r.Some? ==> r.value.(status := c.status, assignedOfficer := c.assignedOfficer, remarks := c.remarks) == c
    ensures r.Some? ==> r.value.status == (if u.status.Some? then u.status.value.value.Value() else c.status)
    ensures r.Some? ==> r.value.assignedOfficer == u.assignedOfficer.GetOr(c.assignedOfficer)
    ensures r.Some? ==> r.value.remarks == u.remarks.GetOr(c.remarks)
  {
    var s := StagedUpdate(c, u);
    if s.nullStatus then None else Some(s.row)
  }

  /** Applying the same update twice changes nothing the first application did not. */
  lemma UpdateCaseIdempotent(c: Case, u: CaseUpdate)
    requires UpdatedCase(c, u).Some?
    ensures UpdatedCase(UpdatedCase(c, u).value, u) == UpdatedCase(c, u)
  {
  }

  /**
   * The loop of `update_case` over the fields the request sets, in schema order: each sets
   * its column, the status as its enumeration value; a null status is noted for the commit.
   */
  method ApplyCaseUpdate(c: Case, update: CaseUpdate) returns (staged: StagedCase)
    ensures staged == StagedUpdate(c, update)
  {
    staged := StagedCase(c, false);
    for i := 0 to |CaseKeys|
      invariant staged == StagedUpdate(c, FirstCaseFields(update, i))
    {
      match CaseKeys[i] {
        case StatusKey =>
          if update.status.Some? {
            if update.status.value.Some? {
              staged := staged.(row := staged.row.(status := update.status.value.value.Value()));
            } else {
              staged := staged.(nullStatus := true);
            }
          }
        case OfficerKey =>
          if update.assignedOfficer.Some? {
            staged := staged.(row := staged.row.(assignedOfficer := update.assignedOfficer.value));
          }
        case RemarksKey =>
          if update.remarks.Some? {
            staged := staged.(row := staged.row.(remarks := update.remarks.value));
          }
      }
    }
    assert FirstCaseFields(update, |CaseKeys|) == update;
  }

  /** `update_case`: the role gate first, then 404, then the update loop and the commit. */
  method UpdateCase(db: Database, user: User, caseId: int, update: CaseUpdate) returns (r: Response<Case>)
    modifies db
    ensures !IsCaseManager(UserRoleName(user)) ==> r == Fail(Forbidden)
    ensures IsCaseManager(UserRoleName(user)) && caseId !in old(db.cases) ==> r == Fail(NotFound)
    ensures IsCaseManager(UserRoleName(user)) && caseId in old(db.cases) ==>
              r == if update.status == Some(None) then Fail(ServerError) else Ok(UpdatedCase(old(db.cases)[caseId], update).value)
    ensures db.cases == if r.Ok? then old(db.cases)[caseId := r.value] else old(db.cases)
    ensures db.grievances == old(db.grievances)
    ensures db.nextCaseId == old(db.nextCaseId) && db.nextGrievanceId == old(db.nextGrievanceId)
    ensures old(db.Valid()) ==> db.Valid()
  {
    if !IsCaseManager(UserRoleName(user)) {
      return Fail(Forbidden);
    }
    if caseId !in db.cases {
      return Fail(NotFound);
    }
    var staged := ApplyCaseUpdate(db.cases[caseId], update);
    assert UpdatedCase(db.cases[caseId], update) == if staged.nullStatus then None else Some(staged.row);
    if staged.nullStatus {
      return Fail(ServerError);
    }
    db.cases := db.cases[caseId := staged.row];
    r := Ok(staged.row);
  }

  // ---------------------------------------------------------------------------------------
  // Uploads

  /**
   * The document list after an upload: the stored list, or an empty one when there is none,
   * followed by the new paths in order.
   */
  function AppendDocuments(existing: Option<seq<string>>, paths: seq<string>): (r: seq<string>)
    ensures |r| == |existing.GetOr([])| + |paths|
    ensures existing.Some? ==> existing.value <= r
    ensures r[|r| - |paths|..] == paths
  {
    existing.GetOr([]) + paths
  }

  /** Two uploads in a row leave the same list as one upload of both batches. */
  lemma AppendDocumentsTwice(existing: Option<seq<string>>, first: seq<string>, second: seq<string>)
    ensures AppendDocuments(Some(AppendDocuments(existing, first)), second) == AppendDocuments(existing, first + second)
  {
    assert existing.GetOr([]) + first + second == existing.GetOr([]) + (first + second);
  }

  /**
   * `upload_case_documents`, given the paths the file handler stored the files under:
   * 404, then the access test, then the list grows by the new paths.
   */
  method UploadCaseDocuments(db: Database, user: User, caseId: int, paths: seq<string>) returns (r: Response<Case>)
    modifies db
    ensures caseId !in old(db.cases) ==> r == Fail(NotFound)
    ensures caseId in old(db.cases) && !MayAccessCase(UserRoleName(user), old(db.cases)[caseId], user) ==> r == Fail(Forbidden)
    ensures caseId in old(db.cases) && MayAccessCase(UserRoleName(user), old(db.cases)[caseId], user) ==>
              var c := old(db.cases)[caseId];
              r == Ok(c.(uploadedDocuments := Some(AppendDocuments(c.uploadedDocuments, paths))))
    ensures db.cases == if r.Ok? then old(db.cases)[caseId := r.value] else old(db.cases)
    ensures db.grievances == old(db.grievances)
    ensures db.nextCaseId == old(db.nextCaseId) && db.nextGrievanceId == old(db.nextGrievanceId)
    ensures old(db.Valid()) ==> db.Valid()
  {
    if caseId !in db.cases {
      return Fail(NotFound);
    }
    var c := db.cases[caseId];
    if !MayAccessCase(UserRoleName(user), c, user) {
      return Fail(Forbidden);
    }
    var existing := if c.uploadedDocuments.Some? then c.uploadedDocuments.value else [];
    existing := existing + paths;
    var updated := c.(uploadedDocuments := Some(existing));
    db.cases := db.cases[caseId := updated];
    r := Ok(updated);
  }

  // ---------------------------------------------------------------------------------------
  // Deletion

  /** The grievances that survive the deletion of case `caseId`: the ORM cascade removes that case's. */
  function GrievancesWithoutCase(grievances: map<int, Grievance>, caseId: int): (r: map<int, Grievance>)
    ensures forall g :: g in r <==> g in grievances && grievances[g].caseId != caseId
    ensures forall g :: g in r ==> r[g] == grievances[g]
  {
    map g | g in grievances && grievances[g].caseId != caseId :: grievances[g]
  }

  /** `delete_case`: the role gate first, then 404, then the case and its grievances go. */
  method DeleteCase(db: Database, user: User, caseId: int) returns (r: Response<()>)
    modifies db
    ensures !IsCaseManager(UserRoleName(user)) ==> r == Fail(Forbidden)
    ensures IsCaseManager(UserRoleName(user)) && caseId !in old(db.cases) ==> r == Fail(NotFound)
    ensures IsCaseManager(UserRoleName(user)) && caseId in old(db.cases) ==> r == Ok(())
    ensures r.Ok? ==> db.cases == old(db.cases) - {caseId} && db.grievances == GrievancesWithoutCase(old(db.grievances), caseId)
    ensures r.Fail? ==> db.cases == old(db.cases) && db.grievances == old(db.grievances)
    ensures db.nextCaseId == old(db.nextCaseId) && db.nextGrievanceId == old(db.nextGrievanceId)
    ensures old(db.Valid()) ==> db.Valid()
  {
    if !IsCaseManager(UserRoleName(user)) {
      return Fail(Forbidden);
    }
    if caseId !in db.cases {
      return Fail(NotFound);
    }
    db.cases := db.cases - {caseId};
    db.grievances := GrievancesWithoutCase(db.grievances, caseId);
    r := Ok(());
  }

  // ---------------------------------------------------------------------------------------
  // Listing

  /** A case `list_cases` keeps: visible to the user as `get_case` decides, and passing the given filters. */
  predicate CaseListed(c: Case, user: User, statusFilter: Option<string>, stageFilter: Option<string>) {
    && MayAccessCase(UserRoleName(user), c, user)
    && (Given(statusFilter) ==> c.status == statusFilter.value)
    && (Given(stageFilter) ==> c.stage == stageFilter.value)
  }

  /** The ids of the stored cases that `list_cases` keeps. */
  function CasesListed(cases: map<int, Case>, user: User, statusFilter: Option<string>, stageFilter: Option<string>): set<int> {
    set id | id in cases && CaseListed(cases[id], user, statusFilter, stageFilter)
  }

  /**
   * The ids of `order` whose stored case is listed, in the same order (`KeptInOrder` keeps the
   * order, see `KeptInOrderAppend`), each once when `order` names each id once.
   */
  function ListedCases(cases: map<int, Case>, order: seq<int>, user: User,
                       statusFilter: Option<string>, stageFilter: Option<string>): (ids: seq<int>)
    ensures forall id :: id in ids <==> id in order && id in cases && CaseListed(cases[id], user, statusFilter, stageFilter)
    ensures |ids| <= |order|
    ensures Distinct(order) ==> Distinct(ids)
  {
    KeptInOrder(order, CasesListed(cases, user, statusFilter, stageFilter))
  }

  /**
   * `list_cases`, given the stored ids in the order of the query's `ORDER BY`: the page is page
   * `page` of the listed cases, at `pageSize` per page (`skip = (page - 1) * page_size`), and
   * the total counts the listed cases; when `order` names every stored id once, that is the
   * number of stored cases the user may list.
   */
  function ListCases(db: Database, user: User, statusFilter: Option<string>, stageFilter: Option<string>,
                     page: int, pageSize: int, order: seq<int>): (r: Listing)
    reads db
    ensures r.items == Page(ListedCases(db.cases, order, user, statusFilter, stageFilter), page, pageSize)
    ensures r.total == |ListedCases(db.cases, order, user, statusFilter, stageFilter)|
    ensures Distinct(order) && (forall id :: id in order <==> id in db.cases) ==>
              r.total == |CasesListed(db.cases, user, statusFilter, stageFilter)|
    ensures 0 <= pageSize ==> |r.items| <= pageSize
    ensures forall id :: id in r.items ==> id in db.cases && CaseListed(db.cases[id], user, statusFilter, stageFilter)
  {
    var keep := CasesListed(db.cases, user, statusFilter, stageFilter);
    var ids := ListedCases(db.cases, order, user, statusFilter, stageFilter);
    var items := Page(ids, page, pageSize);
    PageIsDrawnFromRows(ids, page, pageSize);
    KeptInOrderCounts(order, keep);
    assert (forall id :: id in order <==> id in db.cases) ==> keep * Elements(order) == keep;
    Listing(items, |ids|)
  }
}
