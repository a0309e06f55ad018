/**
 * The records the case and grievance routers work on, kept in memory as maps from id to
 * record, and the paging that both list endpoints apply to their filtered rows.
 */
module Records {
  import opened Wrappers

  /** The `UserRole` enumeration of the user table. It is a plain `Enum`, not a `str`. */
  datatype UserRole = Victim | Official {
    function Value(): string {
      match this
      case Victim => "victim"
      case Official => "official"
    }
  }

  /**
   * The `role` attribute of a user: a member of `UserRole` as the ORM loads it, or a plain
   * string for a user object whose role was stored as text.
   */
  datatype Role = EnumRole(member: UserRole) | TextRole(text: string)

  /**
   * Python's `user.role == literal`. A member of a plain `Enum` never equals a string, so
   * only a textual role can pass.
   */
  predicate RoleIs(role: Role, literal: string) {
    role.TextRole? && role.text == literal
  }

  datatype User = User(id: int, email: string, phone: Option<string>, fullName: string, role: Role)

  datatype CaseStatus = Pending | UnderReview | Approved | Rejected | PaymentProcessing | Completed {
    function Value(): string {
      match this
      case Pending => "PENDING"
      case UnderReview => "UNDER_REVIEW"
      case Approved => "APPROVED"
      case Rejected => "REJECTED"
      case PaymentProcessing => "PAYMENT_PROCESSING"
      case Completed => "COMPLETED"
    }
  }

  datatype CaseStage = Fir | Chargesheet | Conviction {
    function Value(): string {
      match this
      case Fir => "FIR"
      case Chargesheet => "CHARGESHEET"
      case Conviction => "CONVICTION"
    }
  }

  datatype GrievanceStatus = Open | InProgress | Resolved | Closed | Escalated {
    function Value(): string {
      match this
      case Open => "OPEN"
      case InProgress => "IN_PROGRESS"
      case Resolved => "RESOLVED"
      case Closed => "CLOSED"
      case Escalated => "ESCALATED"
    }
  }

  /**
   * A row of the case table, with the columns the routers read or write. `uploadedDocuments`
   * is the decoded JSON list; `None` stands for a column that is NULL or empty.
   */
  datatype Case = Case(
    victimName: string,
    victimPhone: string,
    victimEmail: Option<string>,
    stage: string,
    status: string,
    uploadedDocuments: Option<seq<string>>,
    createdByUserId: Option<int>,
    assignedOfficerUserId: Option<int>,
    assignedOfficer: Option<string>,
    remarks: Option<string>)

  /** A row of the grievance table; `resolvedAt` is a point in time. */
  datatype Grievance = Grievance(
    caseId: int,
    createdByUserId: Option<int>,
    title: string,
    category: string,
    priority: string,
    status: string,
    resolutionNotes: Option<string>,
    resolvedAt: Option<int>,
    resolvedBy: Option<string>)

  /** How a request ends: with a value, or with an HTTP error status. */
  datatype Response<T> = Ok(value: T) | Fail(code: int)

  const Forbidden := 403
  const NotFound := 404
  const ServerError := 500

  /**
   * The victim test both routers apply: the case's victim phone equals the user's phone or
   * its victim e-mail equals the user's e-mail. A missing value on either side never matches
   * a present one.
   */
  predicate VictimOwns(c: Case, user: User) {
    Some(c.victimPhone) == user.phone || c.victimEmail == Some(user.email)
  }

  /** A string filter of a list endpoint that Python finds true: given and not empty. */
  predicate Given(filter: Option<string>) {
    filter.Some? && filter.value != ""
  }

  /** The two tables, keyed by primary key, and the next key of each. */
  class Database {
    var cases: map<int, Case>
    var grievances: map<int, Grievance>
    var nextCaseId: int
    var nextGrievanceId: int

    /** Every grievance belongs to a stored case, and every stored key is below the next key. */
    ghost predicate Valid()
      reads this
    {
      && (forall g :: g in grievances ==> grievances[g].caseId in cases)
      && (forall c :: c in cases ==> c < nextCaseId)
      && (forall g :: g in grievances ==> g < nextGrievanceId)
    }

    constructor()
      ensures Valid() && cases == map[] && grievances == map[]
    {
      cases := map[];
      grievances := map[];
      nextCaseId := 1;
      nextGrievanceId := 1;
    }
  }

  /** What a list endpoint returns: the ids on the requested page and the size of the filtered set. */
  datatype Listing = Listing(items: seq<int>, total: nat)

  /** `skip = (page - 1) * page_size`. */
  function PageOffset(page: int, pageSize: int): int {
    (page - 1) * pageSize
  }

  /**
   * `.offset(skip).limit(limit)` as SQLite evaluates it: a negative offset skips nothing
   * and a negative limit sets no bound.
   */
  function Paginate<T>(rows: seq<T>, skip: int, limit: int): (r: seq<T>)
    ensures 0 <= limit ==> |r| <= limit
    ensures |r| <= |rows|
    ensures 0 <= skip ==> forall i :: 0 <= i < |r| ==> skip + i < |rows| && r[i] == rows[skip + i]
    ensures skip < 0 ==> r <= rows
    ensures 0 <= limit && 0 <= skip && skip + limit <= |rows| ==> |r| == limit
  {
    var start := if skip < 0 then 0 else if skip < |rows| then skip else |rows|;
    var end := if limit < 0 || |rows| - start < limit then |rows| else start + limit;
    rows[start..end]
  }

  /** Page `page` of `rows` at `pageSize` rows per page, as both list endpoints compute it. */
  function Page<T>(rows: seq<T>, page: int, pageSize: int): seq<T> {
    Paginate(rows, PageOffset(page, pageSize), pageSize)
  }

  /** Pages `1..n` one after the other. */
  function FirstPages<T>(rows: seq<T>, pageSize: int, n: nat): seq<T> {
    if n == 0 then [] else FirstPages(rows, pageSize, n - 1) + Page(rows, n, pageSize)
  }

  /**
   * With a positive page size, reading pages `1, 2, ..., n` in turn yields the rows in order,
   * each exactly once, and nothing beyond the first `n * pageSize` rows.
   */
  lemma {:induction false} PagesTileRows<T>(rows: seq<T>, pageSize: int, n: nat)
    requires pageSize > 0
    ensures FirstPages(rows, pageSize, n) == rows[..if n * pageSize < |rows| then n * pageSize else |rows|]
  {
    if n > 0 {
      PagesTileRows(rows, pageSize, n - 1);
      var before := if (n - 1) * pageSize < |rows| then (n - 1) * pageSize else |rows|;
      var after := if n * pageSize < |rows| then n * pageSize else |rows|;
      var p := Page(rows, n, pageSize);
      assert PageOffset(n, pageSize) == (n - 1) * pageSize;
      assert n * pageSize == (n - 1) * pageSize + pageSize;
      assert p == rows[before..after];
      assert rows[..before] + rows[before..after] == rows[..after];
    }
  }

  /** Every row of a page is a row of the list paged. */
  lemma PageIsDrawnFromRows<T>(rows: seq<T>, page: int, pageSize: int)
    ensures forall x :: x in Page(rows, page, pageSize) ==> x in rows
  {
    var items := Page(rows, page, pageSize);
    var skip := PageOffset(page, pageSize);
    forall x | x in items ensures x in rows {
      var i :| 0 <= i < |items| && items[i] == x;
      if skip < 0 {
        assert items <= rows;
        assert rows[i] == x;
      } else {
        assert rows[skip + i] == x;
      }
    }
  }

  /** No id occurs twice. */
  predicate Distinct(xs: seq<int>) {
    forall i, j :: 0 <= i < j < |xs| ==> xs[i] != xs[j]
  }

  /** The set of ids in `xs`. */
  function Elements(xs: seq<int>): set<int> {
    set x | x in xs
  }

  lemma DistinctCons(x: int, xs: seq<int>)
    ensures Distinct([x] + xs) <==> x !in xs && Distinct(xs)
  {
    var ys := [x] + xs;
    assert forall i :: 0 < i < |ys| ==> ys[i] == xs[i - 1];
    if x !in xs && Distinct(xs) {
      forall i, j | 0 <= i < j < |ys| ensures ys[i] != ys[j] {
        if i > 0 {
          assert ys[i] == xs[i - 1] && ys[j] == xs[j - 1];
        }
      }
    }
    if Distinct(ys) {
      forall i, j | 0 <= i < j < |xs| ensures xs[i] != xs[j] {
        assert xs[i] == ys[i + 1] && xs[j] == ys[j + 1];
      }
      assert forall k :: 0 <= k < |xs| ==> xs[k] == ys[k + 1] && ys[k + 1] != ys[0];
    }
  }

  /**
   * The elements of `order` that are in `keep`, in the order of `order`: the filter a
   * `WHERE` clause applies to rows already in `ORDER BY` order.
   */
  function KeptInOrder(order: seq<int>, keep: set<int>): (r: seq<int>)
    ensures forall x :: x in r <==> x in order && x in keep
    ensures |r| <= |order|
    ensures Distinct(order) ==> Distinct(r)
    decreases |order|
  {
    if order == [] then []
    else
      var x := order[0];
      var rest := KeptInOrder(order[1..], keep);
      assert order == [x] + order[1..];
      assert forall y :: y in order <==> y == x || y in order[1..];
      DistinctCons(x, order[1..]);
      DistinctCons(x, rest);
      if x in keep then [x] + rest else rest
  }

  /** One step of the filter: the first element is kept or dropped, then the rest is filtered. */
  lemma KeptInOrderStep(order: seq<int>, keep: set<int>)
    requires order != []
    ensures KeptInOrder(order, keep)
            == (if order[0] in keep then [order[0]] else []) + KeptInOrder(order[1..], keep)
  {
  }

  /** Filtering works piece by piece: what is kept from `a + b` is what is kept from `a`, then from `b`. */
  lemma {:induction false} KeptInOrderAppend(a: seq<int>, b: seq<int>, keep: set<int>)
    ensures KeptInOrder(a + b, keep) == KeptInOrder(a, keep) + KeptInOrder(b, keep)
    decreases |a|
  {
    if a == [] {
      assert a + b == b;
    } else {
      var head := if a[0] in keep then [a[0]] else [];
      var restA := KeptInOrder(a[1..], keep);
      var keptB := KeptInOrder(b, keep);
      assert KeptInOrder(a + b, keep) == head + KeptInOrder(a[1..] + b, keep) by {
        assert (a + b)[0] == a[0] && (a + b)[1..] == a[1..] + b;
        KeptInOrderStep(a + b, keep);
      }
      assert KeptInOrder(a, keep) == head + restA by {
        KeptInOrderStep(a, keep);
      }
      KeptInOrderAppend(a[1..], b, keep);
      assert head + (restA + keptB) == (head + restA) + keptB;
    }
  }

  /** When `order` names each element once, the filter keeps one entry per kept element of `order`. */
  lemma {:induction false} KeptInOrderCounts(order: seq<int>, keep: set<int>)
    ensures Distinct(order) ==> |KeptInOrder(order, keep)| == |keep * Elements(order)|
    decreases |order|
  {
    if order != [] && Distinct(order) {
      var x := order[0];
      var tail := order[1..];
      assert order == [x] + tail;
      DistinctCons(x, tail);
      KeptInOrderCounts(tail, keep);
      KeptInOrderStep(order, keep);
      assert Elements(order) == {x} + Elements(tail);
      assert x !in keep * Elements(tail);
      if x in keep {
        assert keep * Elements(order) == keep * Elements(tail) + {x};
      } else {
        assert keep * Elements(order) == keep * Elements(tail);
      }
    }
  }

  /** A page number of zero or below gives the first page, because SQLite ignores a negative offset. */
  lemma NonPositivePageIsFirstPage<T>(rows: seq<T>, page: int, pageSize: int)
    requires page <= 0 && pageSize > 0
    ensures Page(rows, page, pageSize) == Page(rows, 1, pageSize)
  {
    assert PageOffset(page, pageSize) < 0 by {
      assert (page - 1) * pageSize <= -pageSize;
    }
  }
}
