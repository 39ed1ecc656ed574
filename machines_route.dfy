/** The admin machines endpoint: `GET` turns the query string into a filter,
    fetches one page and its total count from storage and adds brand display
    fields to every record; `POST` runs the creation workflow and maps what it
    throws to an HTTP status. Storage, the brand directory and the workflow are
    passed in as functions. */
module MachinesRoute {
  import opened Values
  import opened Machines
  import Matching

  const DefaultLimit: nat := 50
  const DefaultOffset: nat := 0

  /** Query parameters the handler reads by name. None of them is copied
      into the filter by the pass-through of the remaining parameters. */
  const Reserved: set<string> := {"limit", "offset", "q", "status", "customer_id", "brand_id", "machine_type"}

  /** A listing request: `limit` and `offset` as numbers (None when the
      parameter was not sent) and every other query parameter as text. */
  datatype ListRequest = ListRequest(limit: Option<nat>, offset: Option<nat>, params: map<string, string>)

  /** `{ column: { $ilike: pattern } }` */
  datatype Clause = Clause(column: string, pattern: string)

  /** What the filter says about one key: an exact value, an `$ilike`
      pattern, or (under `$or`) a list of alternative clauses. */
  datatype Condition = Equals(value: string) | ILikePattern(pattern: string) | AnyOf(clauses: seq<Clause>)

  type Filter = map<string, Condition>

  datatype Pagination = Pagination(take: nat, skip: nat)

  /** A parameter that was sent and is truthy (not the empty string). */
  predicate Given(req: ListRequest, key: string) {
    key in req.params && req.params[key] != ""
  }

  /** The free-text search: one `%q%` clause per searched column, in the
      handler's order. */
  function SearchClauses(q: string): seq<Clause> {
    var p := Matching.SubstringPattern(q);
    [Clause("model_number", p), Clause("serial_number", p), Clause("machine_type", p),
     Clause("description", p), Clause("notes", p)]
  }

  /** `key` is in the filter exactly when the parameter was given, and then as
      an exact match on the sent value. */
  ghost predicate ExactWhenGiven(req: ListRequest, f: Filter, key: string) {
    && (key in f <==> Given(req, key))
    && (key in f ==> f[key] == Equals(req.params[key]))
  }

  /** The filter a listing request stands for. */
  ghost predicate IsQueryFilter(req: ListRequest, f: Filter) {
    // parameters not read by name pass through as exact matches (a search replaces a sent "$or")
    && (forall k :: k in req.params && k !in Reserved && !(k == "$or" && Given(req, "q")) ==>
          k in f && f[k] == Equals(req.params[k]))
    // and the filter holds nothing but those and the keys below
    && (forall k :: k in f ==>
          || (k in req.params && k !in Reserved)
          || k == "status" || k == "customer_id" || k == "brand_id" || k == "machine_type"
          || (k == "$or" && Given(req, "q")))
    && ExactWhenGiven(req, f, "status")
    && ExactWhenGiven(req, f, "customer_id")
    && ExactWhenGiven(req, f, "brand_id")
    // machine_type is never an exact match, only a substring pattern
    && ("machine_type" in f <==> Given(req, "machine_type"))
    && ("machine_type" in f ==> f["machine_type"] == ILikePattern(Matching.SubstringPattern(req.params["machine_type"])))
    && (Given(req, "q") ==> "$or" in f && f["$or"] == AnyOf(SearchClauses(req.params["q"])))
  }

  /** Builds the filter by successive assignments, as the handler does. */
  method BuildFilters(req: ListRequest) returns (f: Filter)
    ensures IsQueryFilter(req, f)
  {
    f := map k | k in req.params && k !in Reserved :: Equals(req.params[k]);
    if Given(req, "status") {
      f := f["status" := Equals(req.params["status"])];
    }
    if Given(req, "customer_id") {
      f := f["customer_id" := Equals(req.params["customer_id"])];
    }
    if Given(req, "brand_id") {
      f := f["brand_id" := Equals(req.params["brand_id"])];
    }
    if Given(req, "machine_type") {
      f := f["machine_type" := ILikePattern(Matching.SubstringPattern(req.params["machine_type"]))];
    }
    if Given(req, "q") {
      f := f["$or" := AnyOf(SearchClauses(req.params["q"]))];
    }
  }

  /** The description above leaves no choice: one request, one filter. */
  lemma QueryFilterUnique(req: ListRequest, f1: Filter, f2: Filter)
    requires IsQueryFilter(req, f1) && IsQueryFilter(req, f2)
    ensures f1 == f2
  {
    forall k | k in f1 ensures k in f2 && f1[k] == f2[k] {
      if k == "status" || k == "customer_id" || k == "brand_id" || k == "machine_type" {
      } else if k == "$or" && Given(req, "q") {
      } else {
        assert k in req.params && k !in Reserved;
      }
    }
    forall k | k in f2 ensures k in f1 {
      if k == "status" || k == "customer_id" || k == "brand_id" || k == "machine_type" {
      } else if k == "$or" && Given(req, "q") {
      } else {
        assert k in req.params && k !in Reserved;
      }
    }
  }

  /** The filter never holds the pagination or search parameters themselves. */
  lemma ReservedNeverCopied(req: ListRequest, f: Filter)
    requires IsQueryFilter(req, f)
    ensures "limit" !in f && "offset" !in f && "q" !in f
    ensures "$or" in f && !Given(req, "q") ==> "$or" in req.params && f["$or"] == Equals(req.params["$or"])
  {
  }

  /** `limit` defaults to 50 and `offset` to 0; sent values are used as they are. */
  function PaginationOf(req: ListRequest): (p: Pagination)
    ensures req.limit.None? ==> p.take == DefaultLimit
    ensures req.offset.None? ==> p.skip == DefaultOffset
    ensures req.limit.Some? ==> p.take == req.limit.value
    ensures req.offset.Some? ==> p.skip == req.offset.value
  {
    Pagination(req.limit.GetOr(DefaultLimit), req.offset.GetOr(DefaultOffset))
  }

  // ---- Brand enrichment ----

  /** A record of the page with the brand's display fields added (None is `null`). */
  datatype EnrichedMachine = EnrichedMachine(machine: Machine, brand_name: Option<string>, brand_code: Option<string>)

  /** The record names a brand and the directory resolves it. */
  predicate BrandResolved(m: Machine, retrieveBrand: string -> Result<Brand, Thrown>) {
    TruthyText(m.brand_id) && retrieveBrand(m.brand_id.value).Success?
  }

  function EnrichOne(m: Machine, retrieveBrand: string -> Result<Brand, Thrown>): (e: EnrichedMachine)
    ensures e.machine == m
    ensures BrandResolved(m, retrieveBrand) ==>
      var b := retrieveBrand(m.brand_id.value).value;
      e.brand_name == Some(b.name) && e.brand_code == Some(b.code)
    ensures !BrandResolved(m, retrieveBrand) ==> e.brand_name == None && e.brand_code == None
  {
    if TruthyText(m.brand_id) then
      match retrieveBrand(m.brand_id.value)
      case Success(brand) => EnrichedMachine(m, Some(brand.name), Some(brand.code))
      case Failure(_) => EnrichedMachine(m, None, None)
    else
      EnrichedMachine(m, None, None)
  }

  /** Enriches a page record by record; results are placed by position. */
  function Enrich(machines: seq<Machine>, retrieveBrand: string -> Result<Brand, Thrown>): (es: seq<EnrichedMachine>)
    ensures |es| == |machines|
    ensures forall i :: 0 <= i < |machines| ==> es[i] == EnrichOne(machines[i], retrieveBrand)
    decreases |machines|
  {
    if machines == [] then []
    else [EnrichOne(machines[0], retrieveBrand)] + Enrich(machines[1..], retrieveBrand)
  }

  // ---- Responses ----

  datatype Response =
    | Listed(machines: seq<EnrichedMachine>, count: nat, offset: nat, limit: nat)
    | Created(machine: Option<Machine>)
    | Failed(status: nat, error: string, details: string)

  function StatusCode(r: Response): nat {
    match r
    case Listed(_, _, _, _) => 200
    case Created(_) => 201
    case Failed(status, _, _) => status
  }

  /** `error instanceof Error ? error.message : "Unknown error"` */
  function Details(e: Thrown): string {
    if e.isError then e.message else "Unknown error"
  }

  /** The listing response, given what the page query and the count query
      returned. Brand lookups never decide the status. */
  function ListResponse(page: Result<seq<Machine>, Thrown>, total: Result<nat, Thrown>, p: Pagination,
                        retrieveBrand: string -> Result<Brand, Thrown>): (r: Response)
    ensures StatusCode(r) == 200 <==> page.Success? && total.Success?
    ensures r.Listed? <==> page.Success? && total.Success?
    ensures StatusCode(r) == 200 || StatusCode(r) == 500
    ensures r.Listed? ==>
      && |r.machines| == |page.value|
      && (forall i :: 0 <= i < |r.machines| ==> r.machines[i] == EnrichOne(page.value[i], retrieveBrand))
      && r.count == total.value && r.offset == p.skip && r.limit == p.take
    ensures page.Failure? ==> r == Failed(500, "Failed to fetch machines", Details(page.error))
    ensures page.Success? && total.Failure? ==> r == Failed(500, "Failed to fetch machines", Details(total.error))
  {
    match page
    case Failure(e) => Failed(500, "Failed to fetch machines", Details(e))
    case Success(machines) =>
      match total
      case Failure(e) => Failed(500, "Failed to fetch machines", Details(e))
      case Success(count) => Listed(Enrich(machines, retrieveBrand), count, p.skip, p.take)
  }

  /** `GET /admin/machines`: the page and the count are both asked for with
      the request's filter and pagination. */
  method Get(req: ListRequest,
             graph: (Filter, Pagination) -> Result<seq<Machine>, Thrown>,
             listAndCount: (Filter, Pagination) -> Result<nat, Thrown>,
             retrieveBrand: string -> Result<Brand, Thrown>) returns (res: Response)
    ensures exists f :: (IsQueryFilter(req, f) &&
      res == ListResponse(graph(f, PaginationOf(req)), listAndCount(f, PaginationOf(req)), PaginationOf(req), retrieveBrand))
  {
    var filters := BuildFilters(req);
    var p := PaginationOf(req);
    var page := graph(filters, p);
    if page.Failure? {
      return Failed(500, "Failed to fetch machines", Details(page.error));
    }
    var total := listAndCount(filters, p);
    if total.Failure? {
      return Failed(500, "Failed to fetch machines", Details(total.error));
    }
    res := Listed(Enrich(page.value, retrieveBrand), total.value, p.skip, p.take);
  }

  const DuplicateError := "duplicate_error"
  const InvalidData := "invalid_data"

  /** `POST /admin/machines`: runs the creation workflow on `[body]`. */
  function Post<D>(body: D, run: seq<D> -> Result<seq<Machine>, Thrown>): (r: Response)
    ensures StatusCode(r) == 201 <==> run([body]).Success?
    ensures r.Created? ==> var created := run([body]).value;
      r.machine == if |created| > 0 then Some(created[0]) else None
    ensures StatusCode(r) == 409 <==> run([body]).Failure? && run([body]).error.errorType == Some(DuplicateError)
    ensures StatusCode(r) == 400 <==> run([body]).Failure? && run([body]).error.errorType == Some(InvalidData)
    ensures StatusCode(r) == 500 <==>
      run([body]).Failure? && run([body]).error.errorType != Some(DuplicateError) && run([body]).error.errorType != Some(InvalidData)
    ensures r.Failed? ==> (run([body]).Failure? &&
      r.details == if StatusCode(r) == 500 then Details(run([body]).error) else run([body]).error.message)
    ensures r.Failed? ==>
      r.error == match StatusCode(r)
        case 409 => "Duplicate machine"
        case 400 => "Invalid data"
        case _ => "Failed to create machine"
  {
    match run([body])
    case Success(created) => Created(if |created| > 0 then Some(created[0]) else None)
    case Failure(e) =>
      if e.errorType == Some(DuplicateError) then Failed(409, "Duplicate machine", e.message)
      else if e.errorType == Some(InvalidData) then Failed(400, "Invalid data", e.message)
      else Failed(500, "Failed to create machine", Details(e))
  }

  // ---- What the search clauses select ----

  /** The text a column holds in a stored record (Absent for columns that are
      not text). */
  function Column(m: Machine, name: string): Field<string> {
    if name == "id" then Present(m.id)
    else if name == "brand_id" then m.brand_id
    else if name == "model_number" then Present(m.model_number)
    else if name == "serial_number" then Present(m.serial_number)
    else if name == "license_plate" then m.license_plate
    else if name == "machine_type" then m.machine_type
    else if name == "status" then Present(m.status)
    else if name == "description" then m.description
    else if name == "notes" then m.notes
    else if name == "customer_id" then m.customer_id
    else Absent
  }

  /** A null column matches no pattern, as in SQL. */
  predicate ClauseHolds(m: Machine, c: Clause) {
    var v := Column(m, c.column);
    v.Present? && Matching.ILike(c.pattern, v.value)
  }

  predicate AnyClauseHolds(m: Machine, cs: seq<Clause>) {
    exists i :: 0 <= i < |cs| && ClauseHolds(m, cs[i])
  }

  predicate Mentions(f: Field<string>, q: string) {
    f.Present? && Matching.ContainsFolded(f.value, q)
  }

  /** For search text without wildcards, the `$or` clauses select exactly the
      records where one of the five columns contains the text, ignoring case. */
  lemma SearchMeaning(m: Machine, q: string)
    requires Matching.NoWildcards(q)
    ensures AnyClauseHolds(m, SearchClauses(q)) <==>
      || Matching.ContainsFolded(m.model_number, q)
      || Matching.ContainsFolded(m.serial_number, q)
      || Mentions(m.machine_type, q)
      || Mentions(m.description, q)
      || Mentions(m.notes, q)
  {
    var cs := SearchClauses(q);
    var p := Matching.SubstringPattern(q);
    Matching.SubstringPatternMeaning(q, m.model_number);
    Matching.SubstringPatternMeaning(q, m.serial_number);
    if m.machine_type.Present? { Matching.SubstringPatternMeaning(q, m.machine_type.value); }
    if m.description.Present? { Matching.SubstringPatternMeaning(q, m.description.value); }
    if m.notes.Present? { Matching.SubstringPatternMeaning(q, m.notes.value); }
    if AnyClauseHolds(m, cs) {
      var i :| 0 <= i < |cs| && ClauseHolds(m, cs[i]);
      assert i == 0 || i == 1 || i == 2 || i == 3 || i == 4;
    }
    if Matching.ContainsFolded(m.model_number, q) { assert ClauseHolds(m, cs[0]); }
    if Matching.ContainsFolded(m.serial_number, q) { assert ClauseHolds(m, cs[1]); }
    if Mentions(m.machine_type, q) { assert ClauseHolds(m, cs[2]); }
    if Mentions(m.description, q) { assert ClauseHolds(m, cs[3]); }
    if Mentions(m.notes, q) { assert ClauseHolds(m, cs[4]); }
  }

  /** The `machine_type` condition selects the records whose machine type
      contains the sent text, ignoring case. */
  lemma MachineTypeMeaning(m: Machine, v: string)
    requires Matching.NoWildcards(v)
    ensures ClauseHolds(m, Clause("machine_type", Matching.SubstringPattern(v))) <==> Mentions(m.machine_type, v)
  {
    if m.machine_type.Present? {
      Matching.SubstringPatternMeaning(v, m.machine_type.value);
    }
  }

  /** Search text is not escaped: searching for "%" selects every record. */
  lemma PercentSearchSelectsAll(m: Machine)
    ensures AnyClauseHolds(m, SearchClauses("%"))
  {
    Matching.UnescapedPercentMatchesAll(m.model_number);
    assert ClauseHolds(m, SearchClauses("%")[0]);
  }
}
