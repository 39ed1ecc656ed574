/** The technicians list page: the query string it sends for a page of the
    table, how it reads the response, and how it shows a status. */
module TechniciansPage {
  import opened Values
  import Decimal

  /** Rows per page; also the `limit` sent. */
  const PageSize: nat := 15

  type Param = (string, string)

  /** The browser's `URLSearchParams`: an ordered list of name/value pairs. */
  class SearchParams {
    var entries: seq<Param>

    constructor (init: seq<Param>)
      ensures entries == init
    {
      entries := init;
    }

    method Append(name: string, value: string)
      modifies this
      ensures entries == old(entries) + [(name, value)]
    {
      entries := entries + [(name, value)];
    }
  }

  /** `getAll(name)`: the values under `name`, in the order they were added. */
  function ValuesOf(ps: seq<Param>, name: string): seq<string>
    decreases |ps|
  {
    if ps == [] then []
    else (if ps[0].0 == name then [ps[0].1] else []) + ValuesOf(ps[1..], name)
  }

  datatype PaginationState = PaginationState(pageIndex: nat, pageSize: nat)
  datatype Sorting = Sorting(id: string, desc: bool)

  /** The selected values of one filter (`filtering[key] || []`). */
  function Selected(filtering: map<string, seq<string>>, key: string): seq<string> {
    if key in filtering then filtering[key] else []
  }

  /** The sort order parameter: a "-" in front of the column for descending. */
  function OrderValue(s: Sorting): string {
    (if s.desc then "-" else "") + s.id
  }

  /** One pair per value, all under `name`. */
  function Tagged(name: string, vs: seq<string>): (ps: seq<Param>)
    ensures |ps| == |vs|
  {
    seq(|vs|, i requires 0 <= i < |vs| => (name, vs[i]))
  }

  /** `limit` and `offset`, the parameters every request starts with. */
  function PagePart(pageIndex: nat): seq<Param> {
    [("limit", Decimal.NatToString(PageSize)), ("offset", Decimal.NatToString(pageIndex * PageSize))]
  }

  function SearchPart(search: string): seq<Param> {
    if search != "" then [("q", search)] else []
  }

  function OrderPart(sorting: Option<Sorting>): seq<Param> {
    match sorting
    case None => []
    case Some(s) => [("order", OrderValue(s))]
  }

  /** The query string the page sends, in sending order. */
  function TechnicianQuery(pagination: PaginationState, search: string, filtering: map<string, seq<string>>,
                           sorting: Option<Sorting>): seq<Param>
  {
    PagePart(pagination.pageIndex)
    + SearchPart(search)
    + Tagged("status", Selected(filtering, "status"))
    + Tagged("department", Selected(filtering, "department"))
    + OrderPart(sorting)
  }

  /** Appends one pair per value, in order. */
  method AppendAll(params: SearchParams, name: string, vs: seq<string>)
    modifies params
    ensures params.entries == old(params.entries) + Tagged(name, vs)
  {
    var i := 0;
    while i < |vs|
      invariant 0 <= i <= |vs|
      invariant params.entries == old(params.entries) + Tagged(name, vs[..i])
    {
      assert Tagged(name, vs[..i + 1]) == Tagged(name, vs[..i]) + [(name, vs[i])];
      params.Append(name, vs[i]);
      i := i + 1;
    }
    assert vs[..i] == vs;
  }

  /** Builds the request parameters by appending to a fresh `URLSearchParams`. */
  method BuildTechnicianQuery(pagination: PaginationState, search: string, filtering: map<string, seq<string>>,
                              sorting: Option<Sorting>) returns (query: seq<Param>)
    ensures query == TechnicianQuery(pagination, search, filtering, sorting)
  {
    var offset := pagination.pageIndex * PageSize;
    var statusFilters := Selected(filtering, "status");
    var departmentFilters := Selected(filtering, "department");
    var params := new SearchParams([("limit", Decimal.NatToString(PageSize)), ("offset", Decimal.NatToString(offset))]);
    if search != "" {
      params.Append("q", search);
    }
    if |statusFilters| > 0 {
      AppendAll(params, "status", statusFilters);
    }
    if |departmentFilters| > 0 {
      AppendAll(params, "department", departmentFilters);
    }
    if sorting.Some? {
      params.Append("order", OrderValue(sorting.value));
    }
    query := params.entries;
    assert Tagged("status", []) == [] && Tagged("department", []) == [];
  }

  lemma {:induction false} ValuesOfConcat(a: seq<Param>, b: seq<Param>, name: string)
    ensures ValuesOf(a + b, name) == ValuesOf(a, name) + ValuesOf(b, name)
    decreases |a|
  {
    if a == [] {
      assert a + b == b;
    } else {
      ValuesOfConcat(a[1..], b, name);
      assert (a + b)[0] == a[0] && (a + b)[1..] == a[1..] + b;
    }
  }

  lemma ValuesOfSingle(p: Param, name: string)
    ensures ValuesOf([p], name) == if p.0 == name then [p.1] else []
  {
    assert [p][1..] == [];
  }

  lemma {:induction false} ValuesOfTagged(tag: string, vs: seq<string>, name: string)
    ensures ValuesOf(Tagged(tag, vs), name) == if tag == name then vs else []
    decreases |vs|
  {
    if vs != [] {
      ValuesOfTagged(tag, vs[1..], name);
      assert Tagged(tag, vs)[1..] == Tagged(tag, vs[1..]);
    }
  }

  lemma PagePartValues(pageIndex: nat, name: string)
    requires name != "limit" && name != "offset"
    ensures ValuesOf(PagePart(pageIndex), name) == []
  {
    var page := PagePart(pageIndex);
    assert page == [page[0]] + [page[1]];
    ValuesOfConcat([page[0]], [page[1]], name);
    ValuesOfSingle(page[0], name);
    ValuesOfSingle(page[1], name);
  }

  lemma SearchPartValues(search: string, name: string)
    ensures ValuesOf(SearchPart(search), name) == if name == "q" && search != "" then [search] else []
  {
    if search != "" { ValuesOfSingle(("q", search), name); }
  }

  lemma OrderPartValues(sorting: Option<Sorting>, name: string)
    ensures ValuesOf(OrderPart(sorting), name) == if name == "order" && sorting.Some? then [OrderValue(sorting.value)] else []
  {
    if sorting.Some? { ValuesOfSingle(("order", OrderValue(sorting.value)), name); }
  }

  /** The values under any name other than `limit` and `offset`, piece by piece. */
  lemma ValuesOfQuery(pagination: PaginationState, search: string, filtering: map<string, seq<string>>,
                      sorting: Option<Sorting>, name: string)
    requires name != "limit" && name != "offset"
    ensures ValuesOf(TechnicianQuery(pagination, search, filtering, sorting), name)
      == ValuesOf(SearchPart(search), name)
       + (if name == "status" then Selected(filtering, "status") else [])
       + (if name == "department" then Selected(filtering, "department") else [])
       + ValuesOf(OrderPart(sorting), name)
  {
    var page := PagePart(pagination.pageIndex);
    var q := SearchPart(search);
    var st := Tagged("status", Selected(filtering, "status"));
    var dp := Tagged("department", Selected(filtering, "department"));
    var ord := OrderPart(sorting);
    ValuesOfConcat(page + q + st + dp, ord, name);
    ValuesOfConcat(page + q + st, dp, name);
    ValuesOfConcat(page + q, st, name);
    ValuesOfConcat(page, q, name);
    PagePartValues(pagination.pageIndex, name);
    ValuesOfTagged("status", Selected(filtering, "status"), name);
    ValuesOfTagged("department", Selected(filtering, "department"), name);
  }

  /** The values `name` carries in the query: one `q` when searching, every
      selected status and department in selection order, one `order` when
      sorting. */
  lemma QueryValues(pagination: PaginationState, search: string, filtering: map<string, seq<string>>,
                    sorting: Option<Sorting>)
    ensures var query := TechnicianQuery(pagination, search, filtering, sorting);
      && ValuesOf(query, "q") == (if search != "" then [search] else [])
      && ValuesOf(query, "status") == Selected(filtering, "status")
      && ValuesOf(query, "department") == Selected(filtering, "department")
      && ValuesOf(query, "order") == (match sorting case None => [] case Some(s) => [OrderValue(s)])
  {
    ValuesOfQuery(pagination, search, filtering, sorting, "q");
    ValuesOfQuery(pagination, search, filtering, sorting, "status");
    ValuesOfQuery(pagination, search, filtering, sorting, "department");
    ValuesOfQuery(pagination, search, filtering, sorting, "order");
    SearchPartValues(search, "q");
    SearchPartValues(search, "status");
    SearchPartValues(search, "department");
    SearchPartValues(search, "order");
    OrderPartValues(sorting, "q");
    OrderPartValues(sorting, "status");
    OrderPartValues(sorting, "department");
    OrderPartValues(sorting, "order");
  }

  /** `limit` comes first and is always 15; `offset` comes second and reads
      back as pageIndex × 15. */
  lemma QueryPage(pagination: PaginationState, search: string, filtering: map<string, seq<string>>,
                  sorting: Option<Sorting>)
    ensures var query := TechnicianQuery(pagination, search, filtering, sorting);
      && |query| >= 2
      && query[0] == ("limit", "15")
      && query[1].0 == "offset"
      && Decimal.AllDigits(query[1].1)
      && Decimal.ParseDigits(query[1].1) == pagination.pageIndex * PageSize
  {
    assert Decimal.DigitChar(1) == '1' && Decimal.DigitChar(5) == '5';
    assert Decimal.NatToString(1) == "1";
    assert 15 / 10 == 1 && 15 % 10 == 5;
    assert Decimal.NatToString(15) == Decimal.NatToString(1) + [Decimal.DigitChar(5)];
    assert Decimal.NatToString(PageSize) == "15";
    Decimal.ParseNatToString(pagination.pageIndex * PageSize);
  }

  /** When sorting, `order` is the last parameter sent. */
  lemma QueryOrderLast(pagination: PaginationState, search: string, filtering: map<string, seq<string>>, s: Sorting)
    ensures var query := TechnicianQuery(pagination, search, filtering, Some(s));
      query[|query| - 1] == ("order", OrderValue(s))
    ensures OrderValue(s) == if s.desc then "-" + s.id else s.id
  {
    assert "" + s.id == s.id;
  }

  // ---- Response and display ----

  datatype Technician = Technician(id: string, first_name: string, last_name: string, email: string, status: string)

  /** The response body as it arrives. */
  datatype TechniciansBody = TechniciansBody(technicians: Field<seq<Technician>>, count: Field<int>)

  datatype TechnicianList = TechnicianList(technicians: seq<Technician>, count: int)

  /** `{ technicians: data.technicians || [], count: data.count || 0 }` */
  function NormaliseResponse(body: TechniciansBody): (r: TechnicianList)
    ensures body.technicians.Present? ==> r.technicians == body.technicians.value
    ensures !body.technicians.Present? ==> r.technicians == []
    ensures r.count == 0 <==> !body.count.Present? || body.count.value == 0
    ensures r.count != 0 ==> r.count == body.count.value
  {
    TechnicianList(
      if body.technicians.Present? then body.technicians.value else [],
      if body.count.Present? && body.count.value != 0 then body.count.value else 0)
  }

  /** Reading an already read response changes nothing. */
  lemma NormaliseIdempotent(body: TechniciansBody)
    ensures var r := NormaliseResponse(body);
      NormaliseResponse(TechniciansBody(Present(r.technicians), Present(r.count))) == r
  {
  }

  /** `toUpperCase` of one character (ASCII letters only). */
  function UpperChar(c: char): char {
    if 'a' <= c <= 'z' then (c as int - 'a' as int + 'A' as int) as char else c
  }

  /** The badge text for a status. */
  function StatusLabel(status: string): (shown: string)
    ensures status == "on_leave" ==> shown == "On Leave"
    ensures status != "on_leave" ==> |shown| == |status|
    ensures status != "on_leave" && status != "" ==> shown[0] == UpperChar(status[0]) && shown[1..] == status[1..]
  {
    if status == "on_leave" then "On Leave"
    else if status == "" then ""
    else [UpperChar(status[0])] + status[1..]
  }

  datatype Colour = Green | Orange | Red

  /** The badge colour for a status. */
  function StatusColour(status: string): (c: Colour)
    ensures c == Green <==> status == "active"
    ensures c == Orange <==> status == "on_leave"
    ensures c == Red <==> status != "active" && status != "on_leave"
  {
    if status == "active" then Green else if status == "on_leave" then Orange else Red
  }

  /** The status filter's options, as (label, value). */
  const StatusOptions: seq<(string, string)> := [("Active", "active"), ("Inactive", "inactive"), ("On Leave", "on_leave")]

  /** The badge of every status the filter offers reads as that option's
      label, and the three get distinct labels and colours. */
  lemma BadgesMatchFilterOptions()
    ensures forall i :: 0 <= i < |StatusOptions| ==> StatusLabel(StatusOptions[i].1) == StatusOptions[i].0
    ensures forall i, j :: 0 <= i < j < |StatusOptions| ==>
      StatusLabel(StatusOptions[i].1) != StatusLabel(StatusOptions[j].1)
      && StatusColour(StatusOptions[i].1) != StatusColour(StatusOptions[j].1)
  {
    assert StatusLabel("active") == "Active";
    assert StatusLabel("inactive") == "Inactive";
  }
}
