/** `GET /api/admin/users`: the admin key gate, then one page of profiles, newest first,
    with the pagination block. `parseInt` yields `NaN` for text without digits (`None`
    here), and `NaN` carries through the arithmetic. */
module AdminUsers {
  import opened Wrappers
  import opened Types
  import opened Text
  import AdminStats

  const DEFAULT_PAGE: string := "1"
  const DEFAULT_LIMIT: string := "20"

  /** `parseInt(searchParams.get(name) || fallback)`: an absent or empty parameter reads
      as the fallback. */
  function ParamValue(param: Option<string>, fallback: string): (v: Option<int>)
    ensures param.None? || param.value == "" ==> v == ParseInt(fallback)
    ensures param.Some? && param.value != "" ==> v == ParseInt(param.value)
  {
    ParseInt(StringOr(param, fallback))
  }

  /** Without parameters the page is 1 and the limit 20. */
  lemma DefaultPaging()
    ensures ParamValue(None, DEFAULT_PAGE) == Some(1)
    ensures ParamValue(None, DEFAULT_LIMIT) == Some(20)
  {
    DefaultPageIsOne();
    DefaultLimitIsTwenty();
  }

  lemma DefaultPageIsOne()
    ensures ParseInt(DEFAULT_PAGE) == Some(1)
  {
    assert DEFAULT_PAGE == ['1'];
    SingleDigit('1');
  }

  /** A one-digit numeral reads as that digit. */
  lemma SingleDigit(c: char)
    requires '0' <= c <= '9'
    ensures ParseInt([c]) == Some(c as int - '0' as int)
  {
    DigitRunAllDigits([c]);
    ParseIntOfDigits([c]);
    assert [c][..0] == [];
  }

  lemma DefaultLimitIsTwenty()
    ensures ParseInt(DEFAULT_LIMIT) == Some(20)
  {
    var twenty := DEFAULT_LIMIT;
    assert |twenty| == 2 && twenty[0] == '2' && twenty[1] == '0';
    DigitRunAllDigits(twenty);
    ParseIntOfDigits(twenty);
    assert twenty[..1] == "2" && twenty[..1][..0] == [];
    assert DigitsValue("2", 10) == 2;
  }

  /** `offset = (page - 1) * limit`. */
  function Offset(page: int, limit: int): int { (page - 1) * limit }

  /** The inclusive row range `.range(offset, offset + limit - 1)`. */
  function RangeStart(page: int, limit: int): int { Offset(page, limit) }
  function RangeEnd(page: int, limit: int): int { Offset(page, limit) + limit - 1 }

  /** The inclusive range holds exactly `limit` rows, the first page starts at row 0, and
      consecutive pages meet without gap or overlap. */
  lemma RangesTile(page: int, limit: int)
    ensures RangeEnd(page, limit) - RangeStart(page, limit) + 1 == limit
    ensures RangeStart(1, limit) == 0
    ensures RangeEnd(page, limit) + 1 == RangeStart(page + 1, limit)
  {
  }

  /** `Math.ceil(x)`. */
  function Ceil(x: real): (c: int)
    ensures c as real >= x && (c as real) - 1.0 < x
  {
    -((-x).Floor)
  }

  /** `Math.ceil(total / limit)`: a number whenever the limit is a non-zero number;
      `NaN` (`None`) for a `NaN` limit, and for limit 0 (`0 / 0` is `NaN`, any other
      total over 0 is infinite, and JSON writes both as null). For a positive limit the
      pages hold every row and the last page is not empty. */
  function Pages(total: nat, limit: Option<int>): (p: Option<int>)
    ensures p.Some? <==> limit.Some? && limit.value != 0
    ensures p.Some? && limit.value > 0 ==>
      && (p.value as real) * (limit.value as real) >= total as real
      && ((p.value - 1) as real) * (limit.value as real) < total as real
    ensures p.Some? && total == 0 ==> p.value == 0
  {
    match limit
    case None => None
    case Some(l) =>
      if l == 0 then None
      else
        var c := Ceil(total as real / l as real);
        PagesEnough(total, l, c);
        PagesOfNothing(total, l, c);
        Some(c)
  }

  /** For a positive limit, the rounded-up quotient is exactly enough pages. */
  lemma PagesEnough(total: nat, l: int, c: int)
    requires l != 0 && c as real >= total as real / l as real && (c as real) - 1.0 < total as real / l as real
    ensures l > 0 ==> (c as real) * (l as real) >= total as real && ((c - 1) as real) * (l as real) < total as real
  {
    if l > 0 {
      var cr, lr, tr := c as real, l as real, total as real;
      var q := tr / lr;
      assert q * lr == tr;
      ScaleUp(q, cr, lr);
      ScaleUp(cr - 1.0, q, lr);
      assert (cr - 1.0) * lr < tr;
      var d := (c - 1) as real;
      assert d == cr - 1.0;
      assert d * lr == (cr - 1.0) * lr;
    }
  }

  /** No rows need no pages. */
  lemma PagesOfNothing(total: nat, l: int, c: int)
    requires l != 0 && c as real >= total as real / l as real && (c as real) - 1.0 < total as real / l as real
    ensures total == 0 ==> c == 0
  {
    if total == 0 {
      assert total as real / l as real == 0.0;
    }
  }

  lemma ScaleUp(a: real, b: real, n: real)
    requires n > 0.0
    ensures a <= b ==> a * n <= b * n
    ensures a < b ==> a * n < b * n
  {
  }

  datatype Pagination = Pagination(page: Option<int>, limit: Option<int>, total: nat, pages: Option<int>)

  /** The profiles query's outcome: the page of rows (`data`, possibly null) with the exact
      count, or the store's error message. */
  datatype QueryResult = QueryOk(data: Option<seq<Profile>>, count: Option<nat>) | QueryError(message: string)

  /** The query, given the inclusive row range (`NaN` bounds are `None`). */
  type ProfileQuery = (Option<int>, Option<int>) -> QueryResult

  datatype UsersResponse =
    | Unauthorized
    | ServerError(error: string)
    | UsersPage(users: Option<seq<Profile>>, pagination: Pagination)

  function HttpStatus(r: UsersResponse): (code: int)
    ensures code == 401 <==> r.Unauthorized?
    ensures code == 500 <==> r.ServerError?
    ensures code == 200 <==> r.UsersPage?
  {
    match r
    case Unauthorized => 401
    case ServerError(_) => 500
    case UsersPage(_, _) => 200
  }

  function Lift2(a: Option<int>, b: Option<int>, f: (int, int) -> int): Option<int> {
    if a.Some? && b.Some? then Some(f(a.value, b.value)) else None
  }

  /** The handler. */
  function Get(header: Option<string>, adminKey: Option<string>,
               pageParam: Option<string>, limitParam: Option<string>, query: ProfileQuery): (r: UsersResponse)
    ensures !AdminStats.CheckAdminKey(header, adminKey) <==> r == Unauthorized
    ensures AdminStats.CheckAdminKey(header, adminKey) ==>
      var page := ParamValue(pageParam, DEFAULT_PAGE);
      var limit := ParamValue(limitParam, DEFAULT_LIMIT);
      match query(Lift2(page, limit, RangeStart), Lift2(page, limit, RangeEnd))
      case QueryError(message) => r == ServerError(message)
      case QueryOk(data, count) =>
        r == UsersPage(data, Pagination(page, limit, OptionOr(count, 0), Pages(OptionOr(count, 0), limit)))
  {
    if !AdminStats.CheckAdminKey(header, adminKey) then Unauthorized
    else
      var page := ParamValue(pageParam, DEFAULT_PAGE);
      var limit := ParamValue(limitParam, DEFAULT_LIMIT);
      match query(Lift2(page, limit, RangeStart), Lift2(page, limit, RangeEnd))
      case QueryError(message) => ServerError(message)
      case QueryOk(data, count) =>
        var total := OptionOr(count, 0);
        UsersPage(data, Pagination(page, limit, total, Pages(total, limit)))
  }

  /** The gate comes before the query: without the key any two stores answer alike. */
  lemma GateBeforeQuery(header: Option<string>, adminKey: Option<string>,
                        pageParam: Option<string>, limitParam: Option<string>, q: ProfileQuery, q': ProfileQuery)
    requires !AdminStats.CheckAdminKey(header, adminKey)
    ensures Get(header, adminKey, pageParam, limitParam, q) == Get(header, adminKey, pageParam, limitParam, q') == Unauthorized
  {
  }

  /** With no parameters the first twenty rows are asked for. */
  lemma DefaultRangeIsFirstTwenty(header: Option<string>, adminKey: Option<string>, query: ProfileQuery)
    ensures var page := ParamValue(None, DEFAULT_PAGE);
      var limit := ParamValue(None, DEFAULT_LIMIT);
      Lift2(page, limit, RangeStart) == Some(0) && Lift2(page, limit, RangeEnd) == Some(19)
  {
    DefaultPaging();
  }
}
