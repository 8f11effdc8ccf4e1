/** The dashboard's monthly metrics: which summary a role requests for the
    current month, and the four figures and badges the cards show. */
module EcommerceMetrics {
  import opened Common
  import LocalStorage

  /** The monthly summary; a figure the server leaves out is None. The two
      totals are sums of item prices and so need not be whole; the order and
      item counts are. */
  datatype MonthlySummary = MonthlySummary(
    monthlyTotalPrice: Option<real>, monthlyTotalHospitalPrice: Option<real>,
    monthlyTotalOrders: Option<int>, monthlyTotalItems: Option<int>)

  datatype MetricsQuery = SupplierMonthly(supplierId: string, year: int, month: int) | AllMonthly

  /** What a session user requests, given the clock's year and zero-based
      month: a supplier its own summary for `month + 1`, management the
      overall one, any other role nothing. */
  function QueryFor(role: string, roleId: string, year: int, monthIndex: int): (q: Option<MetricsQuery>)
    requires 0 <= monthIndex < 12
    ensures q.Some? <==> role == "supplier" || role == "management"
    ensures role == "supplier" ==> q == Some(SupplierMonthly(roleId, year, monthIndex + 1))
    ensures q.Some? && q.value.SupplierMonthly? ==> 1 <= q.value.month <= 12
    ensures role == "management" ==> q == Some(AllMonthly)
  {
    if role == "supplier" then Some(SupplierMonthly(roleId, year, monthIndex + 1))
    else if role == "management" then Some(AllMonthly)
    else None
  }

  /** `value?.toLocaleString() || "0"`: a missing figure shows as `zero`,
      the 0 of the figure's type (0.0 for a total, 0 for a count; the locale
      formatting of the number is not modelled). */
  function Shown<T>(metrics: Option<MonthlySummary>, pick: MonthlySummary -> Option<T>, zero: T): (r: T)
    ensures metrics.None? ==> r == zero
    ensures metrics.Some? && pick(metrics.value).Some? ==> r == pick(metrics.value).value
    ensures metrics.Some? && pick(metrics.value).None? ==> r == zero
  {
    if metrics.Some? then Coalesce(pick(metrics.value), zero) else zero
  }

  /** The four cards: a fractional total is shown as it is, and a summary
      without figures shows 0 on every card. */
  lemma CardsShown(m: MonthlySummary)
    ensures m.monthlyTotalPrice == Some(1234.5) ==> Shown(Some(m), (s: MonthlySummary) => s.monthlyTotalPrice, 0.0) == 1234.5
    ensures m == MonthlySummary(None, None, None, None) ==>
      Shown(Some(m), (s: MonthlySummary) => s.monthlyTotalPrice, 0.0) == 0.0
      && Shown(Some(m), (s: MonthlySummary) => s.monthlyTotalHospitalPrice, 0.0) == 0.0
      && Shown(Some(m), (s: MonthlySummary) => s.monthlyTotalOrders, 0) == 0
      && Shown(Some(m), (s: MonthlySummary) => s.monthlyTotalItems, 0) == 0
  {
  }

  /** The badge of each card and the hospital-price caption. */
  function ViewBadge(userRole: string): (r: string)
    ensures r == "Manager View" <==> userRole == "management"
    ensures userRole != "management" ==> r == "Supplier View"
  {
    if userRole == "management" then "Manager View" else "Supplier View"
  }

  function HospitalPriceCaption(userRole: string): (r: string)
    ensures r == "Hospital Price" <==> userRole == "supplier"
    ensures userRole != "supplier" ==> r == "Total Hospital Price"
  {
    if userRole == "supplier" then "Hospital Price" else "Total Hospital Price"
  }

  /** The two labels test different roles: an employee's cards say "Supplier
      View" and keep the manager's "Total Hospital Price" caption, while a
      supplier's say "Supplier View" with "Hospital Price". */
  lemma EmployeeLabelsMixed()
    ensures ViewBadge("normalEmployee") == ViewBadge("supplier") == "Supplier View"
    ensures HospitalPriceCaption("normalEmployee") == HospitalPriceCaption("management") == "Total Hospital Price"
    ensures HospitalPriceCaption("supplier") != HospitalPriceCaption("normalEmployee")
  {
  }

  class MetricsCards {
    var metrics: Option<MonthlySummary>
    var loading: bool
    var userRole: string
    var toasts: seq<string>

    constructor ()
      ensures metrics.None? && loading && userRole == "" && toasts == []
    {
      metrics := None;
      loading := true;
      userRole := "";
      toasts := [];
    }

    /** The fetch on mount. A user without a role id is stopped before the
        role is recorded; the summary wrappers swallow their own failures and
        answer `undefined`, which leaves the figures as they were. */
    method FetchMetrics(user: LocalStorage.SessionUser, year: int, monthIndex: int,
                        response: Option<MonthlySummary>) returns (query: Option<MetricsQuery>)
      requires 0 <= monthIndex < 12
      modifies this
      ensures !loading
      ensures user.roleId == "" ==> (query.None? && userRole == old(userRole)
        && metrics == old(metrics) && toasts == old(toasts) + ["User ID not found"])
      ensures user.roleId != "" ==> (
        userRole == user.role && query == QueryFor(user.role, user.roleId, year, monthIndex)
        && (query.None? ==> metrics == old(metrics) && toasts == old(toasts) + ["Unauthorized role"])
        && (query.Some? ==> metrics == (if response.Some? then response else old(metrics)) && toasts == old(toasts)))
    {
      loading := true;
      if user.roleId == "" {
        toasts := toasts + ["User ID not found"];
        query := None;
        loading := false;
        return;
      }
      userRole := user.role;
      query := QueryFor(user.role, user.roleId, year, monthIndex);
      if query.None? {
        toasts := toasts + ["Unauthorized role"];
      } else if response.Some? {
        metrics := response;
      }
      loading := false;
    }
  }

  /** A dashboard mounted for any role other than supplier or management
      makes no fetch, whatever a summary call would have answered, and every
      figure its cards show is 0. */
  method OtherRoleSeesZeroes<T>(user: LocalStorage.SessionUser, year: int, monthIndex: int,
                             response: Option<MonthlySummary>, pick: MonthlySummary -> Option<T>, zero: T)
      returns (cards: MetricsCards, query: Option<MetricsQuery>)
    requires 0 <= monthIndex < 12
    requires user.role != "supplier" && user.role != "management"
    ensures query.None? && cards.metrics.None? && !cards.loading
    ensures Shown(cards.metrics, pick, zero) == zero
    ensures ViewBadge(cards.userRole) == "Supplier View"
    ensures cards.toasts == [if user.roleId == "" then "User ID not found" else "Unauthorized role"]
  {
    cards := new MetricsCards();
    query := cards.FetchMetrics(user, year, monthIndex, response);
  }
}
