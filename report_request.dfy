/**
 * The request sent to the Power BI export API: the report-type table that
 * chooses the report and its display name, and `BuildReportingRequest`, which
 * turns the request message's accounts, products, dates and statuses into the
 * ordered list of report parameters.
 */
module ReportRequest {
  import opened Common
  import opened Text
  import opened Config

  /** The fields of the deserialized request message that the export reads.
      Each list holds the one field the function reads from its entries:
      `AccountId`, `Sku` and `EmailId`. `None` is a null field. */
  datatype ReportingRequest = ReportingRequest(
    reportType: Option<string>,
    accounts: Option<seq<string>>,
    products: Option<seq<string>>,
    startDate: Option<string>,
    endDate: Option<string>,
    status: Option<string>,
    emailIds: Option<seq<string>>)

  datatype ParameterValue = ParameterValue(name: string, value: string)

  /** The export request body: a format and the paginated report's parameters. */
  datatype PowerBIReportRequest = PowerBIReportRequest(format: string, parameterValues: seq<ParameterValue>)

  const InvoicesType := "invoices"
  const OrdersType := "orders"
  const AllocationsType := "allocations"

  const ExportFormat := "xlsx"

  predicate IsKnownReportType(reportType: Option<string>) {
    reportType == Some(InvoicesType) || reportType == Some(OrdersType) || reportType == Some(AllocationsType)
  }

  // ---------------------------------------------------------------------------
  // The report-type switch of SendReportingEmailUsingPowerBIAPIAsync

  /** The report the export is submitted for and the name its file is sent under. */
  datatype ReportTarget = ReportTarget(reportId: string, fileName: string)

  /** The report id is read from the variable named for the report type; any
      other tag leaves both the id and the file name empty. */
  function SelectReport(env: Env, reportType: Option<string>): (r: ReportTarget)
    ensures IsKnownReportType(reportType) <==> r.fileName != ""
    ensures !IsKnownReportType(reportType) ==> r == ReportTarget("", "")
    ensures reportType == Some(InvoicesType) ==> r.reportId == GetOrEmpty(env, InvoiceReportIdKey)
    ensures reportType == Some(OrdersType) ==> r.reportId == GetOrEmpty(env, OrdersReportIdKey)
    ensures reportType == Some(AllocationsType) ==> r.reportId == GetOrEmpty(env, AllocationsReportIdKey)
  {
    match reportType
    case Some("invoices") => ReportTarget(GetOrEmpty(env, InvoiceReportIdKey), "Invoice History Report")
    case Some("orders") => ReportTarget(GetOrEmpty(env, OrdersReportIdKey), "Order History Report")
    case Some("allocations") => ReportTarget(GetOrEmpty(env, AllocationsReportIdKey), "Allocations Report")
    case _ => ReportTarget("", "")
  }

  // ---------------------------------------------------------------------------
  // The parameter list, as a specification

  const AllocationsAccountName := "EcommerceAllocationsvwCustomerAccount"
  const AllocationsItemName := "EcommerceAllocationsvwItemNumber"

  /** The parameter names of the two history reports, which share one layout. */
  datatype HistoryNames = HistoryNames(account: string, from: string, to: string, status: string)

  const InvoiceNames := HistoryNames(
    "EcommerceInvoiceHistoryvwCustomerAccount",
    "FromEcommerceInvoiceHistoryvwInvoiceDate",
    "ToEcommerceInvoiceHistoryvwInvoiceDate",
    "EcommerceInvoiceHistoryvwInvoiceStatus")

  const OrderNames := HistoryNames(
    "EcommerceOrderHistoryvwCustomerAccount",
    "FromEcommerceOrderHistoryvwOrderdate",
    "ToEcommerceOrderHistoryvwOrderdate",
    "EcommerceOrderHistoryvwHeaderOrderStatus")

  /** A null list contributes what an empty one does. */
  function Listed(xs: Option<seq<string>>): seq<string> {
    xs.GetOr([])
  }

  /** One parameter named `name` per value, in order. */
  function Each(name: string, values: seq<string>): (ps: seq<ParameterValue>)
    ensures |ps| == |values|
  {
    if values == [] then []
    else Each(name, values[..|values| - 1]) + [ParameterValue(name, values[|values| - 1])]
  }

  lemma {:induction false} EachAt(name: string, values: seq<string>, k: int)
    requires 0 <= k < |values|
    ensures Each(name, values)[k] == ParameterValue(name, values[k])
  {
    if k < |values| - 1 {
      EachAt(name, values[..|values| - 1], k);
    }
  }

  /** Adding a value at the end adds its parameter at the end. */
  lemma EachSnoc(name: string, values: seq<string>, v: string)
    ensures Each(name, values + [v]) == Each(name, values) + [ParameterValue(name, v)]
  {
    assert (values + [v])[..|values|] == values;
  }

  /** One parameter when the value is present, none when it is null. */
  function IfPresent(name: string, v: Option<string>): seq<ParameterValue> {
    if v.Some? then [ParameterValue(name, v.value)] else []
  }

  /** Each string trimmed, in order. */
  function TrimAll(pieces: seq<string>): (vs: seq<string>)
    ensures |vs| == |pieces|
  {
    if pieces == [] then [] else TrimAll(pieces[..|pieces| - 1]) + [Trim(pieces[|pieces| - 1])]
  }

  /** Adding a piece at the end adds its trimming at the end. */
  lemma TrimAllSnoc(pieces: seq<string>, p: string)
    ensures TrimAll(pieces + [p]) == TrimAll(pieces) + [Trim(p)]
  {
    assert (pieces + [p])[..|pieces|] == pieces;
  }

  lemma {:induction false} TrimAllAt(pieces: seq<string>, k: int)
    requires 0 <= k < |pieces|
    ensures TrimAll(pieces)[k] == Trim(pieces[k])
  {
    if k < |pieces| - 1 {
      TrimAllAt(pieces[..|pieces| - 1], k);
    }
  }

  /** The trimmed comma-separated pieces of the status string; none for null. */
  function StatusValues(status: Option<string>): seq<string> {
    match status
    case None => []
    case Some(s) => TrimAll(Split(s, ','))
  }

  /** Accounts, then the start date, the end date and the statuses. */
  function HistoryParameters(names: HistoryNames, req: ReportingRequest): seq<ParameterValue> {
    Each(names.account, Listed(req.accounts))
    + IfPresent(names.from, req.startDate)
    + IfPresent(names.to, req.endDate)
    + Each(names.status, StatusValues(req.status))
  }

  /** Accounts, then product SKUs. */
  function AllocationParameters(req: ReportingRequest): seq<ParameterValue> {
    Each(AllocationsAccountName, Listed(req.accounts)) + Each(AllocationsItemName, Listed(req.products))
  }

  function ReportParameters(reportType: Option<string>, req: ReportingRequest): seq<ParameterValue> {
    if reportType == Some(AllocationsType) then AllocationParameters(req)
    else if reportType == Some(InvoicesType) then HistoryParameters(InvoiceNames, req)
    else if reportType == Some(OrdersType) then HistoryParameters(OrderNames, req)
    else []
  }

  /** The body the export is submitted with. */
  function ExportRequestBody(reportType: Option<string>, req: ReportingRequest): PowerBIReportRequest {
    PowerBIReportRequest(ExportFormat, ReportParameters(reportType, req))
  }

  // ---------------------------------------------------------------------------
  // BuildReportingRequest, which appends to a list in loops

  /** A `foreach` over a list that may be null or empty, adding one parameter per entry. */
  method AppendEach(data: seq<ParameterValue>, name: string, values: Option<seq<string>>)
    returns (out: seq<ParameterValue>)
    ensures out == data + Each(name, Listed(values))
  {
    out := data;
    if values.Some? && |values.value| > 0 {
      var vs := values.value;
      for i := 0 to |vs|
        invariant out == data + Each(name, vs[..i])
      {
        assert vs[..i + 1][..i] == vs[..i];
        out := out + [ParameterValue(name, vs[i])];
      }
      assert vs[..|vs|] == vs;
    }
  }

  /** The `foreach` over `Status.Split(',')`, adding one trimmed parameter per piece. */
  method AppendStatuses(data: seq<ParameterValue>, name: string, status: string)
    returns (out: seq<ParameterValue>)
    ensures out == data + Each(name, StatusValues(Some(status)))
  {
    var statuses := Split(status, ',');
    out := data;
    for i := 0 to |statuses|
      invariant out == data + Each(name, TrimAll(statuses[..i]))
    {
      var piece := statuses[i];
      assert statuses[..i + 1] == statuses[..i] + [piece];
      StatusStep(data, name, statuses[..i], piece);
      out := out + [ParameterValue(name, Trim(piece))];
    }
    assert statuses[..|statuses|] == statuses;
  }

  /** One more piece adds its trimmed parameter. */
  lemma StatusStep(data: seq<ParameterValue>, name: string, done: seq<string>, piece: string)
    ensures data + Each(name, TrimAll(done + [piece]))
            == data + Each(name, TrimAll(done)) + [ParameterValue(name, Trim(piece))]
  {
    TrimAllSnoc(done, piece);
    EachSnoc(name, TrimAll(done), Trim(piece));
  }

  /** The invoices and orders branches, which differ only in their names. */
  method AppendHistoryParameters(data: seq<ParameterValue>, names: HistoryNames, req: ReportingRequest)
    returns (out: seq<ParameterValue>)
    ensures out == data + HistoryParameters(names, req)
  {
    ghost var accounts := Each(names.account, Listed(req.accounts));
    ghost var from := IfPresent(names.from, req.startDate);
    ghost var to := IfPresent(names.to, req.endDate);
    ghost var statuses := Each(names.status, StatusValues(req.status));
    out := AppendEach(data, names.account, req.accounts);
    assert out == data + accounts;
    if req.startDate.Some? {
      out := out + [ParameterValue(names.from, req.startDate.value)];
    }
    assert out == data + accounts + from;
    if req.endDate.Some? {
      out := out + [ParameterValue(names.to, req.endDate.value)];
    }
    assert out == data + accounts + from + to;
    if req.status.Some? {
      out := AppendStatuses(out, names.status, req.status.value);
    }
    assert out == data + accounts + from + to + statuses;
    assert HistoryParameters(names, req) == accounts + from + to + statuses;
    Regroup(data, accounts, from, to, statuses);
  }

  lemma Regroup<T>(a: seq<T>, b: seq<T>, c: seq<T>, d: seq<T>, e: seq<T>)
    ensures a + b + c + d + e == a + (b + c + d + e)
  {
  }

  method BuildReportingRequest(reportType: Option<string>, req: ReportingRequest)
    returns (r: PowerBIReportRequest)
    ensures r == ExportRequestBody(reportType, req)
  {
    var parameterValueData: seq<ParameterValue> := [];
    if reportType == Some(AllocationsType) {
      parameterValueData := AppendEach(parameterValueData, AllocationsAccountName, req.accounts);
      parameterValueData := AppendEach(parameterValueData, AllocationsItemName, req.products);
    }
    if reportType == Some(InvoicesType) {
      parameterValueData := AppendHistoryParameters(parameterValueData, InvoiceNames, req);
    }
    if reportType == Some(OrdersType) {
      parameterValueData := AppendHistoryParameters(parameterValueData, OrderNames, req);
    }
    r := PowerBIReportRequest(ExportFormat, parameterValueData);
  }

  // ---------------------------------------------------------------------------
  // What the parameter list is

  /** Any other report type is submitted with no parameters at all, still as xlsx. */
  lemma UnknownReportTypeHasNoParameters(reportType: Option<string>, req: ReportingRequest)
    requires !IsKnownReportType(reportType)
    ensures ExportRequestBody(reportType, req) == PowerBIReportRequest("xlsx", [])
  {
  }

  /** A non-empty parameter list is only ever built for a known report type. */
  lemma ParametersOnlyForKnownReportTypes(env: Env, reportType: Option<string>, req: ReportingRequest)
    requires ReportParameters(reportType, req) != []
    ensures IsKnownReportType(reportType)
    ensures SelectReport(env, reportType).fileName != ""
  {
  }

  /** How many parameters the statuses give: one per comma-separated piece,
      each trimmed and free of commas. */
  lemma StatusValuesArePieces(status: Option<string>)
    ensures status.None? ==> StatusValues(status) == []
    ensures status.Some? ==> |StatusValues(status)| == Count(status.value, ',') + 1
    ensures forall i :: 0 <= i < |StatusValues(status)| ==>
              ',' !in StatusValues(status)[i] && Trim(StatusValues(status)[i]) == StatusValues(status)[i]
  {
    if status.Some? {
      var pieces := Split(status.value, ',');
      var vs := StatusValues(status);
      SplitFacts(status.value, ',');
      forall i | 0 <= i < |vs|
        ensures ',' !in vs[i] && Trim(vs[i]) == vs[i]
      {
        TrimAllAt(pieces, i);
        assert pieces[i] in pieces;
        TrimKeepsOnlySourceCharacters(pieces[i], IsWhiteSpace);
        TrimIdempotent(pieces[i]);
      }
    }
  }

  /** The layout of an invoices or orders parameter list: the accounts in
      order, then the start date if present, the end date if present, and one
      parameter per status piece. */
  lemma {:induction false} HistoryParametersLayout(names: HistoryNames, req: ReportingRequest)
    ensures var ps := HistoryParameters(names, req);
            var a := |Listed(req.accounts)|;
            var f := if req.startDate.Some? then 1 else 0;
            var t := if req.endDate.Some? then 1 else 0;
            var sv := StatusValues(req.status);
            && |ps| == a + f + t + |sv|
            && (forall i :: 0 <= i < a ==> ps[i] == ParameterValue(names.account, Listed(req.accounts)[i]))
            && (req.startDate.Some? ==> ps[a] == ParameterValue(names.from, req.startDate.value))
            && (req.endDate.Some? ==> ps[a + f] == ParameterValue(names.to, req.endDate.value))
            && (forall i :: 0 <= i < |sv| ==> ps[a + f + t + i] == ParameterValue(names.status, sv[i]))
  {
    SectionsLayout(names, Listed(req.accounts), req.startDate, req.endDate, StatusValues(req.status));
  }

  /** The layout of the four sections, over any values. */
  lemma SectionsLayout(names: HistoryNames, accounts: seq<string>, startDate: Option<string>,
                       endDate: Option<string>, sv: seq<string>)
    ensures var ps := Each(names.account, accounts) + IfPresent(names.from, startDate)
                      + IfPresent(names.to, endDate) + Each(names.status, sv);
            var a := |accounts|;
            var f := if startDate.Some? then 1 else 0;
            var t := if endDate.Some? then 1 else 0;
            && |ps| == a + f + t + |sv|
            && (forall i :: 0 <= i < a ==> ps[i] == ParameterValue(names.account, accounts[i]))
            && (startDate.Some? ==> ps[a] == ParameterValue(names.from, startDate.value))
            && (endDate.Some? ==> ps[a + f] == ParameterValue(names.to, endDate.value))
            && (forall i :: 0 <= i < |sv| ==> ps[a + f + t + i] == ParameterValue(names.status, sv[i]))
  {
    var h := Each(names.account, accounts);
    var hf := h + IfPresent(names.from, startDate);
    var hft := hf + IfPresent(names.to, endDate);
    var s := Each(names.status, sv);
    var ps := hft + s;
    forall i | 0 <= i < |h| ensures ps[i] == ParameterValue(names.account, accounts[i]) {
      calc {
        ps[i];
        hft[i];
        hf[i];
        h[i];
        { EachAt(names.account, accounts, i); }
        ParameterValue(names.account, accounts[i]);
      }
    }
    if startDate.Some? {
      assert ps[|h|] == hft[|h|] == hf[|h|];
    }
    forall i | 0 <= i < |sv| ensures ps[|hft| + i] == ParameterValue(names.status, sv[i]) {
      assert ps[|hft| + i] == s[i];
      EachAt(names.status, sv, i);
    }
  }

  /** The invoices list, as its count: |accounts| + [start] + [end] +
      (commas + 1 when there is a status). Products never appear. */
  lemma InvoiceParameterCount(req: ReportingRequest)
    ensures |ReportParameters(Some(InvoicesType), req)|
            == |Listed(req.accounts)|
               + (if req.startDate.Some? then 1 else 0)
               + (if req.endDate.Some? then 1 else 0)
               + (if req.status.Some? then Count(req.status.value, ',') + 1 else 0)
  {
    HistoryParametersLayout(InvoiceNames, req);
    StatusValuesArePieces(req.status);
  }

  /** The orders list has the invoices layout under the order names. */
  lemma OrderParametersFollowInvoiceLayout(req: ReportingRequest)
    ensures |ReportParameters(Some(OrdersType), req)| == |ReportParameters(Some(InvoicesType), req)|
    ensures forall i :: 0 <= i < |ReportParameters(Some(OrdersType), req)| ==>
              ReportParameters(Some(OrdersType), req)[i].value == ReportParameters(Some(InvoicesType), req)[i].value
  {
    HistoryParametersLayout(InvoiceNames, req);
    HistoryParametersLayout(OrderNames, req);
    var orders := HistoryParameters(OrderNames, req);
    var invoices := HistoryParameters(InvoiceNames, req);
    var a := |Listed(req.accounts)|;
    var f := if req.startDate.Some? then 1 else 0;
    var t := if req.endDate.Some? then 1 else 0;
    forall i | 0 <= i < |orders| ensures orders[i].value == invoices[i].value {
      if i < a {
      } else if i < a + f {
        assert i == a;
      } else if i < a + f + t {
        assert i == a + f;
      } else {
        var sv := StatusValues(req.status);
        var k := i - (a + f + t);
        assert 0 <= k < |sv|;
        assert orders[a + f + t + k] == ParameterValue(OrderNames.status, sv[k]);
        assert invoices[a + f + t + k] == ParameterValue(InvoiceNames.status, sv[k]);
      }
    }
  }

  /** The allocations list: the accounts in order, then the product SKUs in order. */
  lemma AllocationParametersLayout(req: ReportingRequest)
    ensures var ps := ReportParameters(Some(AllocationsType), req);
            var accounts := Listed(req.accounts);
            var products := Listed(req.products);
            && |ps| == |accounts| + |products|
            && (forall i :: 0 <= i < |accounts| ==> ps[i] == ParameterValue(AllocationsAccountName, accounts[i]))
            && (forall i :: 0 <= i < |products| ==> ps[|accounts| + i] == ParameterValue(AllocationsItemName, products[i]))
  {
    var accounts := Listed(req.accounts);
    var products := Listed(req.products);
    forall i | 0 <= i < |accounts| ensures Each(AllocationsAccountName, accounts)[i] == ParameterValue(AllocationsAccountName, accounts[i]) {
      EachAt(AllocationsAccountName, accounts, i);
    }
    forall i | 0 <= i < |products| ensures Each(AllocationsItemName, products)[i] == ParameterValue(AllocationsItemName, products[i]) {
      EachAt(AllocationsItemName, products, i);
    }
  }

  /** The history reports ignore products, and allocations ignores the dates
      and the status. */
  lemma IgnoredFields(reportType: Option<string>, req: ReportingRequest, products: Option<seq<string>>,
                      startDate: Option<string>, endDate: Option<string>, status: Option<string>)
    ensures reportType != Some(AllocationsType) ==>
              ReportParameters(reportType, req.(products := products)) == ReportParameters(reportType, req)
    ensures reportType == Some(AllocationsType) ==>
              ReportParameters(reportType, req.(startDate := startDate, endDate := endDate, status := status))
              == ReportParameters(reportType, req)
  {
  }

  /** A null list and an empty list give the same parameters. */
  lemma NullListIsEmptyList(reportType: Option<string>, req: ReportingRequest)
    ensures ReportParameters(reportType, req.(accounts := None)) == ReportParameters(reportType, req.(accounts := Some([])))
    ensures ReportParameters(reportType, req.(products := None)) == ReportParameters(reportType, req.(products := Some([])))
  {
  }

  /** A status of two comma-separated words gives those two words. */
  lemma TwoStatuses(s1: string, s2: string)
    requires ',' !in s1 && ',' !in s2
    requires s1 == [] || (!IsWhiteSpace(s1[0]) && !IsWhiteSpace(s1[|s1| - 1]))
    requires s2 == [] || (!IsWhiteSpace(s2[0]) && !IsWhiteSpace(s2[|s2| - 1]))
    ensures StatusValues(Some(s1 + "," + s2)) == [s1, s2]
  {
    assert Join([s1, s2], ',') == s1 + "," + s2;
    SplitJoin([s1, s2], ',');
    TrimKeepsTrimmed(s1);
    TrimKeepsTrimmed(s2);
    assert Split(s1 + "," + s2, ',') == [s1, s2];
    assert [s1, s2][..1] == [s1];
    assert [s1][..0] == [];
    assert TrimAll([s1]) == [s1];
  }

  /** The invoices example: one account, both dates and a status of two
      words ("Open,Closed", say) give five parameters, in this order, whatever
      the recipients. */
  lemma InvoiceExample(account: string, startDate: string, endDate: string, s1: string, s2: string,
                       emailIds: Option<seq<string>>)
    requires ',' !in s1 && ',' !in s2
    requires s1 == [] || (!IsWhiteSpace(s1[0]) && !IsWhiteSpace(s1[|s1| - 1]))
    requires s2 == [] || (!IsWhiteSpace(s2[0]) && !IsWhiteSpace(s2[|s2| - 1]))
    ensures ReportParameters(Some(InvoicesType),
              ReportingRequest(Some(InvoicesType), Some([account]), None, Some(startDate), Some(endDate),
                               Some(s1 + "," + s2), emailIds))
            == [ParameterValue("EcommerceInvoiceHistoryvwCustomerAccount", account),
                ParameterValue("FromEcommerceInvoiceHistoryvwInvoiceDate", startDate),
                ParameterValue("ToEcommerceInvoiceHistoryvwInvoiceDate", endDate),
                ParameterValue("EcommerceInvoiceHistoryvwInvoiceStatus", s1),
                ParameterValue("EcommerceInvoiceHistoryvwInvoiceStatus", s2)]
  {
    TwoStatuses(s1, s2);
    assert [account][..0] == [] && [s1][..0] == [] && [s1, s2][..1] == [s1];
    assert Each(InvoiceNames.status, [s1, s2])
           == [ParameterValue(InvoiceNames.status, s1), ParameterValue(InvoiceNames.status, s2)];
  }
}
