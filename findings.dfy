/**
 * Both services are given the same report object when they are created.
 * The proxy appends tracked entries to that object. The report endpoint
 * answers with whatever object its own field points to. These scenarios
 * follow one reset and one tracked download, first with the reset as
 * written and then with a reset that empties the shared object in place.
 */
module Findings {
  import opened Wrappers
  import opened Model
  import opened Http
  import opened Retry
  import opened ProxyRules
  import opened Proxy
  import opened Report

  /** The entities of one deployment: both services over one shared report. */
  method Deploy() returns (proxy: ProxyService, report: ReportService)
    ensures fresh(proxy) && fresh(report) && fresh(proxy.trackedContent)
    ensures report.trackedContent == proxy.trackedContent && proxy.trackedContent.downloads == []
  {
    var tc := new TrackedContent();
    proxy := new ProxyService(tc);
    report := new ReportService(tc);
  }

  /**
   * As written: after a reset, a download the proxy tracks lands in the
   * object the report no longer reads, so the report stays empty.
   */
  method ResetThenTrack(resp: ProxyResponse, e: Entry, d: Digests) returns (reportSees: seq<Entry>, proxyAppended: seq<Entry>)
    requires resp.body.Some?
    ensures reportSees == []
    ensures proxyAppended == [WithPayload(e, resp.body.value, d)]
  {
    var proxy, report := Deploy();
    var _ := report.ResetReport();
    var _ := proxy.ConvertTrackedResp(resp, e, d);
    var shown := report.GetReport();
    reportSees := shown.entity.value.downloads;
    proxyAppended := proxy.trackedContent.downloads;
  }

  /** Corrected: the reset empties the shared object, and the next tracked download is reported. */
  method ResetInPlaceThenTrack(resp: ProxyResponse, e: Entry, d: Digests) returns (reportSees: seq<Entry>, proxyAppended: seq<Entry>)
    requires resp.body.Some?
    ensures reportSees == [WithPayload(e, resp.body.value, d)]
    ensures reportSees == proxyAppended
  {
    var proxy, report := Deploy();
    var _ := report.ResetReportInPlace();
    var _ := proxy.ConvertTrackedResp(resp, e, d);
    var shown := report.GetReport();
    reportSees := shown.entity.value.downloads;
    proxyAppended := proxy.trackedContent.downloads;
  }
}
