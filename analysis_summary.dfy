/** The app's summary of the server's tennis analysis: what
    `handleTennisAnalysisResult` shows for the dictionary
    `analyze_stroke_from_csv_content` returns, which the `/analyze/tennis`
    route sends back as its reply. The upload route wraps the analysis in a
    reply of its own, which this module does not model. */
module AnalysisSummary {
  import opened Wrappers
  import opened Text
  import opened JsonValues
  import opened StrokeAnalyzer
  import opened AppModel

  /** Reading a successful analysis back as the app does: the stroke count
      and the timestamps sit in `data`, the three statistics do not. */
  lemma ReportDataReadBack(report: StrokeReport, threshold: real, sliceLen: int, isoNow: string, format1: real -> string)
    requires report.Analyzed?
    ensures var json := ReportJson(report, threshold, sliceLen, isoNow, format1);
            && BoolAt(json, "success") == Some(true)
            && ObjectAt(json, "data").Some?
            && var data := ObjectAt(json, "data").value;
            && IntAt(data, "strokes_detected") == Some(|report.timestamps|)
            && IntsAt(data, "timestamps") == report.timestamps
            && IntAt(data, "total_data_points").None?
            && RealAt(data, "data_duration_seconds").None?
            && StringAt(data, "average_interval").None?
  {
    ReportJsonData(report, threshold, sliceLen, isoNow, format1);
    DataReadBack(report.timestamps, report.strokeTypes, report.totalDataPoints, format1);
  }

  /** A successful result is flagged as such and carries its `data` object. */
  lemma ReportJsonData(report: StrokeReport, threshold: real, sliceLen: int, isoNow: string, format1: real -> string)
    requires report.Analyzed?
    ensures var json := ReportJson(report, threshold, sliceLen, isoNow, format1);
            && BoolAt(json, "success") == Some(true)
            && ObjectAt(json, "data") == Some(AnalyzedData(report.timestamps, report.strokeTypes, report.totalDataPoints, format1))
  { }

  /** The `data` object gives back the stroke count and the timestamps, and
      holds none of the three statistics at its own level. */
  lemma DataReadBack(ts: seq<int>, types: seq<StrokeType>, total: nat, format1: real -> string)
    ensures var data := AnalyzedData(ts, types, total, format1);
            && IntAt(data, "strokes_detected") == Some(|ts|)
            && IntsAt(data, "timestamps") == ts
            && IntAt(data, "total_data_points").None?
            && RealAt(data, "data_duration_seconds").None?
            && StringAt(data, "average_interval").None?
  {
    var data := AnalyzedData(ts, types, total, format1);
    assert IntegralItems(data, "timestamps") by {
      forall i | 0 <= i < |data["timestamps"].items|
        ensures data["timestamps"].items[i] == JNumber(ts[i] as real)
      { }
    }
    var read := IntsAt(data, "timestamps");
    assert |read| == |ts|;
    forall i | 0 <= i < |ts|
      ensures read[i] == ts[i]
    {
      assert JNumber(read[i] as real) == data["timestamps"].items[i] == JNumber(ts[i] as real);
    }
  }

  /** The statistics of a successful analysis, read from `data["statistics"]`. */
  lemma ReportStatisticsReadBack(report: StrokeReport, threshold: real, sliceLen: int, isoNow: string, format1: real -> string)
    requires report.Analyzed?
    ensures var json := ReportJson(report, threshold, sliceLen, isoNow, format1);
            && ObjectAt(json, "data").Some?
            && ObjectAt(ObjectAt(json, "data").value, "statistics").Some?
            && var stats := ObjectAt(ObjectAt(json, "data").value, "statistics").value;
            && IntAt(stats, "total_data_points") == Some(report.totalDataPoints)
            && RealAt(stats, "data_duration_seconds") == Some(report.totalDataPoints as real / 5.0)
            && StringAt(stats, "average_interval") == Some(AverageIntervalText(report.timestamps, format1))
  {
    ReportJsonData(report, threshold, sliceLen, isoNow, format1);
    var data := AnalyzedData(report.timestamps, report.strokeTypes, report.totalDataPoints, format1);
    assert ObjectAt(data, "statistics").Some?;
  }

  /** As written, the summary of every successful analysis reports no data
      points, a zero duration and no average interval, whatever the
      analysis found. */
  lemma SummaryDropsStatistics(report: StrokeReport, threshold: real, sliceLen: int, isoNow: string,
                               fileName: string, format1: real -> string)
    requires report.Analyzed?
    ensures Contains(TennisSummary(ReportJson(report, threshold, sliceLen, isoNow, format1), fileName, format1),
                     "\n\n统计信息:\n- 数据点总数: 0\n- 数据时长: " + format1(0.0) + " 秒\n- 平均间隔: N/A")
  {
    var json := ReportJson(report, threshold, sliceLen, isoNow, format1);
    ReportDataReadBack(report, threshold, sliceLen, isoNow, format1);
    MissingStatisticsBlock(ObjectAt(json, "data").value, format1);
  }

  /** The statistics block of an object holding none of the three statistics. */
  lemma MissingStatisticsBlock(stats: JsonObject, format1: real -> string)
    requires IntAt(stats, "total_data_points").None? && RealAt(stats, "data_duration_seconds").None?
    requires StringAt(stats, "average_interval").None?
    ensures StatisticsBlock(stats, format1) == "\n\n统计信息:\n- 数据点总数: 0\n- 数据时长: " + format1(0.0) + " 秒\n- 平均间隔: N/A"
  {
    assert IntToString(0) == "0";
  }

  /** Read from `data["statistics"]`, the summary reports the number of
      loaded rows, their duration at 5 Hz and the average interval the
      analyser computed. */
  lemma SummaryShowsStatistics(report: StrokeReport, threshold: real, sliceLen: int, isoNow: string,
                               fileName: string, format1: real -> string)
    requires report.Analyzed?
    ensures var text := TennisSummaryFromStatistics(ReportJson(report, threshold, sliceLen, isoNow, format1), fileName, format1);
            && SummaryTitle(fileName) + IntToString(|report.timestamps|) + " 次" <= text
            && Contains(text, "\n\n统计信息:\n- 数据点总数: " + IntToString(report.totalDataPoints)
                              + "\n- 数据时长: " + format1(report.totalDataPoints as real / 5.0) + " 秒"
                              + "\n- 平均间隔: " + AverageIntervalText(report.timestamps, format1))
  {
    ReportDataReadBack(report, threshold, sliceLen, isoNow, format1);
    ReportStatisticsReadBack(report, threshold, sliceLen, isoNow, format1);
  }
}
