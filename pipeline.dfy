/** The order in which main.py drives the pipeline: load, clean, add totals,
    analyze, persist both tables, then re-query the top products from the
    database as a cross-check of the in-memory analysis. */
module Pipeline {
  import opened Wrappers
  import opened Seqs
  import opened Records
  import opened DataProcessor
  import opened Analyzer
  import opened Database

  /** `idxmax` of an empty view raises, and main.py stops with an error. */
  datatype PipelineError = NoValidRows

  datatype PipelineReport = PipelineReport(
    sales: seq<Sale>,
    removed: nat,
    summary: Summary,
    verification: seq<Entry<string>>)

  /** The `n` main.py passes to the verification query. */
  const VerificationLimit := 3

  /** Run the pipeline on the rows of the input file against the database `db`. */
  method RunPipeline(raw: seq<Row>, db: SalesDb) returns (r: Result<PipelineReport, PipelineError>)
    requires db.Valid()
    modifies db
    ensures db.Valid()
    ensures r.Failure? <==> Clean(raw) == []
    ensures r.Failure? ==> db.ventas == old(db.ventas) && db.analisisResultados == old(db.analisisResultados)
    ensures r.Success? ==> r.value.sales == CleanedSales(raw) && r.value.removed == |raw| - |Clean(raw)|
    ensures r.Success? ==> r.value.summary == GetResumenCompleto(r.value.sales)
    ensures r.Success? ==> db.ventas == Some(r.value.sales)
    ensures r.Success? ==> db.analisisResultados == Some(AnalysisRows(r.value.summary))
    ensures r.Success? ==> r.value.verification == TopProductosQuery(r.value.sales, VerificationLimit)
    ensures r.Success? ==> |r.value.verification| == |r.value.summary.top3Cantidad|
    ensures r.Success? ==> forall i :: 0 <= i < |r.value.verification| ==> r.value.verification[i].value == r.value.summary.top3Cantidad[i].value
  {
    var processor := new Processor();
    processor.LoadData(raw);
    var cleaned := processor.CleanData();
    var totals := processor.CalculateTotals();
    var saved := processor.SaveCleanData();
    var df := processor.GetCleanData();
    assert df == Some(Map(Clean(raw), WithTotal));
    TotalsAfterClean(raw);
    var sales := AsSales(df.value);
    if |sales| == 0 {
      return Failure(NoValidRows);
    }
    var summary := GetResumenCompleto(sales);
    db.InsertVentasData(sales);
    db.SaveAnalysisResults(summary);
    var verification := db.GetTopProductosQuery(VerificationLimit);
    TopQueryMatchesAnalyzer(sales, VerificationLimit);
    r := Success(PipelineReport(sales, cleaned.value.removed, summary, verification));
  }
}
