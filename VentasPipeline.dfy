/**
 * The committed `ventas360_pipeline` DAG as the tests see it, and what the
 * validator makes of it and of a few other DAG shapes.
 */
module VentasPipeline {
  import opened Wrappers
  import PyText
  import opened DagBagLists
  import opened DagTests

  /** The pipeline's `default_args`: owner, three notification flags and one retry. */
  const PipelineDefaultArgs: map<string, ArgValue> := map[
    "owner" := StrArg("airflow"),
    "depends_on_past" := BoolArg(false),
    "email_on_failure" := BoolArg(false),
    "email_on_retry" := BoolArg(false),
    "retries" := IntArg(1)]

  /** The pipeline as discovered from the file at `fileloc`: no `tags` argument, so no tags. */
  function PipelineDag(fileloc: string): (d: DagMeta)
    ensures d.dagId == "ventas360_pipeline" && d.tags == [] && d.fileloc == fileloc
  {
    DagMeta("ventas360_pipeline", [], PipelineDefaultArgs, fileloc)
  }

  /** A bag holding just the pipeline, loaded without import errors. */
  function PipelineBag(fileloc: string): (bag: DagBag)
    ensures |bag.dags| == 1 && bag.importErrors == []
  {
    DagBag([("ventas360_pipeline", PipelineDag(fileloc))], [])
  }

  /**
   * As committed, the pipeline fails both DAG tests: the tag test for having no tags,
   * and the retry test reporting the single retry it configures.
   */
  lemma {:induction false} PipelineFailsBothChecks(fileloc: string, relpath: RelPath, home: Option<string>)
    ensures var entries := DagList(PipelineBag(fileloc), relpath, home);
            var loc := relpath(fileloc, home);
            |entries| == 1
            && DagTagsTest(entries[0].0, entries[0].1, entries[0].2)
               == Failed(AssertionError, NoTagsMessage("ventas360_pipeline", loc))
            && DagRetriesTest(entries[0].0, entries[0].1, entries[0].2)
               == Failed(AssertionError, RetriesMessage("ventas360_pipeline", loc, "1"))
            && !DagSuitePasses(entries)
  {
    var entries := DagList(PipelineBag(fileloc), relpath, home);
    assert PyText.IntToString(1) == "1";
    assert !MeetsPolicy(PipelineDag(fileloc));
    DagSuiteVerdict(PipelineBag(fileloc), relpath, home);
  }

  /** The same bag passes the import test: its only parameter is the sentinel. */
  lemma PipelineImportsPass(fileloc: string, relpath: RelPath, home: Option<string>)
    ensures ImportSuitePasses(ImportErrorList(PipelineBag(fileloc), relpath, home))
  {
    ImportSuiteVerdict(PipelineBag(fileloc), relpath, home);
  }

  /** Giving the pipeline approved tags and two retries is enough for both DAG tests. */
  lemma {:induction false} CompliantPipelinePasses(fileloc: string, relpath: RelPath, home: Option<string>)
    ensures var fixed := PipelineDag(fileloc).(tags := ["ventas360", "etl"],
                                               defaultArgs := PipelineDefaultArgs["retries" := IntArg(3)]);
            DagSuitePasses(DagList(DagBag([("ventas360_pipeline", fixed)], []), relpath, home))
  {
    var fixed := PipelineDag(fileloc).(tags := ["ventas360", "etl"],
                                       defaultArgs := PipelineDefaultArgs["retries" := IntArg(3)]);
    assert MeetsPolicy(fixed);
    DagSuiteVerdict(DagBag([("ventas360_pipeline", fixed)], []), relpath, home);
  }

  /** A DAG tagged only "marketing" fails the tag test, which reports the tags it has. */
  lemma UnapprovedTagFails(dagId: string, dag: DagMeta, fileloc: string)
    requires dag.tags == ["marketing"]
    ensures DagTagsTest(dagId, dag, fileloc)
            == Failed(AssertionError, UnapprovedTagsMessage(dagId, fileloc, ["marketing"]))
    ensures UnapprovedTagsMessage(dagId, fileloc, ["marketing"])
            == "El DAG '" + dagId + "' en " + fileloc + " tiene tags no aprobados: ['marketing']"
  {
    assert "marketing" !in ApprovedTags;
  }
}
