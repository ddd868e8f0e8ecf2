/**
 * The DAG metadata the tests inspect, the `DagBag` they load, and the two
 * parameter lists they build from it: `get_import_errors()` and `get_dags()`.
 */
module DagBagLists {
  import opened Wrappers
  import PyText
  import Logging

  /** A value of a DAG's `default_args` dictionary. */
  datatype ArgValue = IntArg(i: int) | BoolArg(b: bool) | StrArg(s: string) | NoneArg

  /** What the tests read of an Airflow DAG object. */
  datatype DagMeta = DagMeta(
    dagId: string,
    tags: seq<string>,
    defaultArgs: map<string, ArgValue>,
    fileloc: string)

  /**
   * What `DagBag(include_examples=False)` discovered: `dags` maps a DAG id to its DAG,
   * `importErrors` maps a file path to its error text; both in dictionary order.
   */
  datatype DagBag = DagBag(dags: seq<(string, DagMeta)>, importErrors: seq<(string, string)>)

  /** One `(rel_path, rv)` parameter pair of the import test. */
  type ImportEntry = (Option<string>, Option<string>)

  /** One `(dag_id, dag, fileloc)` parameter triple of the tag and retry tests. */
  type DagEntry = (string, DagMeta, string)

  /** `os.path.relpath(path, start)`, with `start` the value of `$AIRFLOW_HOME` or None. */
  type RelPath = (string, Option<string>) -> string

  /** `strip_path_prefix(path)`: `path` relative to the Airflow home directory. */
  function StripPathPrefix(relpath: RelPath, home: Option<string>, path: string): (r: string)
    ensures r == relpath(path, home)
  {
    relpath(path, home)
  }

  /** The comprehension over `dag_bag.import_errors.items()`, one pair per error, in order. */
  function ImportErrorPairs(errors: seq<(string, string)>, relpath: RelPath, home: Option<string>)
    : (r: seq<ImportEntry>)
    ensures |r| == |errors|
    ensures forall i :: 0 <= i < |r| ==>
              r[i] == (Some(StripPathPrefix(relpath, home, errors[i].0)), Some(PyText.Strip(errors[i].1)))
  {
    if errors == [] then []
    else [(Some(StripPathPrefix(relpath, home, errors[0].0)), Some(PyText.Strip(errors[0].1)))]
         + ImportErrorPairs(errors[1..], relpath, home)
  }

  /**
   * `get_import_errors()`: the `(None, None)` sentinel followed by one
   * `(relative path, stripped message)` pair per import error of the bag.
   */
  function ImportErrorList(bag: DagBag, relpath: RelPath, home: Option<string>): (r: seq<ImportEntry>)
    ensures |r| == 1 + |bag.importErrors| && r[0] == (None, None)
    ensures forall i :: 0 <= i < |bag.importErrors| ==>
              r[i + 1].0 == Some(StripPathPrefix(relpath, home, bag.importErrors[i].0))
              && r[i + 1].1 == Some(PyText.Strip(bag.importErrors[i].1))
  {
    [(None, None)] + ImportErrorPairs(bag.importErrors, relpath, home)
  }

  /** The comprehension over `dag_bag.dags.items()`, one triple per DAG, in order. */
  function DagTriples(dags: seq<(string, DagMeta)>, relpath: RelPath, home: Option<string>)
    : (r: seq<DagEntry>)
    ensures |r| == |dags|
    ensures forall i :: 0 <= i < |r| ==>
              r[i] == (dags[i].0, dags[i].1, StripPathPrefix(relpath, home, dags[i].1.fileloc))
  {
    if dags == [] then []
    else [(dags[0].0, dags[0].1, StripPathPrefix(relpath, home, dags[0].1.fileloc))]
         + DagTriples(dags[1..], relpath, home)
  }

  /** `get_dags()`: one `(dag_id, dag, relative fileloc)` triple per DAG of the bag. */
  function DagList(bag: DagBag, relpath: RelPath, home: Option<string>): (r: seq<DagEntry>)
    ensures |r| == |bag.dags|
    ensures forall i :: 0 <= i < |r| ==>
              r[i].0 == bag.dags[i].0 && r[i].1 == bag.dags[i].1
              && r[i].2 == StripPathPrefix(relpath, home, bag.dags[i].1.fileloc)
  {
    DagTriples(bag.dags, relpath, home)
  }

  /** Every DAG of the bag, and only those, is named by some triple of `get_dags()`. */
  lemma {:induction false} DagListIds(bag: DagBag, relpath: RelPath, home: Option<string>)
    ensures (set e | e in DagList(bag, relpath, home) :: e.0) == (set p | p in bag.dags :: p.0)
  {
    var r := DagList(bag, relpath, home);
    var listed := set e | e in r :: e.0;
    var found := set p | p in bag.dags :: p.0;
    forall id | id in found
      ensures id in listed
    {
      var p :| p in bag.dags && p.0 == id;
      var i :| 0 <= i < |bag.dags| && bag.dags[i] == p;
      assert r[i] in r;
    }
    forall id | id in listed
      ensures id in found
    {
      var e :| e in r && e.0 == id;
      var i :| 0 <= i < |r| && r[i] == e;
      assert bag.dags[i] in bag.dags;
    }
  }

  /**
   * `get_import_errors()` as the test module runs it: the bag is loaded and the list
   * built inside `suppress_logging("airflow")`, so the "airflow" logger is disabled
   * while the bag loads and has its former flag back afterwards.
   */
  method GetImportErrors(reg: Logging.Registry, bag: DagBag, relpath: RelPath, home: Option<string>)
    returns (r: seq<ImportEntry>)
    requires reg.Valid()
    modifies reg, reg.loggers.Values
    ensures reg.Valid()
    ensures r == ImportErrorList(bag, relpath, home)
    ensures "airflow" in reg.loggers && reg.loggers.Keys == old(reg.loggers.Keys) + {"airflow"}
    ensures "airflow" !in old(reg.loggers) ==> fresh(reg.loggers["airflow"])
    ensures forall n :: n in old(reg.loggers) ==> n in reg.loggers && reg.loggers[n] == old(reg.loggers[n])
    ensures forall n :: n in reg.loggers ==> reg.loggers[n].disabled == old(reg.DisabledOf(n))
  {
    var o := reg.SuppressLogging("airflow",
      (disabled: bool) => (disabled, Logging.Returned(ImportErrorList(bag, relpath, home))));
    r := o.value;
  }

  /**
   * `get_dags()` as the test module runs it: the bag is loaded inside
   * `suppress_logging("airflow")` and the list built after the block has ended.
   */
  method GetDags(reg: Logging.Registry, bag: DagBag, relpath: RelPath, home: Option<string>)
    returns (r: seq<DagEntry>)
    requires reg.Valid()
    modifies reg, reg.loggers.Values
    ensures reg.Valid()
    ensures r == DagList(bag, relpath, home)
    ensures "airflow" in reg.loggers && reg.loggers.Keys == old(reg.loggers.Keys) + {"airflow"}
    ensures "airflow" !in old(reg.loggers) ==> fresh(reg.loggers["airflow"])
    ensures forall n :: n in old(reg.loggers) ==> n in reg.loggers && reg.loggers[n] == old(reg.loggers[n])
    ensures forall n :: n in reg.loggers ==> reg.loggers[n].disabled == old(reg.DisabledOf(n))
  {
    var o := reg.SuppressLogging("airflow", (disabled: bool) => (disabled, Logging.Returned(bag)));
    var loaded := o.value;
    r := DagList(loaded, relpath, home);
  }
}
