/**
 * The three checks the test module runs over every parameter it collects:
 * `test_file_imports`, `test_dag_tags` and `test_dag_retries`, each as a
 * function from one parameter tuple to how the test ends.
 */
module DagTests {
  import opened Wrappers
  import PyText
  import opened DagBagLists

  /** The exception a failing test ends with. */
  datatype ErrorKind = AssertionError | Exception | TypeError

  /** How one parametrised test case ends. */
  datatype TestOutcome = Passed | Failed(kind: ErrorKind, message: string)

  /** Python truthiness of an optional string: present and non-empty. */
  predicate Truthy(o: Option<string>)
    ensures Truthy(o) <==> o != None && o != Some("")
  {
    o.Some? && o.value != ""
  }

  // ---- test_file_imports ---------------------------------------------------

  function ImportFailureMessage(relPath: string, rv: string): string {
    relPath + " falló al importar con el siguiente error: \n" + rv
  }

  /** `test_file_imports(rel_path, rv)`: raise unless one of the two is missing or empty. */
  function FileImportsTest(relPath: Option<string>, rv: Option<string>): (r: TestOutcome)
    ensures r.Passed? <==> relPath.None? || rv.None? || relPath.value == [] || rv.value == []
    ensures r.Failed? ==> r.kind == Exception
                          && |r.message| >= |relPath.value| + |rv.value|
                          && r.message[..|relPath.value|] == relPath.value
                          && r.message[|r.message| - |rv.value|..] == rv.value
  {
    if Truthy(relPath) && Truthy(rv) then Failed(Exception, ImportFailureMessage(relPath.value, rv.value))
    else Passed
  }

  /** The import test passes on every pair of `entries`. */
  ghost predicate ImportSuitePasses(entries: seq<ImportEntry>) {
    forall i :: 0 <= i < |entries| ==> FileImportsTest(entries[i].0, entries[i].1).Passed?
  }

  /**
   * On the list `get_import_errors()` builds, the sentinel passes, and the pair of an
   * import error fails exactly when its relative path is non-empty and its message
   * is not all whitespace.
   */
  lemma {:induction false} ImportEntryVerdict(bag: DagBag, relpath: RelPath, home: Option<string>, i: nat)
    requires i < |ImportErrorList(bag, relpath, home)|
    ensures var e := ImportErrorList(bag, relpath, home)[i];
            FileImportsTest(e.0, e.1).Passed?
            <==> i == 0
                 || StripPathPrefix(relpath, home, bag.importErrors[i - 1].0) == []
                 || PyText.AllSpace(bag.importErrors[i - 1].1)
  {
    if i > 0 {
      var msg := bag.importErrors[i - 1].1;
      assert PyText.Strip(msg) == [] <==> PyText.AllSpace(msg);
    }
  }

  /**
   * The import tests all pass exactly when every import error of the bag has an empty
   * relative path or a whitespace-only message; with no import errors they pass.
   */
  lemma {:induction false} ImportSuiteVerdict(bag: DagBag, relpath: RelPath, home: Option<string>)
    ensures ImportSuitePasses(ImportErrorList(bag, relpath, home))
            <==> forall k :: 0 <= k < |bag.importErrors| ==>
                   StripPathPrefix(relpath, home, bag.importErrors[k].0) == []
                   || PyText.AllSpace(bag.importErrors[k].1)
  {
    var entries := ImportErrorList(bag, relpath, home);
    if ImportSuitePasses(entries) {
      forall k | 0 <= k < |bag.importErrors|
        ensures StripPathPrefix(relpath, home, bag.importErrors[k].0) == []
                || PyText.AllSpace(bag.importErrors[k].1)
      {
        ImportEntryVerdict(bag, relpath, home, k + 1);
      }
    }
    if forall k :: 0 <= k < |bag.importErrors| ==>
         StripPathPrefix(relpath, home, bag.importErrors[k].0) == []
         || PyText.AllSpace(bag.importErrors[k].1)
    {
      forall i | 0 <= i < |entries|
        ensures FileImportsTest(entries[i].0, entries[i].1).Passed?
      {
        ImportEntryVerdict(bag, relpath, home, i);
      }
    }
  }

  // ---- test_dag_tags -------------------------------------------------------

  /** `APPROVED_TAGS`, the tags allowed for the Ventas360 project. */
  const ApprovedTags: set<string> := {"ventas360", "etl", "snowflake"}

  /** The tag policy: at least one tag, and each tag approved. */
  predicate TagsMeetPolicy(tags: seq<string>) {
    |tags| > 0 && forall i :: 0 <= i < |tags| ==> tags[i] in ApprovedTags
  }

  function NoTagsMessage(dagId: string, fileloc: string): string {
    "El DAG '" + dagId + "' en " + fileloc + " no tiene tags definidos."
  }

  function UnapprovedTagsMessage(dagId: string, fileloc: string, tags: seq<string>): string {
    "El DAG '" + dagId + "' en " + fileloc + " tiene tags no aprobados: " + PyText.ReprStringList(tags)
  }

  /**
   * `test_dag_tags(dag_id, dag, fileloc)`: passes exactly when the DAG meets the tag
   * policy. Emptiness is asserted first, so a DAG without tags reports the missing tags
   * and never the unapproved ones; a non-empty list that fails names an unapproved tag.
   */
  function DagTagsTest(dagId: string, dag: DagMeta, fileloc: string): (r: TestOutcome)
    ensures r.Passed? <==> TagsMeetPolicy(dag.tags)
    ensures dag.tags == [] ==> r == Failed(AssertionError, NoTagsMessage(dagId, fileloc))
    ensures dag.tags != [] && r.Failed? ==>
              r == Failed(AssertionError, UnapprovedTagsMessage(dagId, fileloc, dag.tags))
              && exists i :: 0 <= i < |dag.tags| && dag.tags[i] !in ApprovedTags
  {
    if |dag.tags| == 0 then Failed(AssertionError, NoTagsMessage(dagId, fileloc))
    else if (set t | t in dag.tags) <= ApprovedTags then Passed
    else Failed(AssertionError, UnapprovedTagsMessage(dagId, fileloc, dag.tags))
  }

  /**
   * The tag test looks at the tags as a set: reordering or repeating them, or a
   * different id or file location, does not change whether it passes.
   */
  lemma TagsTestSeesOnlyTheSet(idA: string, a: DagMeta, locA: string, idB: string, b: DagMeta, locB: string)
    requires (set t | t in a.tags) == (set t | t in b.tags)
    ensures DagTagsTest(idA, a, locA).Passed? == DagTagsTest(idB, b, locB).Passed?
  {
    TagsPolicyBySet(a.tags);
    TagsPolicyBySet(b.tags);
  }

  /** The tag policy stated on the set of tags, as the test checks it. */
  lemma TagsPolicyBySet(tags: seq<string>)
    ensures TagsMeetPolicy(tags) <==> (set t | t in tags) != {} && (set t | t in tags) <= ApprovedTags
  {
    var tagSet := set t | t in tags;
    if tags != [] {
      assert tags[0] in tagSet;
    }
    if tagSet <= ApprovedTags {
      forall i | 0 <= i < |tags| ensures tags[i] in ApprovedTags {
        assert tags[i] in tagSet;
      }
    }
    if TagsMeetPolicy(tags) {
      forall t | t in tagSet ensures t in ApprovedTags {
        var i :| 0 <= i < |tags| && tags[i] == t;
      }
    }
  }

  // ---- test_dag_retries ----------------------------------------------------

  /** `dag.default_args.get("retries", 0)`. */
  function RetriesRead(args: map<string, ArgValue>): (v: ArgValue)
    ensures "retries" in args ==> v == args["retries"]
    ensures "retries" !in args ==> v == IntArg(0)
  {
    if "retries" in args then args["retries"] else IntArg(0)
  }

  /** How the f-string prints a retry value that compares with 2: `str()` of the int or bool. */
  function Shown(v: ArgValue): string
    requires v.IntArg? || v.BoolArg?
  {
    if v.IntArg? then PyText.IntToString(v.i) else PyText.BoolToString(v.b)
  }

  /** The retry policy: `retries` is set, to an int of at least 2. */
  predicate RetriesMeetPolicy(args: map<string, ArgValue>) {
    "retries" in args && args["retries"].IntArg? && args["retries"].i >= 2
  }

  function RetriesMessage(dagId: string, fileloc: string, shown: string): string {
    "El DAG '" + dagId + "' en " + fileloc
    + " debe tener 'retries' configurado como >= 2. Actualmente tiene: " + shown
  }

  /** The TypeError Python raises for `value >= 2` when `value` is not a number. */
  function CompareTypeError(typeName: string): string {
    "'>=' not supported between instances of '" + typeName + "' and 'int'"
  }

  /**
   * `test_dag_retries(dag_id, dag, fileloc)`: passes exactly when `retries` is an int
   * of at least 2. A missing key is read as 0 and fails with "Actualmente tiene: 0";
   * a bool compares as 0 or 1 and fails; a string or None cannot be compared with 2
   * and raises a TypeError.
   */
  function DagRetriesTest(dagId: string, dag: DagMeta, fileloc: string): (r: TestOutcome)
    ensures r.Passed? <==> RetriesMeetPolicy(dag.defaultArgs)
    ensures "retries" !in dag.defaultArgs ==> r == Failed(AssertionError, RetriesMessage(dagId, fileloc, "0"))
    ensures r.Failed? && r.kind == TypeError <==> RetriesRead(dag.defaultArgs).StrArg? || RetriesRead(dag.defaultArgs).NoneArg?
    ensures r.Failed? && r.kind != TypeError ==>
              && r.kind == AssertionError
              && (RetriesRead(dag.defaultArgs).IntArg? || RetriesRead(dag.defaultArgs).BoolArg?)
              && r.message == RetriesMessage(dagId, fileloc, Shown(RetriesRead(dag.defaultArgs)))
    ensures r.Failed? && r.kind == TypeError ==>
              r.message == CompareTypeError(if RetriesRead(dag.defaultArgs).StrArg? then "str" else "NoneType")
  {
    match RetriesRead(dag.defaultArgs)
    case IntArg(n) =>
      if n >= 2 then Passed
      else Failed(AssertionError, RetriesMessage(dagId, fileloc, PyText.IntToString(n)))
    case BoolArg(b) =>
      if (if b then 1 else 0) >= 2 then Passed
      else Failed(AssertionError, RetriesMessage(dagId, fileloc, PyText.BoolToString(b)))
    case StrArg(_) => Failed(TypeError, CompareTypeError("str"))
    case NoneArg => Failed(TypeError, CompareTypeError("NoneType"))
  }

  /**
   * An int retry count below 2 fails with an `AssertionError` whose message prints the
   * count read: its sign, and digits that read back as its magnitude.
   */
  lemma RetriesMessageReportsValue(dagId: string, dag: DagMeta, fileloc: string, n: int)
    requires RetriesRead(dag.defaultArgs) == IntArg(n) && n < 2
    ensures var r := DagRetriesTest(dagId, dag, fileloc);
            var shown := PyText.IntToString(n);
            && r == Failed(AssertionError, RetriesMessage(dagId, fileloc, shown))
            && (shown[0] == '-' <==> n < 0)
            && (n >= 0 ==> PyText.DigitsValue(shown) == n)
            && (n < 0 ==> PyText.DigitsValue(shown[1..]) == -n)
  {
  }

  // ---- the suite over get_dags() -------------------------------------------

  /** Both DAG tests pass on every triple of `entries`. */
  ghost predicate DagSuitePasses(entries: seq<DagEntry>) {
    forall i :: 0 <= i < |entries| ==>
      DagTagsTest(entries[i].0, entries[i].1, entries[i].2).Passed?
      && DagRetriesTest(entries[i].0, entries[i].1, entries[i].2).Passed?
  }

  /** A DAG meets the house rules: approved tags and at least two retries. */
  predicate MeetsPolicy(dag: DagMeta) {
    TagsMeetPolicy(dag.tags) && RetriesMeetPolicy(dag.defaultArgs)
  }

  /**
   * The tag and retry tests all pass on `get_dags()` exactly when every DAG in the bag
   * meets the house rules; where the DAG files live plays no part.
   */
  lemma {:induction false} DagSuiteVerdict(bag: DagBag, relpath: RelPath, home: Option<string>)
    ensures DagSuitePasses(DagList(bag, relpath, home))
            <==> forall k :: 0 <= k < |bag.dags| ==> MeetsPolicy(bag.dags[k].1)
  {
    var entries := DagList(bag, relpath, home);
    if DagSuitePasses(entries) {
      forall k | 0 <= k < |bag.dags| ensures MeetsPolicy(bag.dags[k].1) {
        var e := entries[k];
        assert DagTagsTest(e.0, e.1, e.2).Passed?;
        assert DagRetriesTest(e.0, e.1, e.2).Passed?;
      }
    }
  }
}
