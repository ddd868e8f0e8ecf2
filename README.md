# Ventas360 DAG validator, modelled in Dafny

The Ventas360 repository ships one Airflow pipeline (`ventas360_pipeline`) and a pytest
module, `tests/test-dag.py`, that checks every DAG Airflow discovers against house rules.
This project models that test module:

- `suppress_logging(namespace)`: a context manager that disables the named logger while its
  block runs and restores the saved flag on every exit, normal or by exception
  (`Logging.dfy`: a `Registry` of `Logger` objects and the method `SuppressLogging`).
- `get_import_errors()` and `get_dags()`: the parameter lists built from a loaded
  `DagBag` (`DagBagLists.dfy`). They are pure functions, plus methods that wrap the bag
  loading in `SuppressLogging` the way the source does.
- The three tests `test_file_imports`, `test_dag_tags` and `test_dag_retries`, each a
  function from one parameter tuple to the way the test ends. A test can pass or fail with
  an `AssertionError`, a plain `Exception` or a `TypeError`, and each failure carries its
  message as the test writes it (`DagTests.dfy`).
- The text functions these use: `str.strip()`, `str()` of an int or bool, and the `repr`
  of a list of strings (`PyText.dfy`).
- The committed pipeline's metadata as a fixture (`VentasPipeline.dfy`). As committed, the
  pipeline has one retry and no tags, and it is proved to fail both DAG tests.

The main results:
- The import tests all pass exactly when every import error has an empty relative path or
  a whitespace-only message. The `(None, None)` sentinel always passes. `os.path.relpath`
  never returns an empty string (it returns `.` at least), so in practice only an import
  error whose message is all whitespace passes.
- The tag test passes exactly when the tags are non-empty and all approved. It depends only
  on the set of tags.
- The retry test passes exactly when `retries` is an int of at least 2.
- The whole DAG suite passes exactly when every DAG in the bag meets both rules.

## Model

| member | source | states |
|---|---|---|
| `Logging.Registry.SuppressLogging` | tests/test-dag.py:8-16 | the body runs seeing the logger disabled; whether it returns or raises, its outcome is the block's, every logger's flag afterwards equals its flag before (the named one is created enabled if new), and no other registry entry changes |
| `Logging.Registry.GetLogger` | tests/test-dag.py:10 | returns the registered logger for the name, or registers a fresh enabled one; the registry is otherwise unchanged |
| `PyText.LeadingSpace` | tests/test-dag.py:31 | the count of leading characters `strip` removes: all of them are whitespace, and the character after them is not |
| `PyText.TrailingSpace` | tests/test-dag.py:31 | the count of trailing characters `strip` removes: all of them are whitespace, and the character before them is not |
| `PyText.Strip` | tests/test-dag.py:31 | `v.strip()` has no whitespace at either end, is no longer than `v`, and is empty exactly when `v` is all whitespace |
| `PyText.StripShape` | tests/test-dag.py:31 | `v.strip()` is the slice of `v` after its leading whitespace, and every character cut off at either end is whitespace |
| `PyText.StripIdempotent` | tests/test-dag.py:31 | stripping a stripped message changes nothing |
| `PyText.StripKeepsTrimmed` | tests/test-dag.py:31 | a string without whitespace at its ends is its own strip |
| `PyText.NatToStringRoundTrip` | tests/test-dag.py:84 | the decimal digits printed for a retry count read back as that count |
| `PyText.IntToString` | tests/test-dag.py:84 | `str(n)` starts with '-' exactly for negative `n`, its digits read back as `abs(n)`, and there is no leading zero |
| `PyText.BoolToString` | tests/test-dag.py:84 | the f-string of a bool is `True` exactly when it is true, and `False` otherwise |
| `PyText.ReprStringList` | tests/test-dag.py:70 | the printed tag list is bracketed, is `[]` exactly for no tags, and is `['t']` for the single tag `t` |
| `PyText.ReprItemsAppend` | tests/test-dag.py:70 | the printed items grow as `", ".join` builds them: appending a tag to a non-empty list appends `, 't'` |
| `DagBagLists.StripPathPrefix` | tests/test-dag.py:27-28 | `strip_path_prefix(path)` is `os.path.relpath(path, start)` with `start` the value of `AIRFLOW_HOME`, or None when unset |
| `DagBagLists.ImportErrorPairs` | tests/test-dag.py:30-32 | one `(relpath(k), strip(v))` pair per import error, same length, same order |
| `DagBagLists.ImportErrorList` | tests/test-dag.py:20-32 | the list starts with the `(None, None)` sentinel, so it is never empty; its length is 1 + the number of import errors, and entry i+1 is the i-th error's relative path and stripped message |
| `DagBagLists.DagTriples` | tests/test-dag.py:46 | one `(key, dag, relpath(dag.fileloc))` triple per DAG, same length, same order |
| `DagBagLists.DagList` | tests/test-dag.py:36-46 | `get_dags()` has exactly one triple per DAG of the bag, carrying its key, the DAG itself and its relative file location |
| `DagBagLists.DagListIds` | tests/test-dag.py:46 | the ids named by `get_dags()` are exactly the DAG ids of the bag |
| `DagBagLists.GetImportErrors` | tests/test-dag.py:20-32 | builds the import-error list inside `suppress_logging("airflow")`; afterwards the registry keeps every old logger object, adds only "airflow" (fresh, if it was new), and every logger's flag is as it was |
| `DagBagLists.GetDags` | tests/test-dag.py:36-46 | loads the bag inside `suppress_logging("airflow")` and builds the DAG list after it; afterwards the registry keeps every old logger object, adds only "airflow" (fresh, if it was new), and every logger's flag is as it was |
| `DagTests.Truthy` | tests/test-dag.py:55 | an optional string is truthy exactly when it is neither None nor the empty string |
| `DagTests.FileImportsTest` | tests/test-dag.py:53-56 | passes exactly when the path or the message is missing or empty; a failure is a plain `Exception` whose message starts with the path and ends with the error text |
| `DagTests.ImportEntryVerdict` | tests/test-dag.py:30-32 | on `get_import_errors()`, the sentinel passes, and an error's pair fails exactly when its relative path is non-empty and its message is not all whitespace |
| `DagTests.ImportSuiteVerdict` | tests/test-dag.py:49-56 | all import tests pass exactly when every import error has an empty relative path or a whitespace-only message |
| `DagTests.DagTagsTest` | tests/test-dag.py:60-70 | passes exactly when the tags are non-empty and every tag is approved; no tags reports "no tiene tags definidos", never the unapproved-tags message; a non-empty failing list has an unapproved tag and reports the list |
| `DagTests.TagsPolicyBySet` | tests/test-dag.py:69-70 | the per-tag policy equals the test's set form: the set of tags is non-empty and a subset of `APPROVED_TAGS` |
| `DagTests.TagsTestSeesOnlyTheSet` | tests/test-dag.py:70 | two DAGs with the same set of tags get the same tag verdict, whatever their order, repeats, ids or locations |
| `DagTests.RetriesRead` | tests/test-dag.py:81 | `default_args.get("retries", 0)`: the stored value when the key is present, the int 0 otherwise |
| `DagTests.DagRetriesTest` | tests/test-dag.py:81-84 | passes exactly when `retries` is an int of at least 2; a missing key is read as 0 and reports "Actualmente tiene: 0"; any other int or bool fails with an `AssertionError` whose message prints `str()` of the value read; only a str or None value raises, a `TypeError` naming its type |
| `DagTests.RetriesMessageReportsValue` | tests/test-dag.py:81-84 | any int retry count below 2 fails with an `AssertionError` whose message prints the value actually read: its sign, and digits that read back as its magnitude |
| `DagTests.DagSuiteVerdict` | tests/test-dag.py:62-84 | the tag and retry tests all pass on `get_dags()` exactly when every DAG of the bag has approved tags and at least two retries, wherever its file lives |
| `VentasPipeline.PipelineDag` | airflow/dags/ventas_pipeline.py:6-22 | the committed DAG has id `ventas360_pipeline` and no tags |
| `VentasPipeline.PipelineFailsBothChecks` | airflow/dags/ventas_pipeline.py:6-22 | the committed pipeline fails the tag test ("no tiene tags definidos") and the retry test ("Actualmente tiene: 1"), so the DAG suite does not pass |
| `VentasPipeline.PipelineImportsPass` | tests/test-dag.py:30-32 | a bag without import errors passes the import test; only the sentinel is checked |
| `VentasPipeline.CompliantPipelinePasses` | tests/test-dag.py:69-84 | the pipeline with tags `ventas360`, `etl` and three retries passes both DAG tests |
| `VentasPipeline.UnapprovedTagFails` | tests/test-dag.py:70 | a DAG tagged only `marketing` fails the tag test with the message listing `['marketing']` |

## Left out

- `DagBag(include_examples=False)`: Airflow's discovery and Python module import are not part of this model. The loaded bag is an input (its `dags` and `import_errors` dictionaries as ordered pairs), and loading never raises.
- `os.path.relpath` and `os.environ.get("AIRFLOW_HOME")`: `relpath` is a function parameter and the environment value is an `Option<string>` parameter.
- `PyText.ReprStringList`: quotes each tag with single quotes and does not model Python's escaping of quotes, backslashes and non-printable characters in `repr`.
- `DagTests.DagRetriesTest`: `default_args` values are ints, bools, strings or None. Floats and other Python objects are not modelled.
- `Logging.Registry.SuppressLogging`: the body's only effect is on the suppressed logger's flag. A body that changes other loggers is not modelled, and nor are logger hierarchy, handlers and levels.
- pytest parametrisation, test ids and the repeated calls to `get_dags()` are not modelled: they only feed the lists to the tests, and each call builds the same list from the same bag.
- pytest's assertion rewriting is not modelled: an `AssertionError` here carries the test's own message, while under pytest its text also holds pytest's explanation of the failed `assert` expression.
- The pipeline's schedule, `days_ago(1)`, `catchup`, the four `BashOperator` commands and their `>>` ordering are not modelled: they belong to Airflow, dbt and Snowflake.
- The DAG object's own `dag_id` is kept, but the tests name a DAG by its key in `dag_bag.dags`, and so does the model.
