# Dataproc sub-DAG helpers

A model of `dags/utils/dataproc.py` of telemetry-airflow. The file builds Airflow sub-DAGs that do three things. They create a transient Google Cloud Dataproc cluster. They run one job on it: a PySpark script, a jar, or a generic script through EMR's `script-runner.jar`. Then they delete the cluster. Each Airflow operator is kept only as the record of the arguments given to it (`Operators.Task`). A DAG is its id, its tasks and the dependency edges that `>>` declares (`Workflow.Dag`).

Modules:

- `Wrappers` (wrappers.dfy): `Option` for Python's `None`, `Result` for a call that raises, and Python truthiness and `'{}'.format` of an optional string.
- `EnvFormat` (env_format.dfy): `_format_envvar`. Its partner is a reader (`ParseEnvvar`) that splits the flattened string back into entries.
- `Operators` (operators.dfy): the operator records and the pass-through cluster settings with their defaults.
- `Workflow` (workflow.dfy): the DAG id `parent.child`, the `a >> b >> c` chain, and the provision-run-teardown shape.
- `Dataproc` (dataproc.dfy): the `DataProcHelper` class, the S3 credential properties, the script-runner argument list, and the three runners.

`DataProcHelper` sets its fields once in `__init__` and never changes them. It is a class with `const` fields. `create_cluster` builds its properties dict in a `for` loop with a conditional insert. `CreateCluster` is therefore a method with that loop, and it is proved against the declarative `S3aProperties`. The runners allocate a helper and call its methods, so they are methods that return `Result<Dag, Error>`. The keyword defaults of the source (`dag_name`, the cluster settings, the artifact bucket, the GCP connection id, and `None` elsewhere) are the default parameter values of the runners and of the helper's constructor. `_format_envvar`, the DAG id and the script-runner argument list are functions.

Behaviour of the code that a reader might not expect, modelled as written:

- `moz_dataproc_jar_runner` rejects only a `None` `jar_urls`. An empty list is accepted.
- `DataProcHelper` validates nothing. The runners check their own required arguments.
- The script-runner argument list has 7 elements, or 9 when `arguments` is truthy. The single "arguments" string is one list element.
- The error raised is Airflow's `AirflowException`, with the source's messages.
- `parent_dag_name` defaults to `None`. `'{}.{}'.format(None, d)` gives `"None." + d`, and `DagId` keeps that.

## Model

| member | source | states |
|---|---|---|
| `EnvFormat.FormatEnvvar` | dags/utils/dataproc.py:343-345 | The flattened environment is empty exactly when `env` is `None` or has no entries (`env or {}`) |
| `EnvFormat.FormatEnvvarSingle` | dags/utils/dataproc.py:345 | A single entry `{k: v}` flattens to exactly `k=v` |
| `EnvFormat.FormatEnvvarSnoc` | dags/utils/dataproc.py:345 | Entries are joined in iteration order by single spaces: one more entry at the end appends `" k=v"` |
| `EnvFormat.FormatEnvvarRoundTrip` | dags/utils/dataproc.py:345 | When no key or value holds a space and no key holds `=`, splitting on spaces and then at the first `=` gives back every entry in its order |
| `EnvFormat.SpaceInValueIsLossy` | dags/utils/dataproc.py:345 | A value that holds a space is read back as two entries (`{"a": "b c"}` flattens to `a=b c`), so the round trip needs its precondition |
| `Workflow.DagIdInjective` | dags/utils/dataproc.py:211 | The DAG id `parent.child` determines the parent and the child name when the parent name has no dot |
| `Workflow.NoneParentCollides` | dags/utils/dataproc.py:211 | A missing parent name renders as `None`, so it gives the same DAG id as the parent name `"None"` |
| `Workflow.ChainUpstream` | dags/utils/dataproc.py:227 | In `t0 >> t1 >> ... >> tn` over distinct task ids, the first task has no predecessor and every other task has only its left neighbour |
| `Workflow.ChainDownstream` | dags/utils/dataproc.py:338 | In such a chain, the last task has no successor and every other task has only its right neighbour |
| `Workflow.LinearDag` | dags/utils/dataproc.py:475 | `create >> run >> delete` over a create task, a job task and a delete task on one cluster forms the provision-run-teardown shape, with exactly those three tasks in that order |
| `Workflow.ProvisionRunTeardownOrder` | dags/utils/dataproc.py:475 | In that shape the job's only predecessor is `create_dataproc_cluster`, the deletion's only predecessor is the job, creation has no predecessor and deletion has no successor |
| `Dataproc.S3aProperties` | dags/utils/dataproc.py:60-67 | Empty when `aws_conn_id` is falsy. Otherwise `core:fs.s3a.access.key`, `secret.key` and `session.token` are present exactly for the credentials that are not `None`, each mapped to its credential. No other keys, at most 3 entries |
| `Dataproc.SessionlessCredentials` | dags/utils/dataproc.py:62-67 | A triple (key, secret, `None`) yields the access-key and secret-key entries and no session-token entry |
| `Dataproc.DataProcHelper.constructor` | dags/utils/dataproc.py:20-51 | The helper keeps the cluster name, settings, bucket and connection ids it is given |
| `Dataproc.DataProcHelper.CreateCluster` | dags/utils/dataproc.py:55-92 | The zip loop leaves exactly `S3aProperties` in the properties. The task is `create_dataproc_cluster` on the helper's cluster, with the scratch bucket, the settings passed through, the init action `gs://<bucket>/bootstrap/dataproc_init.sh` and the connector version pins |
| `Dataproc.DataProcHelper.DeleteCluster` | dags/utils/dataproc.py:94-102 | The task is `delete_dataproc_cluster` on the same cluster, connection and project as the helper |
| `Dataproc.ScriptRunnerArgs` | dags/utils/dataproc.py:447-455 | The list starts with exactly the bootstrap script, `--job-name`, the job, `--uri`, the uri, `--environment` and the flattened env. It has 7 elements when `arguments` is falsy (`None` or `""`), and otherwise ends with exactly `--arguments` and its value |
| `Dataproc.ScriptRunnerArgsOptions` | dags/utils/dataproc.py:447-455 | Read as `--flag value` pairs after the script location, the list gives back the job name, the uri, the flattened environment, and the arguments only when they were truthy |
| `Dataproc.ScriptRunnerArgsExample` | dags/utils/dataproc.py:444-455 | Job `J`, uri `gs://b/s.py`, env `{"k": "v"}` and arguments `-d 1` give the nine-element list ending `--environment`, `k=v`, `--arguments`, `-d 1` |
| `Dataproc.PySparkRunner` | dags/utils/dataproc.py:192-228 | Fails with the source's message exactly when `cluster_name` or `python_driver_code` is `None`. Otherwise the DAG is `parent.child` and has the provision-run-teardown shape. Its create task is exactly what `create_cluster` builds (same connection, project, scratch bucket, S3 properties, init action and connector pins). Its job is `run_dataproc_pyspark` with the driver and `py_args` on the same cluster |
| `Dataproc.JarRunner` | dags/utils/dataproc.py:300-339 | Fails exactly when `cluster_name`, `jar_urls` or `main_class` is `None`, so an empty jar list is accepted. Otherwise the DAG has the same shape and exactly `create_cluster`'s create task, and its job `run_jar_on_dataproc` submits `jar_urls` with `main_class` and `jar_args` |
| `Dataproc.ScriptRunnerRebuild` | dags/utils/dataproc.py:424-476 | Two builds of the script-runner sub-DAG from the same inputs (other arguments at their defaults) are equal, and create and delete target the same project |
| `Dataproc.ScriptRunner` | dags/utils/dataproc.py:424-476 | Fails exactly when `job_name`, `uri` or `cluster_name` is `None`. Otherwise the DAG has the same shape and exactly `create_cluster`'s create task, and its job always submits the single jar `gs://<bucket>/bin/script-runner.jar` with the `ScriptRunner` main class, whatever the uri, and `ScriptRunnerArgs` as its arguments |

## Left out

- Airflow itself is not modelled: `models.DAG`, `SubDagOperator`, `default_args`, and what the operators do when run. Each operator is the record of its constructor arguments, and `>>` is the edges it declares.
- `DataprocClusterCreateOperator` (from `operators.moz_dataproc_operator`) is not part of this model. Its construction is a record.
- `GoogleCloudBaseHook` and its `project_id` lookup are network I/O. The project id is an input of the helper.
- `AwsHook(aws_conn_id).get_credentials()` is a credential-store read. The triple it returns is an input of `CreateCluster` and the runners, so a failed lookup is not modelled. The model does not show that the lookup happens only after the runner's argument check; the runner methods still check first.
- Jinja templates such as `{{ ds_nodash }}` are opaque strings.
- `EnvFormat.FormatEnvvar`: environment values are strings. Python would render other values with `str()`. A sequence of pairs can repeat a key, which a dict cannot.
- The pass-through cluster settings (machine types, TTLs, zone, components) are copied verbatim. `Operators.ClusterConfig` holds them, and no property about them is proved beyond the copy.
