/**
 * The Dataproc helpers: a transient cluster is created, one job runs on it
 * and the cluster is deleted, as a three-task sub-DAG.
 *
 * Two lookups are inputs here: the AWS credential triple that
 * `AwsHook(aws_conn_id).get_credentials()` returns, and the GCP project id
 * of the helper's connection.
 */
module Dataproc {
  import opened Wrappers
  import opened EnvFormat
  import opened Operators
  import opened Workflow

  /** The error raised by the runners. */
  datatype Error = AirflowException(message: string)

  /** The (access key, secret key, session token) triple read from an AWS connection. */
  datatype Credentials = Credentials(accessKey: Option<string>, secretKey: Option<string>, token: Option<string>)
  {
    /** The triple in the order it is zipped with the property names. */
    function Values(): seq<Option<string>>
    {
      [accessKey, secretKey, token]
    }
  }

  const S3A_PREFIX := "core:fs.s3a."
  /** The names zipped with the credential triple. */
  const S3A_KEYS: seq<string> := ["access.key", "secret.key", "session.token"]

  const ACCESS_KEY_PROPERTY := S3A_PREFIX + S3A_KEYS[0]
  const SECRET_KEY_PROPERTY := S3A_PREFIX + S3A_KEYS[1]
  const SESSION_TOKEN_PROPERTY := S3A_PREFIX + S3A_KEYS[2]
  const S3A_PROPERTIES := [ACCESS_KEY_PROPERTY, SECRET_KEY_PROPERTY, SESSION_TOKEN_PROPERTY]

  lemma S3aPropertiesDistinct()
    ensures ACCESS_KEY_PROPERTY != SECRET_KEY_PROPERTY
    ensures ACCESS_KEY_PROPERTY != SESSION_TOKEN_PROPERTY
    ensures SECRET_KEY_PROPERTY != SESSION_TOKEN_PROPERTY
  {
    assert ACCESS_KEY_PROPERTY[12] == 'a' && SECRET_KEY_PROPERTY[12] == 's';
    assert SESSION_TOKEN_PROPERTY[12] == 's';
    assert SECRET_KEY_PROPERTY[14] == 'c' && SESSION_TOKEN_PROPERTY[14] == 's';
  }

  /** The credential that belongs under a property name, if any. */
  function CredentialFor(creds: Credentials, name: string): Option<string>
  {
    if name == ACCESS_KEY_PROPERTY then creds.accessKey
    else if name == SECRET_KEY_PROPERTY then creds.secretKey
    else if name == SESSION_TOKEN_PROPERTY then creds.token
    else None
  }

  /**
   * The Hadoop properties a cluster gets for reading S3: nothing without an
   * AWS connection, otherwise one `core:fs.s3a.*` entry per credential that
   * is not `None`.
   */
  function S3aProperties(awsConnId: Option<string>, creds: Credentials): (props: map<string, string>)
    ensures !Truthy(awsConnId) ==> props == map[]
    ensures Truthy(awsConnId) ==>
      && (ACCESS_KEY_PROPERTY in props <==> creds.accessKey.Some?)
      && (SECRET_KEY_PROPERTY in props <==> creds.secretKey.Some?)
      && (SESSION_TOKEN_PROPERTY in props <==> creds.token.Some?)
      && (creds.accessKey.Some? ==> props[ACCESS_KEY_PROPERTY] == creds.accessKey.value)
      && (creds.secretKey.Some? ==> props[SECRET_KEY_PROPERTY] == creds.secretKey.value)
      && (creds.token.Some? ==> props[SESSION_TOKEN_PROPERTY] == creds.token.value)
    ensures props.Keys <= {ACCESS_KEY_PROPERTY, SECRET_KEY_PROPERTY, SESSION_TOKEN_PROPERTY}
    ensures |props| <= 3
  {
    S3aPropertiesDistinct();
    var props := if !Truthy(awsConnId) then map[]
      else map name | name in S3A_PROPERTIES && CredentialFor(creds, name).Some? :: CredentialFor(creds, name).value;
    SubsetOfThree(props.Keys, ACCESS_KEY_PROPERTY, SECRET_KEY_PROPERTY, SESSION_TOKEN_PROPERTY);
    props
  }

  lemma SubsetOfThree(s: set<string>, a: string, b: string, c: string)
    requires s <= {a, b, c}
    ensures |s| <= 3
  {
    assert |{a, b, c}| <= 3;
    SubsetCard(s, {a, b, c});
  }

  lemma {:induction false} SubsetCard(s: set<string>, t: set<string>)
    requires s <= t
    ensures |s| <= |t|
  {
    if s != {} {
      var x :| x in s;
      SubsetCard(s - {x}, t - {x});
    }
  }

  /** A session-less credential (key, secret, None) yields the two key entries only. */
  lemma SessionlessCredentials(awsConnId: string, key: string, secret: string)
    requires awsConnId != ""
    ensures S3aProperties(Some(awsConnId), Credentials(Some(key), Some(secret), None))
         == map[ACCESS_KEY_PROPERTY := key, SECRET_KEY_PROPERTY := secret]
  {
    var props := S3aProperties(Some(awsConnId), Credentials(Some(key), Some(secret), None));
    S3aPropertiesDistinct();
    assert props.Keys == {ACCESS_KEY_PROPERTY, SECRET_KEY_PROPERTY};
  }

  const SCRATCH_BUCKET := "moz-fx-data-prod-dataproc-scratch"

  /** The connector versions pinned in every cluster's metadata. */
  const CONNECTOR_METADATA := map["gcs-connector-version" := "1.9.16", "bigquery-connector-version" := "0.13.6"]

  /** The cluster initialisation script kept in the artifact bucket. */
  function InitActionUri(artifactBucket: string): string
  {
    "gs://" + artifactBucket + "/bootstrap/dataproc_init.sh"
  }

  /** Creates and deletes one cluster; its settings are fixed when it is built. */
  class DataProcHelper {
    const clusterName: Option<string>
    const config: ClusterConfig
    const artifactBucket: string
    const awsConnId: Option<string>
    const gcpConnId: string
    /** `self.connection.project_id`, looked up through the GCP connection. */
    const projectId: string

    constructor (projectId: string, clusterName: Option<string> := None, config: ClusterConfig := HELPER_DEFAULTS,
                 artifactBucket: string := DEFAULT_ARTIFACT_BUCKET, awsConnId: Option<string> := None,
                 gcpConnId: string := DEFAULT_GCP_CONN_ID)
      ensures this.clusterName == clusterName && this.config == config
      ensures this.artifactBucket == artifactBucket && this.awsConnId == awsConnId
      ensures this.gcpConnId == gcpConnId && this.projectId == projectId
    {
      this.clusterName := clusterName;
      this.config := config;
      this.artifactBucket := artifactBucket;
      this.awsConnId := awsConnId;
      this.gcpConnId := gcpConnId;
      this.projectId := projectId;
    }

    /**
     * `create_cluster`: the S3 properties are collected by zipping the
     * property names with the credential triple, skipping `None` values.
     * `creds` is what the AWS connection returns; it is only read when
     * `awsConnId` is truthy.
     */
    method CreateCluster(creds: Credentials) returns (task: Task)
      ensures task.ClusterCreate? && task.taskId == CREATE_TASK_ID
      ensures task.clusterName == clusterName && task.gcpConnId == gcpConnId && task.projectId == projectId
      ensures task.storageBucket == SCRATCH_BUCKET && task.config == config
      ensures task.properties == S3aProperties(awsConnId, creds)
      ensures task.initActionsUris == [InitActionUri(artifactBucket)]
      ensures task.metadata == CONNECTOR_METADATA
    {
      var properties: map<string, string> := map[];
      if Truthy(awsConnId) {
        var values := creds.Values();
        S3aPropertiesDistinct();
        for i := 0 to |S3A_KEYS|
          invariant properties == map name | name in S3A_PROPERTIES[..i] && CredentialFor(creds, name).Some? :: CredentialFor(creds, name).value
        {
          assert S3A_PROPERTIES[..i + 1] == S3A_PROPERTIES[..i] + [S3A_PREFIX + S3A_KEYS[i]];
          assert CredentialFor(creds, S3A_PREFIX + S3A_KEYS[i]) == values[i];
          if values[i].Some? {
            properties := properties[S3A_PREFIX + S3A_KEYS[i] := values[i].value];
          }
        }
        assert S3A_PROPERTIES[..3] == S3A_PROPERTIES;
      }
      task := ClusterCreate(CREATE_TASK_ID, clusterName, gcpConnId, projectId, SCRATCH_BUCKET, config,
                            properties, [InitActionUri(artifactBucket)], CONNECTOR_METADATA);
    }

    /** `delete_cluster`: tears down the cluster this helper creates. */
    method DeleteCluster() returns (task: Task)
      ensures task.ClusterDelete? && task.taskId == DELETE_TASK_ID
      ensures task.clusterName == clusterName && task.gcpConnId == gcpConnId && task.projectId == projectId
    {
      task := ClusterDelete(DELETE_TASK_ID, clusterName, gcpConnId, projectId);
    }
  }

  const PYSPARK_TASK_ID := "run_dataproc_pyspark"
  const JAR_TASK_ID := "run_jar_on_dataproc"
  const SCRIPT_TASK_ID := "run_script_on_dataproc"

  /** The default `dag_name` of each runner (the jar runner reuses the script runner's). */
  const PYSPARK_DEFAULT_DAG_NAME := "run_pyspark_on_dataproc"
  const JAR_DEFAULT_DAG_NAME := "run_script_on_dataproc"
  const SCRIPT_DEFAULT_DAG_NAME := "run_script_on_dataproc"

  /** The entry point of EMR's script-runner.jar, which runs the bootstrap script. */
  const SCRIPT_RUNNER_MAIN_CLASS := "com.amazon.elasticmapreduce.scriptrunner.ScriptRunner"

  function ScriptRunnerJar(artifactBucket: string): string
  {
    "gs://" + artifactBucket + "/bin/script-runner.jar"
  }

  /** The `airflow_gcp.sh` entry-point script that runs the target script. */
  function BootstrapScript(artifactBucket: string): string
  {
    "gs://" + artifactBucket + "/bootstrap/airflow_gcp.sh"
  }

  /**
   * The argument list handed to the script runner: the bootstrap script,
   * then `--job-name`, `--uri` and `--environment` with their values, and
   * `--arguments` only when `arguments` is truthy.
   */
  function ScriptRunnerArgs(artifactBucket: string, jobName: string, uri: string,
                            env: Option<Env>, arguments: Option<string>): (args: seq<string>)
    ensures |args| == if Truthy(arguments) then 9 else 7
    ensures args[..7] == [BootstrapScript(artifactBucket), "--job-name", jobName, "--uri", uri,
                          "--environment", FormatEnvvar(env)]
    ensures Truthy(arguments) ==> args[7..] == ["--arguments", arguments.value]
  {
    var fixed := [BootstrapScript(artifactBucket), "--job-name", jobName, "--uri", uri,
                  "--environment", FormatEnvvar(env)];
    if Truthy(arguments) then fixed + ["--arguments", arguments.value] else fixed
  }

  /** How the bootstrap script reads an option: the value after the first `flag` among the `--flag value` pairs. */
  function OptionValue(pairs: seq<string>, flag: string): Option<string>
  {
    if |pairs| < 2 then None
    else if pairs[0] == flag then Some(pairs[1])
    else OptionValue(pairs[2..], flag)
  }

  /**
   * The bootstrap script, reading the options after its own location, gets
   * back the job name, the target script, the flattened environment and the
   * free-form arguments (absent when they were falsy).
   */
  lemma ScriptRunnerArgsOptions(artifactBucket: string, jobName: string, uri: string,
                                env: Option<Env>, arguments: Option<string>)
    ensures var opts := ScriptRunnerArgs(artifactBucket, jobName, uri, env, arguments)[1..];
      && OptionValue(opts, "--job-name") == Some(jobName)
      && OptionValue(opts, "--uri") == Some(uri)
      && OptionValue(opts, "--environment") == Some(FormatEnvvar(env))
      && OptionValue(opts, "--arguments") == if Truthy(arguments) then Some(arguments.value) else None
  {
    var e := FormatEnvvar(env);
    var tail := if Truthy(arguments) then ["--arguments", arguments.value] else [];
    var args := ScriptRunnerArgs(artifactBucket, jobName, uri, env, arguments);
    assert args == args[..7] + args[7..];
    var opts := args[1..];
    assert opts == ["--job-name", jobName, "--uri", uri, "--environment", e] + tail;
    assert opts[2..] == ["--uri", uri, "--environment", e] + tail;
    assert opts[2..][2..] == ["--environment", e] + tail;
    assert opts[2..][2..][2..] == tail;
    assert OptionValue(opts, "--environment") == OptionValue(opts[2..], "--environment")
        == OptionValue(opts[2..][2..], "--environment") == Some(e);
    assert OptionValue(opts, "--arguments") == OptionValue(opts[2..], "--arguments")
        == OptionValue(opts[2..][2..], "--arguments") == OptionValue(tail, "--arguments");
  }

  /** The example of the script runner's documentation: a one-entry environment and arguments. */
  lemma ScriptRunnerArgsExample(artifactBucket: string)
    ensures ScriptRunnerArgs(artifactBucket, "J", "gs://b/s.py", Some([("k", "v")]), Some("-d 1"))
         == [BootstrapScript(artifactBucket), "--job-name", "J", "--uri", "gs://b/s.py",
             "--environment", "k=v", "--arguments", "-d 1"]
  {
    FormatEnvvarSingle("k", "v");
    assert "k" + "=" + "v" == "k=v";
    var args := ScriptRunnerArgs(artifactBucket, "J", "gs://b/s.py", Some([("k", "v")]), Some("-d 1"));
    assert args == args[..7] + args[7..];
  }

  /**
   * `moz_dataproc_pyspark_runner`: fails unless `cluster_name` and
   * `python_driver_code` are given; otherwise a create, run-PySpark, delete
   * sub-DAG. `creds` and `projectId` stand for the two connection lookups.
   */
  method PySparkRunner(creds: Credentials, projectId: string,
                       parentDagName: Option<string> := None, dagName: string := PYSPARK_DEFAULT_DAG_NAME,
                       clusterName: Option<string> := None, config: ClusterConfig := PYSPARK_DEFAULTS,
                       pythonDriverCode: Option<string> := None, pyArgs: Option<seq<string>> := None,
                       jobName: Option<string> := None, artifactBucket: string := DEFAULT_ARTIFACT_BUCKET,
                       awsConnId: Option<string> := None, gcpConnId: string := DEFAULT_GCP_CONN_ID)
    returns (r: Result<Dag, Error>)
    ensures r.Failure? <==> clusterName.None? || pythonDriverCode.None?
    ensures r.Failure? ==> r.error == AirflowException("Please specify cluster_name and/or python_driver_code.")
    ensures r.Success? ==>
      && ProvisionRunTeardown(r.value)
      && r.value.dagId == DagId(parentDagName, dagName)
      && r.value.tasks[0] == ClusterCreate(CREATE_TASK_ID, clusterName, gcpConnId, projectId, SCRATCH_BUCKET, config,
                                           S3aProperties(awsConnId, creds), [InitActionUri(artifactBucket)],
                                           CONNECTOR_METADATA)
      && r.value.tasks[1] == PySparkJob(PYSPARK_TASK_ID, jobName, clusterName, pythonDriverCode.value, pyArgs, gcpConnId)
      && r.value.tasks[2] == ClusterDelete(DELETE_TASK_ID, clusterName, gcpConnId, projectId)
  {
    if clusterName.None? || pythonDriverCode.None? {
      return Failure(AirflowException("Please specify cluster_name and/or python_driver_code."));
    }
    var helper := new DataProcHelper(projectId, clusterName, config, artifactBucket, awsConnId, gcpConnId);
    var dagId := DagId(parentDagName, dagName);
    var create := helper.CreateCluster(creds);
    var run := PySparkJob(PYSPARK_TASK_ID, jobName, clusterName, pythonDriverCode.value, pyArgs, gcpConnId);
    var delete := helper.DeleteCluster();
    assert PYSPARK_TASK_ID[0] != CREATE_TASK_ID[0] && PYSPARK_TASK_ID[0] != DELETE_TASK_ID[0];
    r := Success(LinearDag(dagId, create, run, delete));
  }

  /**
   * `moz_dataproc_jar_runner`: fails unless `cluster_name`, `jar_urls` and
   * `main_class` are given (an empty jar list is accepted); otherwise a
   * create, run-jar, delete sub-DAG.
   */
  method JarRunner(creds: Credentials, projectId: string,
                   parentDagName: Option<string> := None, dagName: string := JAR_DEFAULT_DAG_NAME,
                   clusterName: Option<string> := None, config: ClusterConfig := HELPER_DEFAULTS,
                   jarUrls: Option<seq<string>> := None, mainClass: Option<string> := None,
                   jarArgs: Option<seq<string>> := None, jobName: Option<string> := None,
                   artifactBucket: string := DEFAULT_ARTIFACT_BUCKET,
                   awsConnId: Option<string> := None, gcpConnId: string := DEFAULT_GCP_CONN_ID)
    returns (r: Result<Dag, Error>)
    ensures r.Failure? <==> clusterName.None? || jarUrls.None? || mainClass.None?
    ensures r.Failure? ==> r.error == AirflowException("Please specify cluster_name, jar_urls, and/or main_class.")
    ensures r.Success? ==>
      && ProvisionRunTeardown(r.value)
      && r.value.dagId == DagId(parentDagName, dagName)
      && r.value.tasks[0] == ClusterCreate(CREATE_TASK_ID, clusterName, gcpConnId, projectId, SCRATCH_BUCKET, config,
                                           S3aProperties(awsConnId, creds), [InitActionUri(artifactBucket)],
                                           CONNECTOR_METADATA)
      && r.value.tasks[1] == SparkJob(JAR_TASK_ID, clusterName, jobName, jarUrls.value, mainClass.value, jarArgs, gcpConnId)
      && r.value.tasks[2] == ClusterDelete(DELETE_TASK_ID, clusterName, gcpConnId, projectId)
  {
    if clusterName.None? || jarUrls.None? || mainClass.None? {
      return Failure(AirflowException("Please specify cluster_name, jar_urls, and/or main_class."));
    }
    var helper := new DataProcHelper(projectId, clusterName, config, artifactBucket, awsConnId, gcpConnId);
    var dagId := DagId(parentDagName, dagName);
    var create := helper.CreateCluster(creds);
    var run := SparkJob(JAR_TASK_ID, clusterName, jobName, jarUrls.value, mainClass.value, jarArgs, gcpConnId);
    var delete := helper.DeleteCluster();
    assert JAR_TASK_ID[0] != CREATE_TASK_ID[0] && JAR_TASK_ID[0] != DELETE_TASK_ID[0];
    r := Success(LinearDag(dagId, create, run, delete));
  }

  /**
   * `moz_dataproc_scriptrunner`: fails unless `job_name`, `uri` and
   * `cluster_name` are given; otherwise a create, run, delete sub-DAG whose
   * job always submits the script-runner jar, which runs the bootstrap
   * script with the target `uri` among its arguments.
   */
  method ScriptRunner(creds: Credentials, projectId: string,
                      parentDagName: Option<string> := None, dagName: string := SCRIPT_DEFAULT_DAG_NAME,
                      clusterName: Option<string> := None, config: ClusterConfig := HELPER_DEFAULTS,
                      uri: Option<string> := None, env: Option<Env> := None,
                      arguments: Option<string> := None, artifactBucket: string := DEFAULT_ARTIFACT_BUCKET,
                      jobName: Option<string> := None,
                      awsConnId: Option<string> := None, gcpConnId: string := DEFAULT_GCP_CONN_ID)
    returns (r: Result<Dag, Error>)
    ensures r.Failure? <==> jobName.None? || uri.None? || clusterName.None?
    ensures r.Failure? ==> r.error == AirflowException("Please specify job_name, uri, and cluster_name.")
    ensures r.Success? ==>
      && ProvisionRunTeardown(r.value)
      && r.value.dagId == DagId(parentDagName, dagName)
      && r.value.tasks[0] == ClusterCreate(CREATE_TASK_ID, clusterName, gcpConnId, projectId, SCRATCH_BUCKET, config,
                                           S3aProperties(awsConnId, creds), [InitActionUri(artifactBucket)],
                                           CONNECTOR_METADATA)
      && r.value.tasks[1] == SparkJob(SCRIPT_TASK_ID, clusterName, jobName, [ScriptRunnerJar(artifactBucket)],
                                      SCRIPT_RUNNER_MAIN_CLASS,
                                      Some(ScriptRunnerArgs(artifactBucket, jobName.value, uri.value, env, arguments)),
                                      gcpConnId)
      && r.value.tasks[2] == ClusterDelete(DELETE_TASK_ID, clusterName, gcpConnId, projectId)
  {
    if jobName.None? || uri.None? || clusterName.None? {
      return Failure(AirflowException("Please specify job_name, uri, and cluster_name."));
    }
    var helper := new DataProcHelper(projectId, clusterName, config, artifactBucket, awsConnId, gcpConnId);
    var dagId := DagId(parentDagName, dagName);
    var environment := FormatEnvvar(env);
    var jarUrl := ScriptRunnerJar(artifactBucket);
    var args := [BootstrapScript(artifactBucket), "--job-name", jobName.value, "--uri", uri.value,
                 "--environment", environment];
    if Truthy(arguments) {
      args := args + ["--arguments", arguments.value];
    }
    var create := helper.CreateCluster(creds);
    var run := SparkJob(SCRIPT_TASK_ID, clusterName, jobName, [jarUrl], SCRIPT_RUNNER_MAIN_CLASS, Some(args), gcpConnId);
    var delete := helper.DeleteCluster();
    assert SCRIPT_TASK_ID[0] != CREATE_TASK_ID[0] && SCRIPT_TASK_ID[0] != DELETE_TASK_ID[0];
    r := Success(LinearDag(dagId, create, run, delete));
  }

  /**
   * Building the script-runner sub-DAG twice from the same inputs gives equal
   * DAGs, and in each the cluster is created and deleted in the same project.
   */
  method ScriptRunnerRebuild(creds: Credentials, projectId: string, clusterName: string, jobName: string,
                             uri: string, env: Env, arguments: Option<string>)
    returns (first: Result<Dag, Error>, second: Result<Dag, Error>)
    ensures first.Success? && ProvisionRunTeardown(first.value) && first == second
    ensures first.value.tasks[0].projectId == first.value.tasks[2].projectId == projectId
  {
    first := ScriptRunner(creds, projectId, clusterName := Some(clusterName), uri := Some(uri),
                          env := Some(env), arguments := arguments, jobName := Some(jobName));
    second := ScriptRunner(creds, projectId, clusterName := Some(clusterName), uri := Some(uri),
                           env := Some(env), arguments := arguments, jobName := Some(jobName));
    assert first.value.tasks == second.value.tasks;
    assert first.value == second.value;
  }
}
