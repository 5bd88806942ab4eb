/**
 * The Airflow operators built by the Dataproc helpers, each kept only as
 * the record of the keyword arguments passed to its constructor.
 */
module Operators {
  import opened Wrappers

  /** Cluster settings that are forwarded verbatim to the cluster-create operator. */
  datatype ClusterConfig = ClusterConfig(
    numWorkers: int,
    imageVersion: string,
    zone: string,
    idleDeleteTtl: string,
    autoDeleteTtl: string,
    masterMachineType: string,
    workerMachineType: string,
    numPreemptibleWorkers: int,
    serviceAccount: Option<string>,
    optionalComponents: seq<string>,
    installComponentGateway: bool)

  /** Defaults of `DataProcHelper.__init__`, `moz_dataproc_jar_runner` and `moz_dataproc_scriptrunner`. */
  const HELPER_DEFAULTS := ClusterConfig(2, "1.4", "us-west1-b", "14400", "28800",
                                         "n1-standard-8", "n1-standard-4", 0, None, ["ANACONDA"], true)

  /** `moz_dataproc_pyspark_runner` uses shorter time-to-live defaults. */
  const PYSPARK_DEFAULTS := HELPER_DEFAULTS.(idleDeleteTtl := "10800", autoDeleteTtl := "21600")

  const DEFAULT_ARTIFACT_BUCKET := "moz-fx-data-prod-airflow-dataproc-artifacts"
  const DEFAULT_GCP_CONN_ID := "google_cloud_airflow_dataproc"

  /** One operator instance of the DAG. */
  datatype Task =
    | ClusterCreate(          // DataprocClusterCreateOperator
        taskId: string,
        clusterName: Option<string>,
        gcpConnId: string,
        projectId: string,
        storageBucket: string,
        config: ClusterConfig,
        properties: map<string, string>,
        initActionsUris: seq<string>,
        metadata: map<string, string>)
    | PySparkJob(             // DataProcPySparkOperator
        taskId: string,
        jobName: Option<string>,
        clusterName: Option<string>,
        main: string,
        arguments: Option<seq<string>>,
        gcpConnId: string)
    | SparkJob(               // DataProcSparkOperator
        taskId: string,
        clusterName: Option<string>,
        jobName: Option<string>,
        dataprocSparkJars: seq<string>,
        mainClass: string,
        arguments: Option<seq<string>>,
        gcpConnId: string)
    | ClusterDelete(          // DataprocClusterDeleteOperator
        taskId: string,
        clusterName: Option<string>,
        gcpConnId: string,
        projectId: string)
  {
    /** The task that submits the job, between creation and deletion of the cluster. */
    predicate IsJob()
    {
      PySparkJob? || SparkJob?
    }
  }
}
