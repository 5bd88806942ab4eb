/**
 * A DAG as the tasks it holds and the dependency edges that `>>` declares
 * between them.
 */
module Workflow {
  import opened Wrappers
  import opened Operators

  const CREATE_TASK_ID := "create_dataproc_cluster"
  const DELETE_TASK_ID := "delete_dataproc_cluster"

  /** A DAG: its id, its tasks, and (upstream, downstream) pairs of task ids. */
  datatype Dag = Dag(dagId: string, tasks: seq<Task>, edges: seq<(string, string)>)

  /** `'{}.{}'.format(parent_dag_name, dag_name)`, the id Airflow expects of a sub-DAG. */
  function DagId(parentDagName: Option<string>, dagName: string): string
  {
    PyStr(parentDagName) + "." + dagName
  }

  /** Parent and child names are recovered from the DAG id when the parent name has no dot. */
  lemma DagIdInjective(p1: string, d1: string, p2: string, d2: string)
    requires '.' !in p1 && '.' !in p2
    requires DagId(Some(p1), d1) == DagId(Some(p2), d2)
    ensures p1 == p2 && d1 == d2
  {
    var s := DagId(Some(p1), d1);
    assert s == p1 + ['.'] + d1 == p2 + ['.'] + d2;
    FirstIndexAfter(p1, '.', d1);
    FirstIndexAfter(p2, '.', d2);
    assert p1 == s[..|p1|] == p2;
    assert d1 == s[|p1| + 1..] == d2;
  }

  /** A missing parent name and the parent name "None" give the same DAG id. */
  lemma NoneParentCollides(dagName: string)
    ensures DagId(None, dagName) == DagId(Some("None"), dagName)
  {
  }

  /** The position of the first `c` in `s`, or `|s|` when there is none. */
  function FirstIndex(s: string, c: char): nat
  {
    if s == [] || s[0] == c then 0 else 1 + FirstIndex(s[1..], c)
  }

  lemma {:induction false} FirstIndexAfter(p: string, c: char, rest: string)
    requires c !in p
    ensures FirstIndex(p + [c] + rest, c) == |p|
  {
    if p != [] {
      assert (p + [c] + rest)[1..] == p[1..] + [c] + rest;
      FirstIndexAfter(p[1..], c, rest);
    }
  }

  function TaskIds(tasks: seq<Task>): seq<string>
  {
    seq(|tasks|, i requires 0 <= i < |tasks| => tasks[i].taskId)
  }

  /** `t0 >> t1 >> ... >> tn`: each task is set upstream of the next one. */
  function Chain(ids: seq<string>): seq<(string, string)>
  {
    if |ids| < 2 then [] else [(ids[0], ids[1])] + Chain(ids[1..])
  }

  /** The ids of the tasks a task directly depends on. */
  function Upstream(edges: seq<(string, string)>, id: string): set<string>
  {
    set e | e in edges && e.1 == id :: e.0
  }

  /** The ids of the tasks that directly depend on a task. */
  function Downstream(edges: seq<(string, string)>, id: string): set<string>
  {
    set e | e in edges && e.0 == id :: e.1
  }

  predicate Distinct(ids: seq<string>)
  {
    forall i, j :: 0 <= i < j < |ids| ==> ids[i] != ids[j]
  }

  /** The edges of a chain are exactly the pairs of neighbours. */
  lemma {:induction false} ChainEdge(ids: seq<string>, e: (string, string))
    ensures e in Chain(ids) <==> exists j :: 0 <= j < |ids| - 1 && ids[j] == e.0 && ids[j + 1] == e.1
  {
    if |ids| >= 2 {
      ChainEdge(ids[1..], e);
      if e in Chain(ids[1..]) {
        var j :| 0 <= j < |ids| - 2 && ids[1..][j] == e.0 && ids[1..][j + 1] == e.1;
        assert ids[j + 1] == e.0 && ids[j + 2] == e.1;
      }
      if exists j :: 0 <= j < |ids| - 1 && ids[j] == e.0 && ids[j + 1] == e.1 {
        var j :| 0 <= j < |ids| - 1 && ids[j] == e.0 && ids[j + 1] == e.1;
        if j > 0 {
          assert ids[1..][j - 1] == e.0 && ids[1..][j] == e.1;
        }
      }
    }
  }

  /** In a chain of distinct tasks, each task's only predecessor is its left neighbour. */
  lemma ChainUpstream(ids: seq<string>, i: nat)
    requires Distinct(ids) && i < |ids|
    ensures Upstream(Chain(ids), ids[i]) == if i == 0 then {} else {ids[i - 1]}
  {
    forall x | x in Upstream(Chain(ids), ids[i])
      ensures i > 0 && x == ids[i - 1]
    {
      var e :| e in Chain(ids) && e.1 == ids[i] && e.0 == x;
      ChainEdge(ids, e);
      var j :| 0 <= j < |ids| - 1 && ids[j] == e.0 && ids[j + 1] == e.1;
      assert j + 1 == i;
    }
    if i > 0 {
      ChainEdge(ids, (ids[i - 1], ids[i]));
      assert (ids[i - 1], ids[i]) in Chain(ids);
    }
  }

  /** In a chain of distinct tasks, each task's only successor is its right neighbour. */
  lemma ChainDownstream(ids: seq<string>, i: nat)
    requires Distinct(ids) && i < |ids|
    ensures Downstream(Chain(ids), ids[i]) == if i == |ids| - 1 then {} else {ids[i + 1]}
  {
    forall x | x in Downstream(Chain(ids), ids[i])
      ensures i < |ids| - 1 && x == ids[i + 1]
    {
      var e :| e in Chain(ids) && e.0 == ids[i] && e.1 == x;
      ChainEdge(ids, e);
      var j :| 0 <= j < |ids| - 1 && ids[j] == e.0 && ids[j + 1] == e.1;
      assert j == i;
    }
    if i < |ids| - 1 {
      ChainEdge(ids, (ids[i], ids[i + 1]));
      assert (ids[i], ids[i + 1]) in Chain(ids);
    }
  }

  /**
   * The shape every runner returns: a cluster-create task, one job task and
   * a cluster-delete task, all on the same cluster, wired as
   * `create >> run >> delete`.
   */
  predicate ProvisionRunTeardown(dag: Dag)
  {
    && |dag.tasks| == 3
    && dag.tasks[0].ClusterCreate? && dag.tasks[0].taskId == CREATE_TASK_ID
    && dag.tasks[1].IsJob()
    && dag.tasks[2].ClusterDelete? && dag.tasks[2].taskId == DELETE_TASK_ID
    && dag.tasks[1].clusterName == dag.tasks[0].clusterName
    && dag.tasks[2].clusterName == dag.tasks[0].clusterName
    && Distinct(TaskIds(dag.tasks))
    && dag.edges == Chain(TaskIds(dag.tasks))
  }

  /** `create >> run >> delete` over three tasks with distinct ids. */
  function LinearDag(dagId: string, create: Task, run: Task, delete: Task): (dag: Dag)
    requires create.ClusterCreate? && create.taskId == CREATE_TASK_ID
    requires delete.ClusterDelete? && delete.taskId == DELETE_TASK_ID
    requires run.IsJob() && run.taskId != CREATE_TASK_ID && run.taskId != DELETE_TASK_ID
    requires run.clusterName == create.clusterName == delete.clusterName
    ensures ProvisionRunTeardown(dag)
    ensures dag.dagId == dagId && dag.tasks == [create, run, delete]
  {
    assert CREATE_TASK_ID[0] != DELETE_TASK_ID[0];
    assert TaskIds([create, run, delete]) == [create.taskId, run.taskId, delete.taskId];
    Dag(dagId, [create, run, delete], Chain([create.taskId, run.taskId, delete.taskId]))
  }

  /**
   * In the provision-run-teardown shape the job task waits for the cluster
   * to be created and nothing else, and the deletion waits for the job and
   * nothing else.
   */
  lemma ProvisionRunTeardownOrder(dag: Dag)
    requires ProvisionRunTeardown(dag)
    ensures Upstream(dag.edges, CREATE_TASK_ID) == {}
    ensures Upstream(dag.edges, dag.tasks[1].taskId) == {CREATE_TASK_ID}
    ensures Upstream(dag.edges, DELETE_TASK_ID) == {dag.tasks[1].taskId}
    ensures Downstream(dag.edges, CREATE_TASK_ID) == {dag.tasks[1].taskId}
    ensures Downstream(dag.edges, dag.tasks[1].taskId) == {DELETE_TASK_ID}
    ensures Downstream(dag.edges, DELETE_TASK_ID) == {}
  {
    var ids := TaskIds(dag.tasks);
    ChainUpstream(ids, 0);
    ChainUpstream(ids, 1);
    ChainUpstream(ids, 2);
    ChainDownstream(ids, 0);
    ChainDownstream(ids, 1);
    ChainDownstream(ids, 2);
  }
}
