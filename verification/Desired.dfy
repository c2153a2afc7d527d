/** The names the operator uses and the objects it wants: its pure builders. */
module Desired {
  import opened Kubernetes

  // ---------- Operators installed through OLM ----------

  /** One operator that is installed through a Subscription.  `strict` tells the two copies of
      the installer apart that return after a failed namespace check from the one that goes on. */
  datatype Component = Component(
    namespace: string, subscription: string, channel: string, csv: string, group: string, strict: bool)

  const LOGIC := Component(
    "openshift-serverless-logic", "logic-operator-rhel8", "alpha",
    "logic-operator-rhel8.v1.36.0", "serverless-operator-group", true)

  const SERVERLESS := Component(
    "openshift-serverless", "serverless-operator", "stable",
    "serverless-operator.v1.36.0", "serverless-operator-group", false)

  const RHDH := Component(
    "rhdh-operator", "rhdh", "fast-1.6",
    "rhdh-operator.v1.6.1", "rhdh-operator-group", true)

  const COMPONENTS := {LOGIC, SERVERLESS, RHDH}

  function SubscriptionKey(c: Component): Key {
    Key(Subscription, c.namespace, c.subscription)
  }

  function GroupKey(c: Component): Key {
    Key(OperatorGroup, c.namespace, c.group)
  }

  function PlanKey(c: Component, plan: string): Key {
    Key(InstallPlan, c.namespace, plan)
  }

  function CreateSubscriptionSpec(c: Component): SubscriptionSpec {
    SubscriptionSpec(c.channel, Manual, "redhat-operators", c.csv, "openshift-marketplace", c.subscription)
  }

  function CreateSubscriptionObject(c: Component): Obj {
    Obj(OrchestratorLabel(), SubscriptionBody(CreateSubscriptionSpec(c), Unresolved))
  }

  const NEW_NAMESPACE := Obj(OrchestratorLabel(), Blank)
  const NEW_GROUP := Obj(map[], Blank)

  function Adopted(ns: Obj): Obj {
    ns.(labels := ns.labels[CREATED_BY := ORCHESTRATOR])
  }

  /** The Subscription with the spec the operator wants. */
  function Repaired(c: Component, sub: Obj): Obj
    requires sub.body.SubscriptionBody?
  {
    sub.(body := sub.body.(spec := CreateSubscriptionSpec(c)))
  }

  function Approved(plan: Obj): Obj
    requires plan.body.InstallPlanBody?
  {
    plan.(body := plan.body.(approved := true))
  }

  // ---------- Serverless logic ----------

  const CLUSTER_PLATFORM_CRD := "sonataflowclusterplatforms.sonataflow.org"
  const CLUSTER_PLATFORM_KEY := Key(SonataFlowClusterPlatform, "", "cluster-platform")
  const PLATFORM_NAME := "sonataflow-platform"

  function CRDKey(name: string): Key {
    Key(CustomResourceDefinition, "", name)
  }

  function PlatformKey(ns: string): Key {
    Key(SonataFlowPlatform, ns, PLATFORM_NAME)
  }

  function ClusterPlatform(ns: string): Obj {
    Obj(OrchestratorLabel(), ClusterPlatformBody(PLATFORM_NAME, ns))
  }

  function ServerlessLogicPersistence(s: Spec): Persistence {
    Persistence(s.postgres.secretName, s.postgres.userKey, s.postgres.passwordKey,
                s.postgres.name, s.postgres.namespace, s.postgres.database)
  }

  function EventingBroker(s: Spec): Option<Broker> {
    if s.platform.broker == Broker("", "") then None else Some(s.platform.broker)
  }

  function Platform(s: Spec): Obj {
    Obj(OrchestratorLabel(),
        PlatformBody(PlatformSpec(s.platform.limits, s.platform.requests, s.platform.monitoring,
                                  ServerlessLogicPersistence(s), ServerlessLogicPersistence(s),
                                  EventingBroker(s))))
  }

  // ---------- Knative ----------

  const EVENTING := "knative-eventing"
  const SERVING := "knative-serving"
  const EVENTING_CRD := "knativeeventings.operator.knative.dev"
  const SERVING_CRD := "knativeservings.operator.knative.dev"
  const EVENTING_KEY := Key(KnativeEventing, EVENTING, EVENTING)
  const SERVING_KEY := Key(KnativeServing, SERVING, SERVING)
  lemma KnativeKinds()
    ensures EVENTING_KEY.kind == KnativeEventing && EVENTING_KEY.ns == EVENTING
    ensures SERVING_KEY.kind == KnativeServing && SERVING_KEY.ns == SERVING
  {
  }

  const KNATIVE_CR := Obj(OrchestratorLabel(), Blank)

  // ---------- RHDH ----------

  const BACKSTAGE_CRD := "backstages.rhdh.redhat.com"
  const CLUSTER_INGRESS_KEY := Key(ClusterIngress, "", "cluster")
  const REGISTRY_SECRET := "dynamic-plugins-npmrc"
  const APP_CONFIG := "app-config-rhdh"
  const APP_CONFIG_AUTH := "app-config-rhdh-auth"
  const APP_CONFIG_CATALOG := "app-config-rhdh-catalog"
  const DYNAMIC_PLUGINS := "dynamic-plugins-rhdh"

  /** The data key of each ConfigMap. */
  const CONFIG_MAPS: map<string, string> := map[
    APP_CONFIG := "app-config-rhdh.yaml",
    APP_CONFIG_AUTH := "app-config-auth.gh.yaml",
    APP_CONFIG_CATALOG := "app-config-catalog.yaml",
    DYNAMIC_PLUGINS := "dynamic-plugins.yaml"]

  function SecretKey(ns: string): Key {
    Key(Secret, ns, REGISTRY_SECRET)
  }

  function BackstageKey(c: RHDHConfig): Key {
    Key(Backstage, c.namespace, c.name)
  }

  function ConfigMapKey(ns: string, name: string): Key {
    Key(ConfigMap, ns, name)
  }

  const NPMRC := Obj(OrchestratorLabel(), DataBody(map[".npmrc" := Literal("registry=https://npm.registry.redhat.com")]))

  /** The template factory: unknown template names render to the empty text. */
  function ConfigMapTemplate(name: string, domain: string, workflowNs: string,
                             argoCD: bool, tekton: bool, rhdh: RHDHConfig): Text
  {
    if name in {APP_CONFIG, APP_CONFIG_AUTH, APP_CONFIG_CATALOG, DYNAMIC_PLUGINS}
    then Rendered(name, domain, workflowNs, argoCD, tekton, rhdh)
    else Literal("")
  }

  function NewConfigMap(dataKey: string, text: Text): Obj {
    Obj(OrchestratorLabel(), DataBody(map[dataKey := text]))
  }

  function NewBackstage(configMaps: seq<string>): Obj {
    Obj(OrchestratorLabel(), BackstageBody(configMaps, DYNAMIC_PLUGINS, ["backstage-backend-auth-secret"], 1))
  }

  // ---------- Network policies ----------

  const MONITORING_NS := "openshift-user-workload-monitoring"
  const ALLOW_RHDH := "allow-rhdh-to-sonataflow-and-workflows"
  const ALLOW_INTRA := "allow-intra-namespace"
  const ALLOW_MONITORING := "allow-monitoring-to-sonataflow-and-workflows"
  const ALLOW_LOGIC := "allow-openshift-serverless-logic-to-sonataflow-and-workflows"
  const NETWORK_POLICIES: seq<string> := [ALLOW_RHDH, ALLOW_INTRA, ALLOW_MONITORING, ALLOW_LOGIC]

  function PolicyKey(ns: string, name: string): Key {
    Key(NetworkPolicy, ns, name)
  }

  function CreateIngress(name: string, workflowNs: string, rhdhNs: string, databaseNs: string): seq<seq<PolicyPeer>> {
    if name == ALLOW_RHDH then
      [[FromNamespace(EVENTING), FromNamespace(SERVING), FromNamespace(workflowNs),
        FromNamespace(rhdhNs), FromNamespace(databaseNs)]]
    else if name == ALLOW_INTRA then
      [[FromPodsOfThisNamespace]]
    else if name == ALLOW_MONITORING then
      [[FromNamespace(MONITORING_NS)]]
    else if name == ALLOW_LOGIC then
      [[FromNamespace(LOGIC.namespace)]]
    else
      []
  }

  function Policy(name: string, workflowNs: string, rhdhNs: string, databaseNs: string): Obj {
    Obj(OrchestratorLabel(), PolicyBody(PolicySpec(CreateIngress(name, workflowNs, rhdhNs, databaseNs))))
  }

  /** The monitoring policy applies only when its flag is set. */
  predicate Applicable(name: string, monitoring: bool) {
    monitoring || name != ALLOW_MONITORING
  }

  // ---------- GitOps ----------

  const APP_PROJECT_CRD := "appprojects.argoproj.io"
  const TASK_CRD := "tasks.tekton.dev"
  const PIPELINE_CRD := "pipelines.tekton.dev"
  const TASKS: seq<string> := ["git-cli", "flattener", "build-manifests", "build-gitops"]
  const APP_PROJECT := Obj(OrchestratorLabel(), AppProjectBody([Destination("*", "*", "*")], ["*"]))
  const PIPELINE := Obj(OrchestratorLabel(), Manifest("workflow-deployment"))

  function AppProjectKey(ns: string): Key {
    Key(AppProject, ns, "orchestrator-gitops")
  }

  function TaskKey(ns: string, name: string): Key {
    Key(Task, ns, name)
  }

  function NewTask(name: string): Obj {
    Obj(OrchestratorLabel(), Manifest(name))
  }

  function PipelineKey(ns: string): Key {
    Key(Pipeline, ns, "workflow-deployment")
  }
}
