/** What the API server says of a pod's progress. */
module Pods {
  datatype PodPhase = KubePending | KubeRunning | KubeSucceeded | KubeFailed | KubeUnknown

  /** A pod that is pending or running uses quota; another has ended. */
  predicate Live(p: PodPhase) {
    p == KubePending || p == KubeRunning
  }
}
