/** The parts of the cluster's pod and node objects that eviction and container killing read. */
module CoreV1 {

  /** A pod's unique identifier. */
  type UID = string

  /** A container of the pod spec, known by name. */
  datatype Container = Container(name: string)

  /** A pod: identity, location and its spec's containers, in spec order. */
  datatype Pod = Pod(uid: UID, namespace: string, name: string, containers: seq<Container>)

  /** The node the agent runs on; eviction events are attached to it. */
  datatype Node = Node(name: string)
}
