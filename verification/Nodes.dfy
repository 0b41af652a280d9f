/** Identity of the processes that share the memory. */
module Nodes {

  /** A node is named by its host and port. `EmptyNode` stands for EMPTY_NODE, the
      reserved identifier that `father` and `next` hold when they name nobody. */
  datatype NodeId = EmptyNode | Node(host: string, port: int)
}
