/** The plain records the tree generator writes out and the GUI builder reads back. */
module TreeDto {
  /** `NodeDto`: a widget name and the child nodes. */
  datatype NodeDto = NodeDto(name: string, children: seq<NodeDto>)

  /** `TreeDto`: just the root node. */
  datatype TreeDto = TreeDto(rootNode: NodeDto)
}
