/** The node/link graph handed to the diagram (types/sankey.ts). */
module SankeyTypes {
  import opened Wrappers

  datatype NodeType = Total | Ministry | Block | Recipient | Project | Others | Expenditure | Unknown

  /** The `metadata` fields the modelled code writes; all others stay absent. */
  datatype NodeMetadata = NodeMetadata(
    eventId: Option<int>,
    eventName: Option<string>,
    budget: Option<int>,
    ministry: Option<string>,
    location: Option<string>,
    corporateNumber: Option<string>)

  datatype SankeyNode = SankeyNode(id: string, name: string, nodeType: NodeType, metadata: NodeMetadata)

  datatype LinkMetadata = LinkMetadata(
    contractType: Option<string>,
    bidders: Option<int>,
    fallRate: Option<real>,
    role: Option<string>)

  datatype SankeyLink = SankeyLink(source: string, target: string, value: int, metadata: Option<LinkMetadata>)

  datatype SankeyData = SankeyData(nodes: seq<SankeyNode>, links: seq<SankeyLink>)

  function NodeIds(nodes: seq<SankeyNode>): seq<string> {
    seq(|nodes|, i requires 0 <= i < |nodes| => nodes[i].id)
  }
}
