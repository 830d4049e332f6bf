/**
 * `transformToSankeyData` (server/lib/sankey-transformer.ts): the block-flow
 * graph built from the expenditure block connections and the expenditure
 * rows, optionally restricted to one ministry and cut down to `maxNodes`.
 *
 * The nodes `Map` is an insertion-ordered association list from node id to
 * node. The random number a recipient id falls back to without a corporate
 * number is the `fallback` oracle, applied to the row's position among the
 * expenditure rows read.
 */
module BlockFlow {
  import opened Wrappers
  import opened Seqs
  import opened Assoc
  import opened RsRecords
  import opened SankeyTypes
  import opened NodeLimit

  /** The `options` argument; an absent `options` is both fields `None`. */
  datatype TransformOptions = TransformOptions(ministryFilter: Option<string>, maxNodes: Option<int>)

  type NodeMap = seq<(string, SankeyNode)>

  // ---- the ministry filter ----

  function ConnectionsOf(conns: seq<ConnectionRow>, ministry: string): seq<ConnectionRow>
    decreases |conns|
  {
    if conns == [] then []
    else
      var init, c := ConnectionsOf(conns[..|conns| - 1], ministry), conns[|conns| - 1];
      if c.ministry == ministry then init + [c] else init
  }

  function ExpendituresOf(infos: seq<ExpenditureRow>, ministry: string): seq<ExpenditureRow>
    decreases |infos|
  {
    if infos == [] then []
    else
      var init, e := ExpendituresOf(infos[..|infos| - 1], ministry), infos[|infos| - 1];
      if e.ministry == ministry then init + [e] else init
  }

  /** The connections read: all of them, or those of the filter's ministry when it is set. */
  function FilteredConnections(conns: seq<ConnectionRow>, filter: Option<string>): seq<ConnectionRow> {
    if TruthyString(filter) then ConnectionsOf(conns, filter.value) else conns
  }

  function FilteredExpenditures(infos: seq<ExpenditureRow>, filter: Option<string>): seq<ExpenditureRow> {
    if TruthyString(filter) then ExpendituresOf(infos, filter.value) else infos
  }

  // ---- step 1: block nodes from the connections ----

  /** `if (!nodes.has(node.id)) nodes.set(node.id, node)`: the first node under an id wins. */
  function AddNode(m: NodeMap, node: SankeyNode): NodeMap {
    if node.id in Keys(m) then m else m + [(node.id, node)]
  }

  /** The paying block, or the ministry itself when the connection names none. */
  function SourceId(c: ConnectionRow): string {
    StringOr(c.sourceBlock, c.ministry)
  }

  function ConnectionMetadata(c: ConnectionRow): NodeMetadata {
    NodeMetadata(Some(c.eventId), Some(c.eventName), None, Some(c.ministry), None, None)
  }

  function SourceNode(c: ConnectionRow): SankeyNode {
    SankeyNode(SourceId(c), StringOr(c.sourceBlockName, c.ministry),
               if c.fromOrganization then Ministry else Block, ConnectionMetadata(c))
  }

  function TargetNode(c: ConnectionRow): SankeyNode {
    SankeyNode(c.targetBlock, c.targetBlockName, Block, ConnectionMetadata(c))
  }

  function ConnectionNodes(conns: seq<ConnectionRow>): NodeMap
    decreases |conns|
  {
    if conns == [] then []
    else
      var c := conns[|conns| - 1];
      AddNode(AddNode(ConnectionNodes(conns[..|conns| - 1]), SourceNode(c)), TargetNode(c))
  }

  // ---- step 2: block amounts and recipients from the expenditure rows ----

  /** `ブロックの合計支出額 || 金額 || 0`. */
  function BlockAmount(e: ExpenditureRow): int {
    FirstTruthy(e.blockTotal, e.amount)
  }

  /** `info.支出先名 && info.金額 && info.金額 > 0`. */
  predicate HasRecipient(e: ExpenditureRow) {
    TruthyString(e.recipientName) && e.amount.Some? && e.amount.value > 0
  }

  function RecipientId(e: ExpenditureRow, draw: string): string
    requires HasRecipient(e)
  {
    "recipient_" + e.recipientName.value + "_" + StringOr(e.corporateNumber, draw)
  }

  function RecipientNode(e: ExpenditureRow, draw: string): SankeyNode
    requires HasRecipient(e)
  {
    SankeyNode(RecipientId(e, draw), e.recipientName.value, Recipient,
               NodeMetadata(Some(e.eventId), Some(e.eventName), None, Some(e.ministry), e.location, e.corporateNumber))
  }

  function RecipientLink(e: ExpenditureRow, draw: string): SankeyLink
    requires HasRecipient(e)
  {
    SankeyLink(e.blockId, RecipientId(e, draw), e.amount.value,
               Some(LinkMetadata(e.contractType, e.bidders, e.fallRate, e.role)))
  }

  /** `(block, amount)` for every row whose amount is positive, in row order. */
  function BlockAmounts(infos: seq<ExpenditureRow>): seq<(string, int)>
    decreases |infos|
  {
    if infos == [] then []
    else
      var init, e := BlockAmounts(infos[..|infos| - 1]), infos[|infos| - 1];
      if BlockAmount(e) > 0 then init + [(e.blockId, BlockAmount(e))] else init
  }

  /** The node map after adding the recipients of `infos` to `m`. */
  function ExpenditureNodes(m: NodeMap, infos: seq<ExpenditureRow>, fallback: nat -> string): NodeMap
    decreases |infos|
  {
    if infos == [] then m
    else
      var n, e := ExpenditureNodes(m, infos[..|infos| - 1], fallback), infos[|infos| - 1];
      if HasRecipient(e) then AddNode(n, RecipientNode(e, fallback(|infos| - 1))) else n
  }

  function RecipientLinks(infos: seq<ExpenditureRow>, fallback: nat -> string): seq<SankeyLink>
    decreases |infos|
  {
    if infos == [] then []
    else
      var init, e := RecipientLinks(infos[..|infos| - 1], fallback), infos[|infos| - 1];
      if HasRecipient(e) then init + [RecipientLink(e, fallback(|infos| - 1))] else init
  }

  // ---- step 3: block-to-block links ----

  function ConnectionLinks(conns: seq<ConnectionRow>, linkMap: seq<(string, int)>): seq<SankeyLink>
    decreases |conns|
  {
    if conns == [] then []
    else
      var init, c := ConnectionLinks(conns[..|conns| - 1], linkMap), conns[|conns| - 1];
      var amount := Lookup(linkMap, c.targetBlock).GetOr(0);
      if amount > 0 then init + [SankeyLink(SourceId(c), c.targetBlock, amount, None)] else init
  }

  function Values(m: NodeMap): seq<SankeyNode> {
    seq(|m|, i requires 0 <= i < |m| => m[i].1)
  }

  /** The node map before the `maxNodes` step. */
  function GraphNodes(infos: seq<ExpenditureRow>, conns: seq<ConnectionRow>, options: TransformOptions,
                      fallback: nat -> string): NodeMap {
    ExpenditureNodes(ConnectionNodes(FilteredConnections(conns, options.ministryFilter)),
                     FilteredExpenditures(infos, options.ministryFilter), fallback)
  }

  /** The links before the `maxNodes` step: block→recipient links, then block→block links. */
  function GraphLinks(infos: seq<ExpenditureRow>, conns: seq<ConnectionRow>, options: TransformOptions,
                      fallback: nat -> string): seq<SankeyLink> {
    var es := FilteredExpenditures(infos, options.ministryFilter);
    RecipientLinks(es, fallback)
    + ConnectionLinks(FilteredConnections(conns, options.ministryFilter), GroupSum(BlockAmounts(es)))
  }

  /** The graph `transformToSankeyData` returns. */
  function SankeyFromBlocks(infos: seq<ExpenditureRow>, conns: seq<ConnectionRow>, options: TransformOptions,
                            fallback: nat -> string): SankeyData {
    Truncate(Values(GraphNodes(infos, conns, options, fallback)),
             GraphLinks(infos, conns, options, fallback), options.maxNodes)
  }

  /** Step 1: a source and a target node per connection, the first under each id kept. */
  method BuildBlockNodes(filteredConnections: seq<ConnectionRow>) returns (nodes: NodeMap)
    ensures nodes == ConnectionNodes(filteredConnections)
  {
    nodes := [];
    var i := 0;
    while i < |filteredConnections|
      invariant 0 <= i <= |filteredConnections|
      invariant nodes == ConnectionNodes(filteredConnections[..i])
    {
      var connection := filteredConnections[i];
      assert filteredConnections[..i + 1][..i] == filteredConnections[..i];
      var sourceBlockId := SourceId(connection);
      var targetBlockId := connection.targetBlock;
      if sourceBlockId !in Keys(nodes) {
        nodes := nodes + [(sourceBlockId, SourceNode(connection))];
      }
      if targetBlockId !in Keys(nodes) {
        nodes := nodes + [(targetBlockId, TargetNode(connection))];
      }
      i := i + 1;
    }
    assert filteredConnections[..i] == filteredConnections;
  }

  /**
   * Step 2: sums the positive amounts per block into `linkMap`, and adds a
   * recipient node (first under its id kept) and a block→recipient link per
   * row with a recipient.
   */
  method AddExpenditures(blockNodes: NodeMap, filteredExpenditureInfo: seq<ExpenditureRow>, fallback: nat -> string)
    returns (nodes: NodeMap, linkMap: seq<(string, int)>, links: seq<SankeyLink>)
    ensures nodes == ExpenditureNodes(blockNodes, filteredExpenditureInfo, fallback)
    ensures linkMap == GroupSum(BlockAmounts(filteredExpenditureInfo))
    ensures links == RecipientLinks(filteredExpenditureInfo, fallback)
  {
    nodes, linkMap, links := blockNodes, [], [];
    var j := 0;
    while j < |filteredExpenditureInfo|
      invariant 0 <= j <= |filteredExpenditureInfo|
      invariant nodes == ExpenditureNodes(blockNodes, filteredExpenditureInfo[..j], fallback)
      invariant linkMap == GroupSum(BlockAmounts(filteredExpenditureInfo[..j]))
      invariant links == RecipientLinks(filteredExpenditureInfo[..j], fallback)
    {
      var info := filteredExpenditureInfo[j];
      assert filteredExpenditureInfo[..j + 1][..j] == filteredExpenditureInfo[..j];
      var blockId := info.blockId;
      var amount := BlockAmount(info);
      if amount > 0 {
        linkMap := Accumulate(linkMap, blockId, amount);
      }
      if HasRecipient(info) {
        var recipientId := RecipientId(info, fallback(j));
        if recipientId !in Keys(nodes) {
          nodes := nodes + [(recipientId, RecipientNode(info, fallback(j)))];
        }
        links := links + [RecipientLink(info, fallback(j))];
      }
      j := j + 1;
    }
    assert filteredExpenditureInfo[..j] == filteredExpenditureInfo;
  }

  /** Step 3: a block→block link per connection whose target block received a positive sum. */
  method AddBlockLinks(filteredConnections: seq<ConnectionRow>, linkMap: seq<(string, int)>, recipientLinks: seq<SankeyLink>)
    returns (links: seq<SankeyLink>)
    ensures links == recipientLinks + ConnectionLinks(filteredConnections, linkMap)
  {
    links := recipientLinks;
    var k := 0;
    while k < |filteredConnections|
      invariant 0 <= k <= |filteredConnections|
      invariant links == recipientLinks + ConnectionLinks(filteredConnections[..k], linkMap)
    {
      var connection := filteredConnections[k];
      assert filteredConnections[..k + 1][..k] == filteredConnections[..k];
      var sourceBlockId := SourceId(connection);
      var targetBlockId := connection.targetBlock;
      var amount := Lookup(linkMap, targetBlockId).GetOr(0);
      if amount > 0 {
        links := links + [SankeyLink(sourceBlockId, targetBlockId, amount, None)];
      }
      k := k + 1;
    }
    assert filteredConnections[..k] == filteredConnections;
  }

  method TransformToSankeyData(expenditureInfo: seq<ExpenditureRow>, expenditureConnections: seq<ConnectionRow>,
                               options: TransformOptions, fallback: nat -> string)
    returns (data: SankeyData)
    ensures data == SankeyFromBlocks(expenditureInfo, expenditureConnections, options, fallback)
  {
    var filteredConnections := expenditureConnections;
    if TruthyString(options.ministryFilter) {
      filteredConnections := ConnectionsOf(expenditureConnections, options.ministryFilter.value);
    }
    var nodes := BuildBlockNodes(filteredConnections);

    var filteredExpenditureInfo := expenditureInfo;
    if TruthyString(options.ministryFilter) {
      filteredExpenditureInfo := ExpendituresOf(expenditureInfo, options.ministryFilter.value);
    }
    var linkMap, links;
    nodes, linkMap, links := AddExpenditures(nodes, filteredExpenditureInfo, fallback);

    links := AddBlockLinks(filteredConnections, linkMap, links);

    data := Truncate(Values(nodes), links, options.maxNodes);
  }
}
