/**
 * What the block-flow graph of `transformToSankeyData`
 * (server/lib/sankey-transformer.ts) guarantees: unique node ids, the first
 * mention of a block fixing its node, ministry filtering, block sums, and
 * one link per qualifying row or connection.
 */
module BlockFlowFacts {
  import opened Wrappers
  import opened Seqs
  import opened Assoc
  import opened RsRecords
  import opened SankeyTypes
  import opened NodeLimit
  import opened BlockFlow

  /** Every entry sits under its own node's id, and no id occurs twice. */
  predicate WellKeyed(m: NodeMap) {
    DistinctKeys(m) && forall i :: 0 <= i < |m| ==> m[i].1.id == m[i].0
  }

  lemma AddNodeKeys(m: NodeMap, n: SankeyNode)
    ensures Keys(AddNode(m, n)) == if n.id in Keys(m) then Keys(m) else Keys(m) + [n.id]
  {
  }

  lemma AddNodeWellKeyed(m: NodeMap, n: SankeyNode)
    requires WellKeyed(m)
    ensures WellKeyed(AddNode(m, n))
  {
    if n.id !in Keys(m) {
      var r := AddNode(m, n);
      assert Keys(r) == Keys(m) + [n.id];
      forall i, j | 0 <= i < j < |Keys(r)| ensures Keys(r)[i] != Keys(r)[j] {
        if j < |m| {
          assert Keys(m)[i] != Keys(m)[j];
        }
      }
    }
  }

  /** Adding a node never changes the node already stored under an id. */
  lemma AddNodeLookup(m: NodeMap, n: SankeyNode, k: string)
    ensures Lookup(AddNode(m, n), k) == if k in Keys(m) then Lookup(m, k) else if k == n.id then Some(n) else None
  {
    if n.id !in Keys(m) {
      LookupAppend(m, n.id, n, k);
    }
  }

  lemma {:induction false} ConnectionNodesWellKeyed(conns: seq<ConnectionRow>)
    ensures WellKeyed(ConnectionNodes(conns))
    decreases |conns|
  {
    if conns != [] {
      var c := conns[|conns| - 1];
      var m := ConnectionNodes(conns[..|conns| - 1]);
      ConnectionNodesWellKeyed(conns[..|conns| - 1]);
      AddNodeWellKeyed(m, SourceNode(c));
      AddNodeWellKeyed(AddNode(m, SourceNode(c)), TargetNode(c));
    }
  }

  lemma {:induction false} ExpenditureNodesWellKeyed(m: NodeMap, infos: seq<ExpenditureRow>, fallback: nat -> string)
    requires WellKeyed(m)
    ensures WellKeyed(ExpenditureNodes(m, infos, fallback))
    decreases |infos|
  {
    if infos != [] {
      var e := infos[|infos| - 1];
      ExpenditureNodesWellKeyed(m, infos[..|infos| - 1], fallback);
      if HasRecipient(e) {
        AddNodeWellKeyed(ExpenditureNodes(m, infos[..|infos| - 1], fallback), RecipientNode(e, fallback(|infos| - 1)));
      }
    }
  }

  lemma ValuesIds(m: NodeMap)
    requires WellKeyed(m)
    ensures NodeIds(Values(m)) == Keys(m)
  {
  }

  /** The node map before truncation is well keyed, and the result's nodes come from it. */
  lemma GraphNodesFacts(infos: seq<ExpenditureRow>, conns: seq<ConnectionRow>, options: TransformOptions,
                        fallback: nat -> string)
    ensures WellKeyed(GraphNodes(infos, conns, options, fallback))
    ensures Distinct(NodeIds(Values(GraphNodes(infos, conns, options, fallback))))
    ensures forall n :: n in SankeyFromBlocks(infos, conns, options, fallback).nodes ==>
              n in Values(GraphNodes(infos, conns, options, fallback))
  {
    var m := GraphNodes(infos, conns, options, fallback);
    var cs := FilteredConnections(conns, options.ministryFilter);
    ConnectionNodesWellKeyed(cs);
    ExpenditureNodesWellKeyed(ConnectionNodes(cs), FilteredExpenditures(infos, options.ministryFilter), fallback);
    ValuesIds(m);
    var nodes := Values(m);
    var links := GraphLinks(infos, conns, options, fallback);
    if Limited(options.maxNodes, |nodes|) {
      DistinctIdsDistinctNodes(nodes);
      TruncateKeepsPriority(nodes, links, options.maxNodes);
    }
  }

  /** Node ids of the returned graph are unique. */
  lemma TransformIdsDistinct(infos: seq<ExpenditureRow>, conns: seq<ConnectionRow>, options: TransformOptions,
                             fallback: nat -> string)
    ensures Distinct(NodeIds(SankeyFromBlocks(infos, conns, options, fallback).nodes))
  {
    GraphNodesFacts(infos, conns, options, fallback);
    TruncateIdsDistinct(Values(GraphNodes(infos, conns, options, fallback)),
                        GraphLinks(infos, conns, options, fallback), options.maxNodes);
  }

  // ---- first mention wins ----

  predicate Mentions(c: ConnectionRow, id: string) {
    SourceId(c) == id || c.targetBlock == id
  }

  /** The node a connection builds for `id`: its source node if `id` is its source, else its target node. */
  function MentionNode(c: ConnectionRow, id: string): SankeyNode {
    if SourceId(c) == id then SourceNode(c) else TargetNode(c)
  }

  /** One connection adds exactly the ids it mentions. */
  lemma ConnectionNodesStep(conns: seq<ConnectionRow>, id: string)
    requires conns != []
    ensures id in Keys(ConnectionNodes(conns)) <==>
            id in Keys(ConnectionNodes(conns[..|conns| - 1])) || Mentions(conns[|conns| - 1], id)
  {
    var c := conns[|conns| - 1];
    var m := ConnectionNodes(conns[..|conns| - 1]);
    AddNodeKeys(m, SourceNode(c));
    AddNodeKeys(AddNode(m, SourceNode(c)), TargetNode(c));
  }

  /** A connection of `conns` mentions `id` iff one of all but the last does, or the last does. */
  lemma MentionSplit(conns: seq<ConnectionRow>, init: seq<ConnectionRow>, id: string)
    requires conns != [] && init == conns[..|conns| - 1]
    ensures (exists j :: 0 <= j < |conns| && Mentions(conns[j], id)) <==>
            (exists j :: 0 <= j < |init| && Mentions(init[j], id)) || Mentions(conns[|conns| - 1], id)
  {
    if exists j :: 0 <= j < |init| && Mentions(init[j], id) {
      var j :| 0 <= j < |init| && Mentions(init[j], id);
      assert conns[j] == init[j];
    }
    if exists j :: 0 <= j < |conns| && Mentions(conns[j], id) {
      var j :| 0 <= j < |conns| && Mentions(conns[j], id);
      if j < |init| {
        assert init[j] == conns[j];
      }
    }
  }

  lemma {:induction false} ConnectionNodesKeys(conns: seq<ConnectionRow>, id: string)
    ensures id in Keys(ConnectionNodes(conns)) <==> exists j :: 0 <= j < |conns| && Mentions(conns[j], id)
    decreases |conns|
  {
    if conns != [] {
      ConnectionNodesKeys(conns[..|conns| - 1], id);
      ConnectionNodesStep(conns, id);
      MentionSplit(conns, conns[..|conns| - 1], id);
    }
  }

  lemma {:induction false} ConnectionNodesFirstMention(conns: seq<ConnectionRow>, i: int, id: string)
    requires 0 <= i < |conns| && Mentions(conns[i], id)
    requires forall j :: 0 <= j < i ==> !Mentions(conns[j], id)
    ensures Lookup(ConnectionNodes(conns), id) == Some(MentionNode(conns[i], id))
    decreases |conns|
  {
    var init, c := conns[..|conns| - 1], conns[|conns| - 1];
    var m := ConnectionNodes(init);
    AddNodeLookup(m, SourceNode(c), id);
    AddNodeLookup(AddNode(m, SourceNode(c)), TargetNode(c), id);
    AddNodeKeys(m, SourceNode(c));
    if i < |conns| - 1 {
      ConnectionNodesFirstMention(init, i, id);
    } else {
      ConnectionNodesKeys(init, id);
      forall j | 0 <= j < |init| ensures !Mentions(init[j], id) {
        assert init[j] == conns[j];
      }
    }
  }

  /** Adding recipients leaves every node already in the map as it was. */
  lemma {:induction false} ExpenditureNodesKeep(m: NodeMap, infos: seq<ExpenditureRow>, fallback: nat -> string, id: string)
    requires id in Keys(m)
    ensures Lookup(ExpenditureNodes(m, infos, fallback), id) == Lookup(m, id)
    decreases |infos|
  {
    if infos != [] {
      var e := infos[|infos| - 1];
      var n := ExpenditureNodes(m, infos[..|infos| - 1], fallback);
      ExpenditureNodesKeep(m, infos[..|infos| - 1], fallback, id);
      if HasRecipient(e) {
        AddNodeLookup(n, RecipientNode(e, fallback(|infos| - 1)), id);
      }
    }
  }

  /**
   * The first connection read that mentions a block id fixes that node: its
   * name, its type (a ministry node exactly when that first mention is as a
   * source paid by the organisation itself, a block node otherwise) and its
   * metadata. The node is in the returned graph, and is the only one with
   * that id.
   */
  lemma TransformFirstMention(infos: seq<ExpenditureRow>, conns: seq<ConnectionRow>, options: TransformOptions,
                              fallback: nat -> string, i: int, id: string)
    requires var cs := FilteredConnections(conns, options.ministryFilter);
      0 <= i < |cs| && Mentions(cs[i], id) && forall j :: 0 <= j < i ==> !Mentions(cs[j], id)
    ensures var c := FilteredConnections(conns, options.ministryFilter)[i];
      var result := SankeyFromBlocks(infos, conns, options, fallback);
      && MentionNode(c, id) in result.nodes
      && (forall n :: n in result.nodes && n.id == id ==> n == MentionNode(c, id))
      && MentionNode(c, id).nodeType == (if SourceId(c) == id && c.fromOrganization then Ministry else Block)
  {
    var cs := FilteredConnections(conns, options.ministryFilter);
    var c := cs[i];
    var m0 := ConnectionNodes(cs);
    var m := GraphNodes(infos, conns, options, fallback);
    var result := SankeyFromBlocks(infos, conns, options, fallback);
    ConnectionNodesFirstMention(cs, i, id);
    ExpenditureNodesKeep(m0, FilteredExpenditures(infos, options.ministryFilter), fallback, id);
    GraphNodesFacts(infos, conns, options, fallback);
    assert Lookup(m, id) == Some(MentionNode(c, id));
    LookupFound(m, id);
    var nodes := Values(m);
    assert MentionNode(c, id) in nodes by {
      var q :| 0 <= q < |m| && m[q] == (id, MentionNode(c, id));
      assert nodes[q] == MentionNode(c, id);
    }
    forall n | n in result.nodes && n.id == id ensures n == MentionNode(c, id) {
      var q :| 0 <= q < |nodes| && nodes[q] == n;
      LookupDistinct(m, q);
    }
    var links := GraphLinks(infos, conns, options, fallback);
    if Limited(options.maxNodes, |nodes|) {
      DistinctIdsDistinctNodes(nodes);
      TruncateKeepsPriority(nodes, links, options.maxNodes);
    }
  }

  // ---- the ministry filter ----

  lemma {:induction false} ConnectionsOfMembers(conns: seq<ConnectionRow>, ministry: string)
    ensures forall c :: c in ConnectionsOf(conns, ministry) <==> c in conns && c.ministry == ministry
    decreases |conns|
  {
    if conns != [] {
      ConnectionsOfMembers(conns[..|conns| - 1], ministry);
      assert conns == conns[..|conns| - 1] + [conns[|conns| - 1]];
    }
  }

  lemma {:induction false} ExpendituresOfMembers(infos: seq<ExpenditureRow>, ministry: string)
    ensures forall e :: e in ExpendituresOf(infos, ministry) <==> e in infos && e.ministry == ministry
    decreases |infos|
  {
    if infos != [] {
      ExpendituresOfMembers(infos[..|infos| - 1], ministry);
      assert infos == infos[..|infos| - 1] + [infos[|infos| - 1]];
    }
  }

  predicate OfMinistry(m: NodeMap, ministry: string) {
    forall i :: 0 <= i < |m| ==> m[i].1.metadata.ministry == Some(ministry)
  }

  lemma {:induction false} ConnectionNodesOfMinistry(conns: seq<ConnectionRow>, ministry: string)
    requires forall c :: c in conns ==> c.ministry == ministry
    ensures OfMinistry(ConnectionNodes(conns), ministry)
    decreases |conns|
  {
    if conns != [] {
      var init := conns[..|conns| - 1];
      assert forall c :: c in init ==> c in conns;
      ConnectionNodesOfMinistry(init, ministry);
      assert conns[|conns| - 1] in conns;
    }
  }

  lemma {:induction false} ExpenditureNodesOfMinistry(m: NodeMap, infos: seq<ExpenditureRow>, fallback: nat -> string,
                                                      ministry: string)
    requires OfMinistry(m, ministry)
    requires forall e :: e in infos ==> e.ministry == ministry
    ensures OfMinistry(ExpenditureNodes(m, infos, fallback), ministry)
    decreases |infos|
  {
    if infos != [] {
      var init := infos[..|infos| - 1];
      assert forall e :: e in init ==> e in infos;
      ExpenditureNodesOfMinistry(m, init, fallback, ministry);
      assert infos[|infos| - 1] in infos;
    }
  }

  /** With a ministry filter, every node of the graph belongs to that ministry. */
  lemma TransformMinistryFilter(infos: seq<ExpenditureRow>, conns: seq<ConnectionRow>, options: TransformOptions,
                                fallback: nat -> string)
    requires TruthyString(options.ministryFilter)
    ensures forall n :: n in SankeyFromBlocks(infos, conns, options, fallback).nodes ==>
              n.metadata.ministry == options.ministryFilter
  {
    var f := options.ministryFilter.value;
    var cs := FilteredConnections(conns, options.ministryFilter);
    var es := FilteredExpenditures(infos, options.ministryFilter);
    ConnectionsOfMembers(conns, f);
    ExpendituresOfMembers(infos, f);
    ConnectionNodesOfMinistry(cs, f);
    ExpenditureNodesOfMinistry(ConnectionNodes(cs), es, fallback, f);
    GraphNodesFacts(infos, conns, options, fallback);
    var m := GraphNodes(infos, conns, options, fallback);
    forall n | n in SankeyFromBlocks(infos, conns, options, fallback).nodes
      ensures n.metadata.ministry == options.ministryFilter
    {
      var q :| 0 <= q < |Values(m)| && Values(m)[q] == n;
    }
  }

  // ---- block sums and links ----

  /** The positive amounts of the rows of `block`, summed. */
  function BlockSpend(infos: seq<ExpenditureRow>, block: string): int
    decreases |infos|
  {
    if infos == [] then 0
    else
      var e := infos[|infos| - 1];
      BlockSpend(infos[..|infos| - 1], block) + (if e.blockId == block && BlockAmount(e) > 0 then BlockAmount(e) else 0)
  }

  lemma {:induction false} BlockAmountsSpend(infos: seq<ExpenditureRow>, block: string)
    ensures SumFor(BlockAmounts(infos), block) == BlockSpend(infos, block)
    ensures BlockSpend(infos, block) >= 0
    ensures block in Keys(BlockAmounts(infos)) <==> BlockSpend(infos, block) > 0
    decreases |infos|
  {
    if infos != [] {
      var init, e := infos[..|infos| - 1], infos[|infos| - 1];
      BlockAmountsSpend(init, block);
      var p := BlockAmounts(init);
      if BlockAmount(e) > 0 {
        var q := p + [(e.blockId, BlockAmount(e))];
        assert q[..|q| - 1] == p;
        assert Keys(q) == Keys(p) + [e.blockId];
      }
    }
  }

  /**
   * `linkMap` holds, for each block, the sum of its rows' positive
   * `ブロックの合計支出額 || 金額 || 0` values, and has no entry for a block
   * with none.
   */
  lemma BlockTotals(infos: seq<ExpenditureRow>, block: string)
    ensures Lookup(GroupSum(BlockAmounts(infos)), block) ==
            if BlockSpend(infos, block) > 0 then Some(BlockSpend(infos, block)) else None
  {
    GroupSumLookup(BlockAmounts(infos), block);
    BlockAmountsSpend(infos, block);
  }

  /** One block→block link per connection whose target block received money, carrying that block's sum. */
  function FundedLinks(conns: seq<ConnectionRow>, infos: seq<ExpenditureRow>): seq<SankeyLink>
    decreases |conns|
  {
    if conns == [] then []
    else
      var init, c := FundedLinks(conns[..|conns| - 1], infos), conns[|conns| - 1];
      var spend := BlockSpend(infos, c.targetBlock);
      if spend > 0 then init + [SankeyLink(SourceId(c), c.targetBlock, spend, None)] else init
  }

  lemma {:induction false} ConnectionLinksFunded(conns: seq<ConnectionRow>, infos: seq<ExpenditureRow>)
    ensures ConnectionLinks(conns, GroupSum(BlockAmounts(infos))) == FundedLinks(conns, infos)
    decreases |conns|
  {
    if conns != [] {
      ConnectionLinksFunded(conns[..|conns| - 1], infos);
      BlockTotals(infos, conns[|conns| - 1].targetBlock);
    }
  }

  /** How many rows name a recipient with a positive amount. */
  function RecipientRowCount(infos: seq<ExpenditureRow>): nat
    decreases |infos|
  {
    if infos == [] then 0
    else RecipientRowCount(infos[..|infos| - 1]) + (if HasRecipient(infos[|infos| - 1]) then 1 else 0)
  }

  /**
   * Every row with a recipient and a positive amount gives its own link, even
   * when rows share a recipient node; each link carries a positive amount and
   * ends at a node of the graph.
   */
  lemma {:induction false} RecipientLinksFacts(m: NodeMap, infos: seq<ExpenditureRow>, fallback: nat -> string)
    ensures |RecipientLinks(infos, fallback)| == RecipientRowCount(infos)
    ensures forall l :: l in RecipientLinks(infos, fallback) ==>
              l.value > 0 && l.target in Keys(ExpenditureNodes(m, infos, fallback))
    ensures forall l :: l in RecipientLinks(infos, fallback) ==>
              exists e :: e in infos && HasRecipient(e) && l.source == e.blockId && l.value == e.amount.value
    decreases |infos|
  {
    if infos != [] {
      var init, e := infos[..|infos| - 1], infos[|infos| - 1];
      RecipientLinksFacts(m, init, fallback);
      var n := ExpenditureNodes(m, init, fallback);
      if HasRecipient(e) {
        AddNodeKeys(n, RecipientNode(e, fallback(|infos| - 1)));
      }
      forall l | l in RecipientLinks(infos, fallback)
        ensures exists e' :: e' in infos && HasRecipient(e') && l.source == e'.blockId && l.value == e'.amount.value
      {
        if l in RecipientLinks(init, fallback) {
          var e' :| e' in init && HasRecipient(e') && l.source == e'.blockId && l.value == e'.amount.value;
          assert e' in infos;
        } else {
          assert e in infos;
        }
      }
    }
  }
}
