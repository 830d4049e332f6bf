/**
 * The `maxNodes` step of `transformToSankeyData`
 * (server/lib/sankey-transformer.ts): when the graph has more nodes than the
 * limit, keep every ministry and block node, rank the recipient nodes by the
 * value flowing into them, keep a `slice(0, maxNodes - priorityCount)` of
 * them, and drop every link that touches a dropped node.
 */
module NodeLimit {
  import opened Wrappers
  import opened Seqs
  import opened Assoc
  import opened Ranking
  import opened RsRecords
  import opened SankeyTypes

  predicate IsPriority(n: SankeyNode) {
    n.nodeType == Ministry || n.nodeType == Block
  }

  /** The ministry and block nodes, in order. */
  function PriorityNodes(nodes: seq<SankeyNode>): seq<SankeyNode> {
    if nodes == [] then []
    else (if IsPriority(nodes[0]) then [nodes[0]] else []) + PriorityNodes(nodes[1..])
  }

  /** The recipient nodes, in order. */
  function RecipientNodes(nodes: seq<SankeyNode>): seq<SankeyNode> {
    if nodes == [] then []
    else (if nodes[0].nodeType == Recipient then [nodes[0]] else []) + RecipientNodes(nodes[1..])
  }

  /** The value flowing into `id`: the sum of the values of the links that end there. */
  function IncomingTotal(links: seq<SankeyLink>, id: string): int {
    if links == [] then 0
    else (if links[0].target == id then links[0].value else 0) + IncomingTotal(links[1..], id)
  }

  /** The recipients with their incoming totals, largest first, ties in node order. */
  function RankedRecipients(nodes: seq<SankeyNode>, links: seq<SankeyLink>): seq<(SankeyNode, int)> {
    SortDesc(RecipientPairs(nodes, links))
  }

  /** Each recipient node paired with its incoming total, in node order. */
  function RecipientPairs(nodes: seq<SankeyNode>, links: seq<SankeyLink>): seq<(SankeyNode, int)> {
    var rs := RecipientNodes(nodes);
    seq(|rs|, i requires 0 <= i < |rs| => (rs[i], IncomingTotal(links, rs[i].id)))
  }

  function Min(a: int, b: int): int {
    if a <= b then a else b
  }

  function Max(a: int, b: int): int {
    if a >= b then a else b
  }

  /** `Array.prototype.slice(0, end)`: a negative `end` counts back from the end. */
  function SliceTo<T>(s: seq<T>, end: int): seq<T> {
    if end >= 0 then s[..Min(end, |s|)] else s[..Max(0, |s| + end)]
  }

  function Firsts(s: seq<(SankeyNode, int)>): seq<SankeyNode> {
    seq(|s|, i requires 0 <= i < |s| => s[i].0)
  }

  /** The condition `options?.maxNodes && finalNodes.length > options.maxNodes`. */
  predicate Limited(maxNodes: Option<int>, count: nat) {
    TruthyNumber(maxNodes) && count > maxNodes.value
  }

  /** The nodes kept under `limit`: the priority nodes, then the best-ranked recipients. */
  function KeptNodes(nodes: seq<SankeyNode>, links: seq<SankeyLink>, limit: int): seq<SankeyNode> {
    var priority := PriorityNodes(nodes);
    priority + Firsts(SliceTo(RankedRecipients(nodes, links), limit - |priority|))
  }

  /** The links whose two ends are both in `ids`, in order. */
  function LinksWithin(links: seq<SankeyLink>, ids: set<string>): seq<SankeyLink> {
    if links == [] then []
    else
      (if links[0].source in ids && links[0].target in ids then [links[0]] else [])
      + LinksWithin(links[1..], ids)
  }

  /** Step 4 of `transformToSankeyData`. */
  function Truncate(nodes: seq<SankeyNode>, links: seq<SankeyLink>, maxNodes: Option<int>): SankeyData {
    if Limited(maxNodes, |nodes|) then
      var kept := KeptNodes(nodes, links, maxNodes.value);
      SankeyData(kept, LinksWithin(links, ElemSet(NodeIds(kept))))
    else
      SankeyData(nodes, links)
  }

  // ---- filters ----

  lemma {:induction false} PriorityNodesMembers(nodes: seq<SankeyNode>)
    ensures forall n :: n in PriorityNodes(nodes) <==> n in nodes && IsPriority(n)
  {
    if nodes != [] {
      PriorityNodesMembers(nodes[1..]);
      assert nodes == [nodes[0]] + nodes[1..];
    }
  }

  lemma {:induction false} RecipientNodesMembers(nodes: seq<SankeyNode>)
    ensures forall n :: n in RecipientNodes(nodes) <==> n in nodes && n.nodeType == Recipient
  {
    if nodes != [] {
      RecipientNodesMembers(nodes[1..]);
      assert nodes == [nodes[0]] + nodes[1..];
    }
  }

  lemma {:induction false} PriorityNodesDistinct(nodes: seq<SankeyNode>)
    requires Distinct(nodes)
    ensures Distinct(PriorityNodes(nodes))
  {
    if nodes != [] {
      assert Distinct(nodes[1..]) by {
        forall i, j | 0 <= i < j < |nodes[1..]| ensures nodes[1..][i] != nodes[1..][j] {
          assert nodes[i + 1] != nodes[j + 1];
        }
      }
      PriorityNodesDistinct(nodes[1..]);
      PriorityNodesMembers(nodes[1..]);
      assert nodes[0] !in nodes[1..] by {
        forall j | 0 <= j < |nodes[1..]| ensures nodes[1..][j] != nodes[0] {
          assert nodes[j + 1] != nodes[0];
        }
      }
      var rest := PriorityNodes(nodes[1..]);
      if IsPriority(nodes[0]) {
        forall i, j | 0 <= i < j < |[nodes[0]] + rest| ensures ([nodes[0]] + rest)[i] != ([nodes[0]] + rest)[j] {
          if i == 0 {
            assert ([nodes[0]] + rest)[j] == rest[j - 1];
          }
        }
      }
    }
  }

  lemma {:induction false} RecipientNodesDistinct(nodes: seq<SankeyNode>)
    requires Distinct(nodes)
    ensures Distinct(RecipientNodes(nodes))
  {
    if nodes != [] {
      assert Distinct(nodes[1..]) by {
        forall i, j | 0 <= i < j < |nodes[1..]| ensures nodes[1..][i] != nodes[1..][j] {
          assert nodes[i + 1] != nodes[j + 1];
        }
      }
      RecipientNodesDistinct(nodes[1..]);
      RecipientNodesMembers(nodes[1..]);
      assert nodes[0] !in nodes[1..] by {
        forall j | 0 <= j < |nodes[1..]| ensures nodes[1..][j] != nodes[0] {
          assert nodes[j + 1] != nodes[0];
        }
      }
      var rest := RecipientNodes(nodes[1..]);
      if nodes[0].nodeType == Recipient {
        forall i, j | 0 <= i < j < |[nodes[0]] + rest| ensures ([nodes[0]] + rest)[i] != ([nodes[0]] + rest)[j] {
          if i == 0 {
            assert ([nodes[0]] + rest)[j] == rest[j - 1];
          }
        }
      }
    }
  }

  lemma {:induction false} LinksWithinMembers(links: seq<SankeyLink>, ids: set<string>)
    ensures forall l :: l in LinksWithin(links, ids) <==> l in links && l.source in ids && l.target in ids
  {
    if links != [] {
      LinksWithinMembers(links[1..], ids);
      assert links == [links[0]] + links[1..];
    }
  }

  // ---- the ranking ----

  /** Before ranking: each recipient once, paired with its incoming total. */
  lemma RecipientPairsFacts(nodes: seq<SankeyNode>, links: seq<SankeyLink>)
    requires Distinct(nodes)
    ensures var pairs := RecipientPairs(nodes, links);
      && |pairs| == |RecipientNodes(nodes)|
      && DistinctKeys(pairs)
      && (forall x :: x in pairs <==> x.0 in nodes && x.0.nodeType == Recipient && x.1 == IncomingTotal(links, x.0.id))
  {
    var rs := RecipientNodes(nodes);
    var pairs := RecipientPairs(nodes, links);
    RecipientNodesMembers(nodes);
    RecipientNodesDistinct(nodes);
    assert Keys(pairs) == rs;
    forall x: (SankeyNode, int) | x.0 in nodes && x.0.nodeType == Recipient && x.1 == IncomingTotal(links, x.0.id) ensures x in pairs {
      var k :| 0 <= k < |rs| && rs[k] == x.0;
      assert pairs[k] == x;
    }
  }

  /** The ranked list holds each recipient once, with its incoming total. */
  lemma RankedRecipientsFacts(nodes: seq<SankeyNode>, links: seq<SankeyLink>)
    requires Distinct(nodes)
    ensures var ranked := RankedRecipients(nodes, links);
      && NonIncreasing(ranked)
      && |ranked| == |RecipientNodes(nodes)|
      && DistinctKeys(ranked)
      && (forall i :: 0 <= i < |ranked| ==> ranked[i].1 == IncomingTotal(links, ranked[i].0.id))
      && (forall n :: n in nodes && n.nodeType == Recipient ==> (n, IncomingTotal(links, n.id)) in ranked)
      && (forall i :: 0 <= i < |ranked| ==> ranked[i].0 in nodes && ranked[i].0.nodeType == Recipient)
  {
    var pairs := RecipientPairs(nodes, links);
    var ranked := SortDesc(pairs);
    RecipientPairsFacts(nodes, links);
    SortDescOrder(pairs);
    SortDescKeys(pairs);
    SortDescElems(pairs);
    forall i | 0 <= i < |ranked|
      ensures ranked[i].1 == IncomingTotal(links, ranked[i].0.id)
      ensures ranked[i].0 in nodes && ranked[i].0.nodeType == Recipient
    {
      assert ranked[i] in pairs;
    }
  }

  /** The part of `RankedRecipientsFacts` that truncation needs: distinct recipients of the input. */
  lemma RankedRecipientsFrom(nodes: seq<SankeyNode>, links: seq<SankeyLink>)
    requires Distinct(nodes)
    ensures var ranked := RankedRecipients(nodes, links);
      && DistinctKeys(ranked)
      && forall i :: 0 <= i < |ranked| ==> ranked[i].0 in nodes && ranked[i].0.nodeType == Recipient
  {
    RankedRecipientsFacts(nodes, links);
  }

  /** Distinct ids identify nodes: two nodes of `nodes` with one id are the same node. */
  lemma IdsIdentify(nodes: seq<SankeyNode>, a: SankeyNode, b: SankeyNode)
    requires Distinct(NodeIds(nodes))
    requires a in nodes && b in nodes
    ensures a.id == b.id ==> a == b
  {
    var i :| 0 <= i < |nodes| && nodes[i] == a;
    var j :| 0 <= j < |nodes| && nodes[j] == b;
    assert NodeIds(nodes)[i] == a.id && NodeIds(nodes)[j] == b.id;
  }

  lemma DistinctIdsDistinctNodes(nodes: seq<SankeyNode>)
    requires Distinct(NodeIds(nodes))
    ensures Distinct(nodes)
  {
    forall i, j | 0 <= i < j < |nodes| ensures nodes[i] != nodes[j] {
      assert NodeIds(nodes)[i] != NodeIds(nodes)[j];
    }
  }

  // ---- the truncated graph ----

  /** Without an exceeded limit the nodes and links come back unchanged. */
  lemma TruncateUnlimited(nodes: seq<SankeyNode>, links: seq<SankeyLink>, maxNodes: Option<int>)
    requires !Limited(maxNodes, |nodes|)
    ensures Truncate(nodes, links, maxNodes) == SankeyData(nodes, links)
  {
  }

  /**
   * Under an exceeded limit the result begins with every ministry and block
   * node in their original order, and every node it keeps is one of the input.
   */
  lemma TruncateKeepsPriority(nodes: seq<SankeyNode>, links: seq<SankeyLink>, maxNodes: Option<int>)
    requires Limited(maxNodes, |nodes|)
    requires Distinct(nodes)
    ensures var r := Truncate(nodes, links, maxNodes);
      && r.nodes[..|PriorityNodes(nodes)|] == PriorityNodes(nodes)
      && (forall n :: n in nodes && IsPriority(n) ==> n in r.nodes)
      && (forall n :: n in r.nodes ==> n in nodes && (IsPriority(n) || n.nodeType == Recipient))
  {
    var r := Truncate(nodes, links, maxNodes);
    var priority := PriorityNodes(nodes);
    var ranked := RankedRecipients(nodes, links);
    var slice := SliceTo(ranked, maxNodes.value - |priority|);
    assert slice == ranked[..|slice|];
    assert r.nodes == priority + Firsts(slice);
    PriorityNodesMembers(nodes);
    RankedRecipientsFrom(nodes, links);
    PrefixRecipients(nodes, ranked, |slice|);
  }

  /** A link survives exactly when it did before and both its ends were kept. */
  lemma TruncateLinksClosed(nodes: seq<SankeyNode>, links: seq<SankeyLink>, maxNodes: Option<int>)
    ensures var r := Truncate(nodes, links, maxNodes);
      forall l :: l in r.links <==>
        l in links && (Limited(maxNodes, |nodes|) ==> l.source in NodeIds(r.nodes) && l.target in NodeIds(r.nodes))
  {
    var r := Truncate(nodes, links, maxNodes);
    if Limited(maxNodes, |nodes|) {
      LinksWithinMembers(links, ElemSet(NodeIds(r.nodes)));
    }
  }

  /**
   * The recipients kept outrank the ones dropped: no dropped recipient has
   * more value flowing into it than any kept one.
   */
  lemma TruncateRanking(nodes: seq<SankeyNode>, links: seq<SankeyLink>, maxNodes: Option<int>,
                        kept: SankeyNode, dropped: SankeyNode)
    requires Limited(maxNodes, |nodes|) && Distinct(nodes)
    requires kept in Truncate(nodes, links, maxNodes).nodes && kept.nodeType == Recipient
    requires dropped in nodes && dropped.nodeType == Recipient
    requires dropped !in Truncate(nodes, links, maxNodes).nodes
    ensures IncomingTotal(links, kept.id) >= IncomingTotal(links, dropped.id)
  {
    var priority := PriorityNodes(nodes);
    var ranked := RankedRecipients(nodes, links);
    var slice := SliceTo(ranked, maxNodes.value - |priority|);
    var tail := Firsts(slice);
    assert Truncate(nodes, links, maxNodes).nodes == priority + tail;
    PriorityNodesMembers(nodes);
    RankedRecipientsFacts(nodes, links);
    assert slice == ranked[..|slice|];
    var k :| 0 <= k < |tail| && tail[k] == kept;
    assert ranked[k].0 == kept;
    PrefixOutranks(ranked, |slice|, k, (dropped, IncomingTotal(links, dropped.id)));
  }

  /** An entry of a ranking whose node is not among the first `m` ranks below each of them. */
  lemma PrefixOutranks(ranked: seq<(SankeyNode, int)>, m: int, k: int, p: (SankeyNode, int))
    requires NonIncreasing(ranked) && 0 <= k < m <= |ranked|
    requires p in ranked && p.0 !in Firsts(ranked[..m])
    ensures ranked[k].1 >= p.1
  {
    var j :| 0 <= j < |ranked| && ranked[j] == p;
    forall q | 0 <= q < m ensures ranked[q].0 != p.0 {
      assert Firsts(ranked[..m])[q] == ranked[q].0;
    }
    assert j >= m;
  }

  /**
   * How many nodes survive: at most `maxNodes` when the priority nodes fit in
   * it; otherwise all priority nodes, and a negative slice bound keeps every
   * recipient but the last `priorityCount - maxNodes`.
   */
  lemma TruncateCount(nodes: seq<SankeyNode>, links: seq<SankeyLink>, maxNodes: Option<int>)
    requires Limited(maxNodes, |nodes|) && Distinct(nodes)
    ensures var r := Truncate(nodes, links, maxNodes);
      var p, q, m := |PriorityNodes(nodes)|, |RecipientNodes(nodes)|, maxNodes.value;
      && (m >= p ==> |r.nodes| == Min(m, p + q) <= m)
      && (m < p ==> |r.nodes| == p + Max(0, q - (p - m)))
  {
    RankedRecipientsFacts(nodes, links);
  }

  /** The nodes of a prefix of a ranking with distinct keys are distinct and keep their places. */
  lemma PrefixFirsts(ranked: seq<(SankeyNode, int)>, k: int)
    requires 0 <= k <= |ranked| && DistinctKeys(ranked)
    ensures |Firsts(ranked[..k])| == k && Distinct(Firsts(ranked[..k]))
    ensures forall i :: 0 <= i < k ==> Firsts(ranked[..k])[i] == ranked[i].0
  {
    var f := Firsts(ranked[..k]);
    forall i, j | 0 <= i < j < k ensures f[i] != f[j] {
      assert Keys(ranked)[i] != Keys(ranked)[j];
    }
  }

  /** Priority nodes followed by recipient nodes, each part distinct, are distinct. */
  lemma ConcatDistinct(priority: seq<SankeyNode>, recipients: seq<SankeyNode>)
    requires Distinct(priority) && Distinct(recipients)
    requires forall n :: n in priority ==> IsPriority(n)
    requires forall n :: n in recipients ==> n.nodeType == Recipient
    ensures Distinct(priority + recipients)
  {
    var kept := priority + recipients;
    forall i, j | 0 <= i < j < |kept| ensures kept[i] != kept[j] {
      if j < |priority| {
        assert kept[i] == priority[i] && kept[j] == priority[j];
      } else if i >= |priority| {
        assert kept[i] == recipients[i - |priority|] && kept[j] == recipients[j - |priority|];
      } else {
        assert kept[i] in priority && kept[j] in recipients;
      }
    }
  }

  /** Priority nodes followed by a prefix of a ranking of recipients are distinct nodes of the input. */
  lemma KeptParts(nodes: seq<SankeyNode>, priority: seq<SankeyNode>, ranked: seq<(SankeyNode, int)>, k: int)
    requires Distinct(priority) && forall n :: n in priority ==> n in nodes && IsPriority(n)
    requires DistinctKeys(ranked) && forall i :: 0 <= i < |ranked| ==> ranked[i].0 in nodes && ranked[i].0.nodeType == Recipient
    requires 0 <= k <= |ranked|
    ensures Distinct(priority + Firsts(ranked[..k]))
    ensures forall n :: n in priority + Firsts(ranked[..k]) ==> n in nodes
  {
    var f := Firsts(ranked[..k]);
    PrefixFirsts(ranked, k);
    PrefixRecipients(nodes, ranked, k);
    ConcatDistinct(priority, f);
  }

  /** The nodes of a prefix of a ranking of recipients of `nodes` are recipients of `nodes`. */
  lemma PrefixRecipients(nodes: seq<SankeyNode>, ranked: seq<(SankeyNode, int)>, k: int)
    requires forall i :: 0 <= i < |ranked| ==> ranked[i].0 in nodes && ranked[i].0.nodeType == Recipient
    requires 0 <= k <= |ranked|
    ensures forall n :: n in Firsts(ranked[..k]) ==> n in nodes && n.nodeType == Recipient
  {
    var f := Firsts(ranked[..k]);
    forall n | n in f ensures n in nodes && n.nodeType == Recipient {
      var i :| 0 <= i < |f| && f[i] == n;
      assert n == ranked[i].0;
    }
  }

  /** The kept nodes are distinct nodes of the input. */
  lemma KeptNodesDistinct(nodes: seq<SankeyNode>, links: seq<SankeyLink>, limit: int)
    requires Distinct(nodes)
    ensures Distinct(KeptNodes(nodes, links, limit))
    ensures forall n :: n in KeptNodes(nodes, links, limit) ==> n in nodes
  {
    var priority := PriorityNodes(nodes);
    var ranked := RankedRecipients(nodes, links);
    var slice := SliceTo(ranked, limit - |priority|);
    assert slice == ranked[..|slice|];
    PriorityNodesMembers(nodes);
    PriorityNodesDistinct(nodes);
    RankedRecipientsFrom(nodes, links);
    KeptParts(nodes, priority, ranked, |slice|);
  }

  /** With distinct input ids, the kept nodes have distinct ids. */
  lemma TruncateIdsDistinct(nodes: seq<SankeyNode>, links: seq<SankeyLink>, maxNodes: Option<int>)
    requires Distinct(NodeIds(nodes))
    ensures Distinct(NodeIds(Truncate(nodes, links, maxNodes).nodes))
  {
    if Limited(maxNodes, |nodes|) {
      DistinctIdsDistinctNodes(nodes);
      var kept := KeptNodes(nodes, links, maxNodes.value);
      KeptNodesDistinct(nodes, links, maxNodes.value);
      forall i, j | 0 <= i < j < |kept| ensures NodeIds(kept)[i] != NodeIds(kept)[j] {
        IdsIdentify(nodes, kept[i], kept[j]);
      }
    }
  }
}
