/** Cluster selection: the explorer URL suffix for a cluster, the default
    cluster chosen from the configured list, the exposed list sorted by name,
    and the explorer URL builder. */
module ClusterProvider {
  import opened Wrappers

  datatype ClusterNetwork = Mainnet | Testnet | Devnet | Custom {
    /** The enum's string value, compared with the configured default network. */
    function Value(): string {
      match this
      case Mainnet => "mainnet-beta"
      case Testnet => "testnet"
      case Devnet => "devnet"
      case Custom => "custom"
    }
  }

  datatype Cluster = Cluster(id: string, name: string, endpoint: string, network: ClusterNetwork)

  const ExplorerBase: string := "https://explorer.solana.com/"

  // ---------------------------------------------------------------------------
  // getClusterUrlParam

  /** `getClusterUrlParam`; `encode` stands for `encodeURIComponent`. */
  function ClusterUrlParam(cluster: Cluster, encode: string -> string): (r: string)
    ensures r == "" <==> cluster.network == Mainnet
    ensures cluster.network == Devnet ==> r == "?cluster=devnet"
    ensures cluster.network == Testnet ==> r == "?cluster=testnet"
    ensures cluster.network == Custom ==> r == "?cluster=custom&customUrl=" + encode(cluster.endpoint)
  {
    var suffix :=
      match cluster.network
      case Devnet => "devnet"
      case Mainnet => ""
      case Testnet => "testnet"
      case Custom => "custom&customUrl=" + encode(cluster.endpoint);
    if |suffix| > 0 then "?cluster=" + suffix else ""
  }

  /** Reads the network back from a suffix: the inverse of `ClusterUrlParam`
      on its image. */
  function NetworkOfParam(param: string): ClusterNetwork
  {
    if param == "" then Mainnet
    else if param == "?cluster=devnet" then Devnet
    else if param == "?cluster=testnet" then Testnet
    else Custom
  }

  /** The suffix identifies the cluster's network. */
  lemma ClusterUrlParamIdentifiesNetwork(cluster: Cluster, encode: string -> string)
    ensures NetworkOfParam(ClusterUrlParam(cluster, encode)) == cluster.network
  {
    var r := ClusterUrlParam(cluster, encode);
    if cluster.network == Custom {
      assert r[9] == 'c';
      assert "?cluster=devnet"[9] == 'd';
      assert "?cluster=testnet"[9] == 't';
    }
  }

  // ---------------------------------------------------------------------------
  // getExplorerUrl

  /** The `getExplorerUrl` closure for the selected cluster. */
  function ExplorerUrl(path: string, selected: Cluster, encode: string -> string): (r: string)
    ensures |r| >= |ExplorerBase| + |path|
    ensures r[..|ExplorerBase| + |path|] == ExplorerBase + path
    ensures selected.network == Mainnet ==> r == ExplorerBase + path
    ensures r[|ExplorerBase| + |path|..] == ClusterUrlParam(selected, encode)
    ensures NetworkOfParam(r[|ExplorerBase| + |path|..]) == selected.network
  {
    var r := ExplorerBase + path + ClusterUrlParam(selected, encode);
    assert r[|ExplorerBase| + |path|..] == ClusterUrlParam(selected, encode);
    ClusterUrlParamIdentifiesNetwork(selected, encode);
    r
  }

  // ---------------------------------------------------------------------------
  // getDefaultCluster

  /** `clusters.find((c) => c.network === network)`. */
  function FindByNetwork(clusters: seq<Cluster>, network: string): (r: Option<Cluster>)
    ensures r.None? <==> forall c :: c in clusters ==> c.network.Value() != network
    ensures r.Some? ==> exists i :: 0 <= i < |clusters| && clusters[i] == r.value
                          && r.value.network.Value() == network
                          && forall j :: 0 <= j < i ==> clusters[j].network.Value() != network
  {
    if |clusters| == 0 then None
    else if clusters[0].network.Value() == network then Some(clusters[0])
    else
      var r := FindByNetwork(clusters[1..], network);
      assert r.Some? ==> exists i :: 1 <= i < |clusters| && clusters[i] == r.value
                           && r.value.network.Value() == network
                           && forall j :: 0 <= j < i ==> clusters[j].network.Value() != network by {
        if r.Some? {
          var i :| 0 <= i < |clusters[1..]| && clusters[1..][i] == r.value
                   && r.value.network.Value() == network
                   && forall j :: 0 <= j < i ==> clusters[1..][j].network.Value() != network;
          assert clusters[i + 1] == r.value;
          forall j | 0 < j < i + 1 ensures clusters[j].network.Value() != network {
            assert clusters[j] == clusters[1..][j - 1];
          }
        }
      }
      assert r.None? ==> forall c :: c in clusters ==> c.network.Value() != network by {
        if r.None? {
          forall c | c in clusters ensures c.network.Value() != network {
            if c != clusters[0] { assert c in clusters[1..]; }
          }
        }
      }
      r
  }

  /** `getDefaultCluster`: the first configured cluster on the default
      network, else the first configured cluster. `None` stands for an empty
      configuration, where the fallback branch throws a `TypeError` while
      logging the name of the missing first cluster. */
  function DefaultCluster(clusters: seq<Cluster>, defaultNetwork: string): (r: Option<Cluster>)
    ensures r.None? <==> |clusters| == 0
    ensures r.Some? ==> r.value in clusters
    ensures (exists c :: c in clusters && c.network.Value() == defaultNetwork) ==>
              r == FindByNetwork(clusters, defaultNetwork) && r.value.network.Value() == defaultNetwork
    ensures (forall c :: c in clusters ==> c.network.Value() != defaultNetwork) && |clusters| > 0 ==>
              r == Some(clusters[0])
  {
    var found := FindByNetwork(clusters, defaultNetwork);
    if found.Some? then found
    else if |clusters| > 0 then Some(clusters[0])
    else None
  }

  // ---------------------------------------------------------------------------
  // The exposed `clusters` list: a copy sorted with `a.name > b.name ? 1 : -1`

  /** JavaScript's `<` on strings: lexicographic on characters. */
  function StrLess(a: string, b: string): bool
  {
    if |a| == 0 then |b| > 0
    else if |b| == 0 then false
    else if a[0] < b[0] then true
    else if a[0] == b[0] then StrLess(a[1..], b[1..])
    else false
  }

  /** Two different strings are ordered one way or the other. */
  lemma {:induction false} StrLessTotal(a: string, b: string)
    ensures a == b || StrLess(a, b) || StrLess(b, a)
  {
    if |a| > 0 && |b| > 0 && a[0] == b[0] {
      StrLessTotal(a[1..], b[1..]);
      if a[1..] == b[1..] {
        assert a == [a[0]] + a[1..] && b == [b[0]] + b[1..];
      }
    }
  }

  /** Never both ways. */
  lemma {:induction false} StrLessAsymmetric(a: string, b: string)
    requires StrLess(a, b)
    ensures !StrLess(b, a)
  {
    if |a| > 0 && |b| > 0 && a[0] == b[0] {
      StrLessAsymmetric(a[1..], b[1..]);
    }
  }

  /** "Not smaller than" is transitive: a <= b <= c gives a <= c. */
  lemma {:induction false} NotLessTransitive(a: string, b: string, c: string)
    requires !StrLess(b, a) && !StrLess(c, b)
    ensures !StrLess(c, a)
  {
    if |a| > 0 && |b| > 0 && |c| > 0 && a[0] == b[0] && b[0] == c[0] {
      NotLessTransitive(a[1..], b[1..], c[1..]);
    }
  }

  /** Ascending by name: no later cluster has a smaller name than an earlier one. */
  ghost predicate SortedByName(cs: seq<Cluster>)
  {
    forall i, j :: 0 <= i < j < |cs| ==> !StrLess(cs[j].name, cs[i].name)
  }

  /** No cluster in `cs` has a name smaller than `n`. */
  ghost predicate NoneSmallerThan(n: string, cs: seq<Cluster>)
  {
    forall k :: 0 <= k < |cs| ==> !StrLess(cs[k].name, n)
  }

  lemma SortedCons(c: Cluster, cs: seq<Cluster>)
    requires SortedByName(cs) && NoneSmallerThan(c.name, cs)
    ensures SortedByName([c] + cs)
  {
    forall i, j | 0 <= i < j < |[c] + cs| ensures !StrLess(([c] + cs)[j].name, ([c] + cs)[i].name) {
      assert ([c] + cs)[j] == cs[j - 1];
      if i > 0 { assert ([c] + cs)[i] == cs[i - 1]; }
    }
  }

  lemma NoneSmallerThanPermutation(n: string, a: seq<Cluster>, b: seq<Cluster>)
    requires NoneSmallerThan(n, a) && multiset(a) == multiset(b)
    ensures NoneSmallerThan(n, b)
  {
    forall k | 0 <= k < |b| ensures !StrLess(b[k].name, n) {
      assert b[k] in multiset(b);
      var m :| 0 <= m < |a| && a[m] == b[k];
    }
  }

  /** Insertion of one cluster into a list already sorted by name. */
  function InsertByName(c: Cluster, sorted: seq<Cluster>): (r: seq<Cluster>)
    requires SortedByName(sorted)
    ensures SortedByName(r)
    ensures multiset(r) == multiset(sorted) + multiset{c}
  {
    if |sorted| == 0 then [c]
    else if !StrLess(sorted[0].name, c.name) then
      assert NoneSmallerThan(c.name, sorted) by {
        forall k | 0 < k < |sorted| ensures !StrLess(sorted[k].name, c.name) {
          NotLessTransitive(c.name, sorted[0].name, sorted[k].name);
        }
      }
      SortedCons(c, sorted);
      [c] + sorted
    else
      var rest := InsertByName(c, sorted[1..]);
      assert sorted == [sorted[0]] + sorted[1..];
      StrLessAsymmetric(sorted[0].name, c.name);
      assert NoneSmallerThan(sorted[0].name, sorted[1..] + [c]) by {
        forall k | 0 <= k < |sorted[1..] + [c]|
          ensures !StrLess((sorted[1..] + [c])[k].name, sorted[0].name)
        {
          if k < |sorted[1..]| { assert (sorted[1..] + [c])[k] == sorted[k + 1]; }
        }
      }
      NoneSmallerThanPermutation(sorted[0].name, sorted[1..] + [c], rest);
      SortedCons(sorted[0], rest);
      [sorted[0]] + rest
  }

  /** The exposed `clusters` value: the configured clusters sorted ascending
      by name, as a permutation of the configuration. */
  function SortByName(clusters: seq<Cluster>): (r: seq<Cluster>)
    ensures SortedByName(r)
    ensures multiset(r) == multiset(clusters)
    ensures |r| == |clusters|
  {
    if |clusters| == 0 then []
    else
      assert clusters == [clusters[0]] + clusters[1..];
      InsertByName(clusters[0], SortByName(clusters[1..]))
  }

  /** No two clusters in the list share a name. */
  ghost predicate DistinctNames(cs: seq<Cluster>)
  {
    forall i, j :: 0 <= i < |cs| && 0 <= j < |cs| && cs[i].name == cs[j].name ==> i == j
  }

  /** Two sorted lists with the same elements, one of them with distinct
      names, start with the same cluster. */
  lemma SortedSameHead(a: seq<Cluster>, b: seq<Cluster>)
    requires SortedByName(a) && SortedByName(b) && DistinctNames(a)
    requires multiset(a) == multiset(b) && |a| > 0 && |b| > 0
    ensures a[0] == b[0]
  {
    assert a[0] in multiset(b) && b[0] in multiset(a);
    var k :| 0 <= k < |b| && b[k] == a[0];
    var m :| 0 <= m < |a| && a[m] == b[0];
    StrLessTotal(a[0].name, b[0].name);
    assert a[0].name == b[0].name;
  }

  lemma TailsSameElements(a: seq<Cluster>, b: seq<Cluster>)
    requires multiset(a) == multiset(b) && |a| > 0 && |b| > 0 && a[0] == b[0]
    ensures multiset(a[1..]) == multiset(b[1..])
  {
    assert a == [a[0]] + a[1..] && b == [b[0]] + b[1..];
    assert multiset(a) == multiset{a[0]} + multiset(a[1..]);
    assert multiset(b) == multiset{b[0]} + multiset(b[1..]);
    assert multiset(a[1..]) == multiset(a) - multiset{a[0]};
    assert multiset(b[1..]) == multiset(b) - multiset{b[0]};
  }

  lemma DistinctNamesTail(a: seq<Cluster>)
    requires DistinctNames(a) && |a| > 0
    ensures DistinctNames(a[1..])
  {
    forall i, j | 0 <= i < |a[1..]| && 0 <= j < |a[1..]| && a[1..][i].name == a[1..][j].name
      ensures i == j
    {
      assert a[i + 1].name == a[j + 1].name;
    }
  }

  /** With distinct names there is only one list sorted by name with given
      elements, so any sorting algorithm produces the list `SortByName` does. */
  lemma {:induction false} SortedByNameUnique(a: seq<Cluster>, b: seq<Cluster>)
    requires SortedByName(a) && SortedByName(b) && DistinctNames(a)
    requires multiset(a) == multiset(b)
    ensures a == b
    decreases |a|
  {
    assert |a| == |multiset(a)| == |multiset(b)| == |b|;
    if |a| > 0 {
      SortedSameHead(a, b);
      TailsSameElements(a, b);
      DistinctNamesTail(a);
      SortedByNameUnique(a[1..], b[1..]);
      assert a == [a[0]] + a[1..] && b == [b[0]] + b[1..];
    }
  }
}
