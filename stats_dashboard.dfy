/**
 * The two figures of the statistics panel: how many virtual servers are
 * exactly "online" (a filter followed by its length) and how many backends
 * all pools hold together (a reduce that starts from 0).
 */
module StatsDashboard {
  import opened ServerTypes

  /** The panel's two figures. */
  datatype Stats = Stats(online: nat, backends: nat)

  /** The servers whose status is exactly Online, in list order. */
  function OnlineServers(data: seq<VirtualServer>): (r: seq<VirtualServer>)
    ensures |r| <= |data|
    ensures forall k :: 0 <= k < |r| ==> r[k].status == Online
    ensures forall x :: x in r <==> x in data && x.status == Online
    decreases |data|
  {
    if data == [] then []
    else
      var last := data[|data| - 1];
      assert data == data[..|data| - 1] + [last];
      OnlineServers(data[..|data| - 1]) + (if last.status == Online then [last] else [])
  }

  /** The "VS Ativos" figure. */
  function OnlineCount(data: seq<VirtualServer>): (n: nat)
    ensures n <= |data|
  {
    |OnlineServers(data)|
  }

  /** The positions that hold an Online server: the reference for the count. */
  ghost function OnlinePositions(data: seq<VirtualServer>): set<int>
  {
    set k | 0 <= k < |data| && data[k].status == Online
  }

  /** Extending a list by one entry adds its position when, and only when, it is Online. */
  lemma OnlinePositionsSnoc(init: seq<VirtualServer>, last: VirtualServer)
    ensures OnlinePositions(init + [last]) ==
      OnlinePositions(init) + (if last.status == Online then {|init|} else {})
  {
    var data := init + [last];
    forall k | 0 <= k < |init| ensures data[k] == init[k] { }
  }

  /** The figure counts exactly the positions whose status is Online. */
  lemma {:induction false} OnlineCountIsPositionCount(data: seq<VirtualServer>)
    ensures OnlineCount(data) == |OnlinePositions(data)|
    decreases |data|
  {
    if data == [] {
      assert OnlinePositions(data) == {};
    } else {
      var n := |data| - 1;
      var init, last := data[..n], data[n];
      assert data == init + [last];
      OnlineCountIsPositionCount(init);
      OnlinePositionsSnoc(init, last);
      assert n !in OnlinePositions(init);
    }
  }

  /** The backend pool of each entry, in list order. */
  function Pools(data: seq<VirtualServer>): (pools: seq<seq<string>>)
    ensures |pools| == |data| && forall k :: 0 <= k < |data| ==> pools[k] == data[k].backends
  {
    seq(|data|, k requires 0 <= k < |data| => data[k].backends)
  }

  /** The sum of the pool sizes, first pool first: the reference for the reduce. */
  function SumOfSizes(pools: seq<seq<string>>): nat
    decreases |pools|
  {
    if pools == [] then 0 else |pools[0]| + SumOfSizes(pools[1..])
  }

  /** pools.reduce((acc, curr) => acc + curr.length, acc) */
  function ReducePoolSizes(pools: seq<seq<string>>, acc: int): int
    decreases |pools|
  {
    if pools == [] then acc else ReducePoolSizes(pools[1..], acc + |pools[0]|)
  }

  lemma {:induction false} ReduceIsSum(pools: seq<seq<string>>, acc: int)
    ensures ReducePoolSizes(pools, acc) == acc + SumOfSizes(pools)
    decreases |pools|
  {
    if pools != [] {
      ReduceIsSum(pools[1..], acc + |pools[0]|);
    }
  }

  /** The "Total Backends" figure: the reduce from 0, which is the sum of the pool sizes. */
  function TotalBackends(data: seq<VirtualServer>): (n: nat)
    ensures n == SumOfSizes(Pools(data))
  {
    ReduceIsSum(Pools(data), 0);
    ReducePoolSizes(Pools(data), 0)
  }

  /** What the panel shows for a list. */
  function Panel(data: seq<VirtualServer>): (s: Stats)
    ensures s.online <= |data|
    ensures s.online == |OnlineServers(data)| && s.backends == SumOfSizes(Pools(data))
  {
    Stats(OnlineCount(data), TotalBackends(data))
  }

  lemma EmptyPanel()
    ensures Panel([]) == Stats(0, 0)
  {
  }

  lemma {:induction false} SumOfSizesAppend(a: seq<seq<string>>, b: seq<seq<string>>)
    ensures SumOfSizes(a + b) == SumOfSizes(a) + SumOfSizes(b)
    decreases |a|
  {
    if a == [] {
      assert a + b == b;
    } else {
      assert (a + b)[1..] == a[1..] + b;
      SumOfSizesAppend(a[1..], b);
    }
  }

  /** The total of two lists joined is the sum of their totals. */
  lemma TotalBackendsAppend(a: seq<VirtualServer>, b: seq<VirtualServer>)
    ensures TotalBackends(a + b) == TotalBackends(a) + TotalBackends(b)
  {
    assert Pools(a + b) == Pools(a) + Pools(b);
    SumOfSizesAppend(Pools(a), Pools(b));
  }

  /** Putting a server in front of a list adds its pool size to the total. */
  lemma TotalBackendsPrepend(s: VirtualServer, data: seq<VirtualServer>)
    ensures TotalBackends([s] + data) == |s.backends| + TotalBackends(data)
  {
    TotalBackendsAppend([s], data);
    assert Pools([s]) == [s.backends];
    assert SumOfSizes([s.backends]) == |s.backends| + SumOfSizes([]) by {
      assert [s.backends][1..] == [];
    }
    assert TotalBackends([s]) == SumOfSizes(Pools([s]));
  }

  lemma {:induction false} OnlineServersAppend(a: seq<VirtualServer>, b: seq<VirtualServer>)
    ensures OnlineServers(a + b) == OnlineServers(a) + OnlineServers(b)
    decreases |b|
  {
    if b == [] {
      assert a + b == a;
    } else {
      var n := |b| - 1;
      assert (a + b)[..|a + b| - 1] == a + b[..n];
      assert (a + b)[|a + b| - 1] == b[n];
      OnlineServersAppend(a, b[..n]);
    }
  }

  /** The online figure of two lists joined is the sum of their figures. */
  lemma OnlineCountAppend(a: seq<VirtualServer>, b: seq<VirtualServer>)
    ensures OnlineCount(a + b) == OnlineCount(a) + OnlineCount(b)
  {
    OnlineServersAppend(a, b);
  }

  /** Lists whose pools agree position by position have the same total, whatever else differs. */
  lemma SamePoolsSameTotal(a: seq<VirtualServer>, b: seq<VirtualServer>)
    requires |a| == |b|
    requires forall k :: 0 <= k < |a| ==> a[k].backends == b[k].backends
    ensures TotalBackends(a) == TotalBackends(b)
  {
    assert Pools(a) == Pools(b);
  }

  /** Lists that agree position by position on being Online have the same online figure. */
  lemma {:induction false} SameOnlinenessSameCount(a: seq<VirtualServer>, b: seq<VirtualServer>)
    requires |a| == |b|
    requires forall k :: 0 <= k < |a| ==> (a[k].status == Online <==> b[k].status == Online)
    ensures OnlineCount(a) == OnlineCount(b)
    decreases |a|
  {
    if a != [] {
      var n := |a| - 1;
      SameOnlinenessSameCount(a[..n], b[..n]);
    }
  }

  /** Where b has an Online entry, so has a at the same position: then b's figure is at most a's. */
  lemma {:induction false} FewerOnlineNoHigherCount(b: seq<VirtualServer>, a: seq<VirtualServer>)
    requires |a| == |b|
    requires forall k :: 0 <= k < |a| ==> (b[k].status == Online ==> a[k].status == Online)
    ensures OnlineCount(b) <= OnlineCount(a)
    decreases |a|
  {
    if a != [] {
      var n := |a| - 1;
      FewerOnlineNoHigherCount(b[..n], a[..n]);
    }
  }

  /** The service's fixture list: one server online, three backends in all. */
  const SampleServers: seq<VirtualServer> := [
    VirtualServer("1", "App-Cluster-Main", Online, Port443, Https, RoundRobin,
                  ["10.0.1.5:8080", "10.0.1.6:8080"], 5000, 200, Timeouts(5, 30, 30, 30)),
    VirtualServer("2", "Legacy-System-Proxy", Offline, Port80, Http, Cookie,
                  ["192.168.0.10:80"], 50, 50, Timeouts(10, 60, 60, 10))
  ]

  lemma SamplePanel()
    ensures Panel(SampleServers) == Stats(1, 3)
  {
    assert SampleServers[..1] == [SampleServers[0]];
    assert SampleServers[1..] == [SampleServers[1]];
  }
}
