/**
 * The single-file prototype screen. It keeps its own list locally with no
 * service behind it: entries are keyed by a client-made key, know only four
 * statuses, and store each timeout as text ("30s"). Adding appends, the power
 * button toggles between offline and online, and its inline panel shows the
 * same two figures as the statistics panel.
 */
module Prototype {
  import T = ServerTypes
  import N = NumberText
  import F = ServerForm
  import S = StatsDashboard
  import L = ServerList

  datatype ProtoStatus = Online | Offline | Error | Maintenance

  function ProtoStatusText(s: ProtoStatus): string
  {
    match s
    case Online => "online"
    case Offline => "offline"
    case Error => "error"
    case Maintenance => "maintenance"
  }

  /** The four timeouts as text: the number followed by the unit. */
  datatype TextTimeouts = TextTimeouts(connect: string, client: string, server: string, queue: string)

  datatype ProtoServer = ProtoServer(
    key: string,
    name: string,
    status: ProtoStatus,
    port: T.Port,
    mode: T.Mode,
    balance: T.Balance,
    backends: seq<string>,
    maxConn: int,
    maxQueue: int,
    timeouts: TextTimeouts)

  /** The two entries the screen starts with. */
  const InitialData: seq<ProtoServer> := [
    ProtoServer("1", "App-Cluster-Main", Online, T.Port443, T.Https, T.RoundRobin,
                ["10.0.1.5:8080", "10.0.1.6:8080"], 5000, 200,
                TextTimeouts("5s", "30s", "30s", "30s")),
    ProtoServer("2", "Legacy-System-Proxy", Offline, T.Port80, T.Http, T.Cookie,
                ["192.168.0.10:80"], 50, 50,
                TextTimeouts("10s", "60s", "60s", "10s"))
  ]

  // ---------------------------------------------------------------------
  // Adding a server
  // ---------------------------------------------------------------------

  /**
   * The record the add handler builds from the form values and a fresh key:
   * status offline, the fields copied, an absent pool empty, and each timeout
   * as its number followed by "s".
   */
  function NewServer(values: F.FormValues, key: string): ProtoServer
  {
    ProtoServer(key, values.name, Offline, values.port, values.mode, values.balance,
                if values.backends.Some? then values.backends.value else [],
                values.maxConn, values.maxQueue,
                TextTimeouts(N.SecondsText(values.timeoutConnect), N.SecondsText(values.timeoutClient),
                             N.SecondsText(values.timeoutServer), N.SecondsText(values.timeoutQueue)))
  }

  /** Each stored timeout text reads back as the number that was entered. */
  lemma NewServerTimeoutsReadBack(values: F.FormValues, key: string)
    ensures var t := NewServer(values, key).timeouts;
      && N.ParseSeconds(t.connect) == T.Some(values.timeoutConnect)
      && N.ParseSeconds(t.client) == T.Some(values.timeoutClient)
      && N.ParseSeconds(t.server) == T.Some(values.timeoutServer)
      && N.ParseSeconds(t.queue) == T.Some(values.timeoutQueue)
  {
    N.SecondsTextRoundTrip(values.timeoutConnect);
    N.SecondsTextRoundTrip(values.timeoutClient);
    N.SecondsTextRoundTrip(values.timeoutServer);
    N.SecondsTextRoundTrip(values.timeoutQueue);
  }

  /** The DTO part of a prototype record, reading each timeout text back as a number. */
  function ProtoDto(s: ProtoServer): T.Option<T.ServerDto>
  {
    var c, cl, sv, q :=
      N.ParseSeconds(s.timeouts.connect), N.ParseSeconds(s.timeouts.client),
      N.ParseSeconds(s.timeouts.server), N.ParseSeconds(s.timeouts.queue);
    if c.Some? && cl.Some? && sv.Some? && q.Some? then
      T.Some(T.ServerDto(s.name, s.port, s.mode, s.balance, s.backends, s.maxConn, s.maxQueue,
                         T.Timeouts(c.value, cl.value, sv.value, q.value)))
    else T.None
  }

  /**
   * A new prototype record is offline, carries the given key, and holds
   * exactly what the list screen would send for the same form values.
   */
  lemma NewServerCarriesTheDto(values: F.FormValues, key: string)
    ensures NewServer(values, key).key == key
    ensures NewServer(values, key).status == Offline
    ensures ProtoDto(NewServer(values, key)) == T.Some(L.BuildDto(values))
  {
    NewServerTimeoutsReadBack(values, key);
  }

  /** 30 is stored as "30s", the default connect timeout 5 as "5s". */
  lemma SecondsExamples()
    ensures N.SecondsText(30) == "30s"
    ensures N.SecondsText(5) == "5s"
  {
    assert N.NatText(30) == N.NatText(3) + [N.DigitChar(0)];
  }

  /**
   * The prototype's timeout inputs carry no minimum, so a negative entry is
   * stored as it is, sign and all.
   */
  lemma NegativeTimeoutStored(values: F.FormValues, key: string)
    requires values.timeoutConnect == -5
    ensures NewServer(values, key).timeouts.connect == "-5s"
  {
  }

  /** The prototype's backend entries are only required: any non-empty text passes. */
  lemma PrototypeBackendRuleHasNoPattern()
    ensures F.CheckBackend(T.Some("localhost"), F.RequiredOnly) == F.Accepted
    ensures F.CheckBackend(T.Some("localhost"), F.RequiredAndPattern) == F.Malformed
  {
    assert F.DigitRun("localhost", 0) == 0;
  }

  // ---------------------------------------------------------------------
  // List transforms, by key
  // ---------------------------------------------------------------------

  /** Entries with the key get the new status and keep every other field. */
  function SetStatusByKey(data: seq<ProtoServer>, key: string, status: ProtoStatus): (r: seq<ProtoServer>)
    ensures |r| == |data|
    ensures forall k :: 0 <= k < |data| ==>
      r[k] == if data[k].key == key then data[k].(status := status) else data[k]
    decreases |data|
  {
    if data == [] then []
    else [if data[0].key == key then data[0].(status := status) else data[0]] + SetStatusByKey(data[1..], key, status)
  }

  /** The entries whose key differs, in their order. */
  function DeleteByKey(data: seq<ProtoServer>, key: string): (r: seq<ProtoServer>)
    ensures |r| <= |data|
    ensures forall k :: 0 <= k < |r| ==> r[k].key != key
    ensures forall x :: multiset(r)[x] == if x.key == key then 0 else multiset(data)[x]
    decreases |data|
  {
    if data == [] then []
    else
      var rest := DeleteByKey(data[1..], key);
      assert data == [data[0]] + data[1..];
      if data[0].key == key then rest else [data[0]] + rest
  }

  /** Deleting a key keeps the other entries in their relative order. */
  lemma {:induction false} DeleteByKeyKeepsOrder(data: seq<ProtoServer>, key: string)
    ensures L.IsSubsequence(DeleteByKey(data, key), data)
    decreases |data|
  {
    if data != [] {
      DeleteByKeyKeepsOrder(data[1..], key);
      var r := DeleteByKey(data, key);
      if data[0].key != key {
        assert r[1..] == DeleteByKey(data[1..], key);
      }
    }
  }

  /** The Start/Stop button: an offline entry is started, any other one stopped. */
  function ProtoPowerTarget(current: ProtoStatus): (r: ProtoStatus)
    ensures r == Online <==> current == Offline
    ensures r == Offline <==> current != Offline
  {
    if current == Offline then Online else Offline
  }

  /** Start and Stop alternate: two presses bring an offline or online entry back. */
  lemma ProtoPowerAlternates(s: ProtoStatus)
    requires s == Online || s == Offline
    ensures ProtoPowerTarget(ProtoPowerTarget(s)) == s
  {
  }

  // ---------------------------------------------------------------------
  // Inline statistics
  // ---------------------------------------------------------------------

  /** The entries whose status is exactly online, in list order. */
  function OnlineEntries(data: seq<ProtoServer>): (r: seq<ProtoServer>)
    ensures |r| <= |data|
    ensures forall x :: x in r <==> x in data && x.status == Online
    ensures forall x :: multiset(r)[x] == if x.status == Online then multiset(data)[x] else 0
    decreases |data|
  {
    if data == [] then []
    else
      var rest := OnlineEntries(data[1..]);
      assert data == [data[0]] + data[1..];
      if data[0].status == Online then [data[0]] + rest else rest
  }

  /** The "VS Online" figure. */
  function OnlineCount(data: seq<ProtoServer>): (n: nat)
    ensures n <= |data|
  {
    |OnlineEntries(data)|
  }

  function ProtoPools(data: seq<ProtoServer>): (pools: seq<seq<string>>)
    ensures |pools| == |data| && forall k :: 0 <= k < |data| ==> pools[k] == data[k].backends
  {
    seq(|data|, k requires 0 <= k < |data| => data[k].backends)
  }

  /** The "Total Backends" figure: the same reduce over the pools as the statistics panel. */
  function TotalBackends(data: seq<ProtoServer>): (n: nat)
    ensures n == S.SumOfSizes(ProtoPools(data))
  {
    S.ReduceIsSum(ProtoPools(data), 0);
    S.ReducePoolSizes(ProtoPools(data), 0)
  }

  /** Adding a server raises the total by its pool size and leaves the old entries' figures. */
  lemma AddRaisesTotal(data: seq<ProtoServer>, s: ProtoServer)
    ensures TotalBackends(data + [s]) == TotalBackends(data) + |s.backends|
  {
    assert ProtoPools(data + [s]) == ProtoPools(data) + [s.backends];
    S.SumOfSizesAppend(ProtoPools(data), [s.backends]);
    assert [s.backends][1..] == [];
  }

  /** A status change by key leaves the total as it was. */
  lemma StatusChangeKeepsTotal(data: seq<ProtoServer>, key: string, status: ProtoStatus)
    ensures TotalBackends(SetStatusByKey(data, key, status)) == TotalBackends(data)
  {
    assert ProtoPools(SetStatusByKey(data, key, status)) == ProtoPools(data);
  }

  lemma {:induction false} OnlineEntriesAppend(a: seq<ProtoServer>, b: seq<ProtoServer>)
    ensures OnlineEntries(a + b) == OnlineEntries(a) + OnlineEntries(b)
    decreases |a|
  {
    if a == [] {
      assert a + b == b;
    } else {
      assert (a + b)[1..] == a[1..] + b;
      OnlineEntriesAppend(a[1..], b);
    }
  }

  /** The positions that hold an online entry: the reference for the count. */
  ghost function OnlinePositions(data: seq<ProtoServer>): set<int>
  {
    set k | 0 <= k < |data| && data[k].status == Online
  }

  /** Extending a list by one entry adds its position when, and only when, it is online. */
  lemma OnlinePositionsSnoc(init: seq<ProtoServer>, last: ProtoServer)
    ensures OnlinePositions(init + [last]) ==
      OnlinePositions(init) + (if last.status == Online then {|init|} else {})
  {
    var data := init + [last];
    forall k | 0 <= k < |init| ensures data[k] == init[k] { }
  }

  /** The "VS Online" figure counts exactly the positions whose status is online. */
  lemma {:induction false} OnlineCountIsPositionCount(data: seq<ProtoServer>)
    ensures OnlineCount(data) == |OnlinePositions(data)|
    decreases |data|
  {
    if data == [] {
      assert OnlinePositions(data) == {};
    } else {
      var n := |data| - 1;
      var init, last := data[..n], data[n];
      assert data == init + [last];
      OnlineCountIsPositionCount(init);
      OnlinePositionsSnoc(init, last);
      OnlineEntriesAppend(init, [last]);
      assert [last][1..] == [];
      assert n !in OnlinePositions(init);
    }
  }

  /** A new server starts offline, so adding it leaves the online figure as it was. */
  lemma AddKeepsOnlineCount(data: seq<ProtoServer>, values: F.FormValues, key: string)
    ensures OnlineCount(data + [NewServer(values, key)]) == OnlineCount(data)
  {
    var added := [NewServer(values, key)];
    OnlineEntriesAppend(data, added);
    assert added[1..] == [];
  }

  /** Stopping entries never raises the online figure. */
  lemma {:induction false} StopNeverRaisesOnlineCount(data: seq<ProtoServer>, key: string)
    ensures OnlineCount(SetStatusByKey(data, key, Offline)) <= OnlineCount(data)
    decreases |data|
  {
    if data != [] {
      StopNeverRaisesOnlineCount(data[1..], key);
      var r := SetStatusByKey(data, key, Offline);
      assert r[1..] == SetStatusByKey(data[1..], key, Offline);
    }
  }

  /** The starting list shows one online server and three backends. */
  lemma InitialFigures()
    ensures OnlineCount(InitialData) == 1 && TotalBackends(InitialData) == 3
  {
    assert InitialData[1..][1..] == [];
    assert ProtoPools(InitialData) == [InitialData[0].backends, InitialData[1].backends];
    assert [InitialData[0].backends, InitialData[1].backends][1..] == [InitialData[1].backends];
    assert [InitialData[1].backends][1..] == [];
  }

  // ---------------------------------------------------------------------
  // Display
  // ---------------------------------------------------------------------

  /** The prototype's badge table knows four statuses. */
  const ProtoBadges: seq<(string, L.Badge)> := [
    ("online", L.Badge(L.SuccessColor, "Online")),
    ("offline", L.Badge(L.DefaultColor, "Offline")),
    ("error", L.Badge(L.ErrorColor, "Error")),
    ("maintenance", L.Badge(L.WarningColor, "Maint."))
  ]

  function ProtoStatusBadge(raw: string): L.Badge
  {
    match L.Lookup(ProtoBadges, raw)
    case Some(b) => b
    case None => L.Badge(L.DefaultColor, raw)
  }

  function ProtoBadgeFor(s: ProtoStatus): L.Badge
  {
    match s
    case Online => L.Badge(L.SuccessColor, "Online")
    case Offline => L.Badge(L.DefaultColor, "Offline")
    case Error => L.Badge(L.ErrorColor, "Error")
    case Maintenance => L.Badge(L.WarningColor, "Maint.")
  }

  /** Each of the four statuses shows its badge; "active" and any other text show themselves. */
  lemma ProtoStatusBadgeTable(s: ProtoStatus, raw: string)
    requires raw !in {"online", "offline", "error", "maintenance"}
    ensures ProtoStatusBadge(ProtoStatusText(s)) == ProtoBadgeFor(s)
    ensures ProtoStatusBadge(raw) == L.Badge(L.DefaultColor, raw)
  {
    assert forall k :: 0 <= k < |ProtoBadges| ==> ProtoBadges[k].0 != raw;
  }

  // ---------------------------------------------------------------------
  // The screen
  // ---------------------------------------------------------------------

  class PrototypeApp {
    var data: seq<ProtoServer>

    constructor ()
      ensures data == InitialData
    {
      data := InitialData;
    }

    /** The inline panel over the current list. */
    function Figures(): (s: S.Stats)
      reads this
      ensures s.online <= |data|
      ensures s == S.Stats(OnlineCount(data), TotalBackends(data))
    {
      S.Stats(OnlineCount(data), TotalBackends(data))
    }

    /** A status change by key; the prototype's simulated call always succeeds. */
    method ChangeStatus(key: string, newStatus: ProtoStatus)
      modifies this
      ensures data == SetStatusByKey(old(data), key, newStatus)
      ensures TotalBackends(data) == TotalBackends(old(data))
    {
      StatusChangeKeepsTotal(data, key, newStatus);
      data := SetStatusByKey(data, key, newStatus);
    }

    /** The Start/Stop button of a row. */
    method PressPower(record: ProtoServer)
      modifies this
      ensures data == SetStatusByKey(old(data), record.key, ProtoPowerTarget(record.status))
    {
      ChangeStatus(record.key, ProtoPowerTarget(record.status));
    }

    /** A delete by key, once confirmed. */
    method Delete(key: string, confirmed: bool)
      modifies this
      ensures data == if confirmed then DeleteByKey(old(data), key) else old(data)
    {
      if confirmed {
        data := DeleteByKey(data, key);
      }
    }

    /** Adding a server: the new record goes after every existing one. */
    method AddServer(values: F.FormValues, key: string)
      modifies this
      ensures data == old(data) + [NewServer(values, key)]
      ensures |data| == |old(data)| + 1 && data[..|old(data)|] == old(data)
      ensures TotalBackends(data) == TotalBackends(old(data)) + |NewServer(values, key).backends|
      ensures OnlineCount(data) == OnlineCount(old(data))
    {
      AddRaisesTotal(data, NewServer(values, key));
      AddKeepsOnlineCount(data, values, key);
      data := data + [NewServer(values, key)];
    }
  }
}
