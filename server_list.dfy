/**
 * The virtual-server list screen. Its handlers keep a client-side copy of the
 * list in step with the service: after a call succeeds they replace, prepend,
 * restatus or drop entries, and after a call fails they leave the list alone.
 * The list transforms are pure functions; ServerListPage holds the list and
 * applies them.
 */
module ServerList {
  import opened ServerTypes
  import opened Api
  import opened ServerForm
  import opened StatsDashboard

  // ---------------------------------------------------------------------
  // The creation DTO
  // ---------------------------------------------------------------------

  /** The DTO the submit handler sends: flat timeout fields nested, an absent pool empty. */
  function BuildDto(v: FormValues): ServerDto
  {
    ServerDto(v.name, v.port, v.mode, v.balance,
              if v.backends.Some? then v.backends.value else [],
              v.maxConn, v.maxQueue,
              Timeouts(v.timeoutConnect, v.timeoutClient, v.timeoutServer, v.timeoutQueue))
  }

  /** The flat form values that describe a DTO. */
  function FlatValues(d: ServerDto): FormValues
  {
    FormValues(d.name, d.port, d.mode, d.balance, Some(d.backends), d.maxConn, d.maxQueue,
               d.timeouts.connect, d.timeouts.client, d.timeouts.server, d.timeouts.queue)
  }

  /**
   * Building the DTO keeps every form value: flattening it back gives the
   * values, except that an absent pool comes back as the empty one; and every
   * DTO is built from some values.
   */
  lemma BuildDtoKeepsValues(v: FormValues, d: ServerDto)
    ensures FlatValues(BuildDto(v)) == v.(backends := Some(if v.backends.Some? then v.backends.value else []))
    ensures BuildDto(FlatValues(d)) == d
  {
  }

  // ---------------------------------------------------------------------
  // List transforms
  // ---------------------------------------------------------------------

  /** The ids of the entries, in list order. */
  function Ids(data: seq<VirtualServer>): (ids: seq<string>)
    ensures |ids| == |data| && forall k :: 0 <= k < |data| ==> ids[k] == data[k].id
  {
    seq(|data|, k requires 0 <= k < |data| => data[k].id)
  }

  /** After an edit: every entry whose id is the returned record's id becomes that record. */
  function ReplaceById(data: seq<VirtualServer>, updated: VirtualServer): (r: seq<VirtualServer>)
    ensures |r| == |data|
    ensures forall k :: 0 <= k < |data| ==>
      r[k] == if data[k].id == updated.id then updated else data[k]
    decreases |data|
  {
    if data == [] then []
    else [if data[0].id == updated.id then updated else data[0]] + ReplaceById(data[1..], updated)
  }

  /** After a status change: entries with the id get the new status and keep every other field. */
  function SetStatusById(data: seq<VirtualServer>, id: string, status: Status): (r: seq<VirtualServer>)
    ensures |r| == |data|
    ensures forall k :: 0 <= k < |data| ==>
      r[k] == if data[k].id == id then data[k].(status := status) else data[k]
    decreases |data|
  {
    if data == [] then []
    else [if data[0].id == id then data[0].(status := status) else data[0]] + SetStatusById(data[1..], id, status)
  }

  /** After a delete: the entries whose id differs, in their order. */
  function DeleteById(data: seq<VirtualServer>, id: string): (r: seq<VirtualServer>)
    ensures |r| <= |data|
    ensures forall k :: 0 <= k < |r| ==> r[k].id != id
    ensures forall x :: multiset(r)[x] == if x.id == id then 0 else multiset(data)[x]
    decreases |data|
  {
    if data == [] then []
    else
      var rest := DeleteById(data[1..], id);
      assert data == [data[0]] + data[1..];
      if data[0].id == id then rest else [data[0]] + rest
  }

  /** a is b with some entries left out, the rest in the same order. */
  ghost predicate IsSubsequence<X>(a: seq<X>, b: seq<X>)
    decreases |b|
  {
    if a == [] then true
    else if b == [] then false
    else (a[0] == b[0] && IsSubsequence(a[1..], b[1..])) || IsSubsequence(a, b[1..])
  }

  /** The survivors of a delete keep their relative order. */
  lemma {:induction false} DeleteKeepsOrder(data: seq<VirtualServer>, id: string)
    ensures IsSubsequence(DeleteById(data, id), data)
    decreases |data|
  {
    if data != [] {
      DeleteKeepsOrder(data[1..], id);
      var r := DeleteById(data, id);
      if data[0].id != id {
        assert r[1..] == DeleteById(data[1..], id);
      }
    }
  }

  /** A delete of an id no entry has changes nothing. */
  lemma {:induction false} DeleteAbsentId(data: seq<VirtualServer>, id: string)
    requires forall k :: 0 <= k < |data| ==> data[k].id != id
    ensures DeleteById(data, id) == data
    decreases |data|
  {
    if data != [] {
      DeleteAbsentId(data[1..], id);
      assert data == [data[0]] + data[1..];
    }
  }

  /** Deleting the same id twice is deleting it once. */
  lemma DeleteIdempotent(data: seq<VirtualServer>, id: string)
    ensures DeleteById(DeleteById(data, id), id) == DeleteById(data, id)
  {
    DeleteAbsentId(DeleteById(data, id), id);
  }

  /** An edit keeps the ids, so it never adds, drops or reorders entries. */
  lemma ReplaceKeepsIds(data: seq<VirtualServer>, updated: VirtualServer)
    ensures Ids(ReplaceById(data, updated)) == Ids(data)
  {
  }

  /** An edit whose returned id no entry has changes nothing. */
  lemma ReplaceAbsentId(data: seq<VirtualServer>, updated: VirtualServer)
    requires forall k :: 0 <= k < |data| ==> data[k].id != updated.id
    ensures ReplaceById(data, updated) == data
  {
  }

  /** Applying the same edit twice is applying it once. */
  lemma ReplaceIdempotent(data: seq<VirtualServer>, updated: VirtualServer)
    ensures ReplaceById(ReplaceById(data, updated), updated) == ReplaceById(data, updated)
  {
  }

  /** Two status changes of one id: the second one wins. */
  lemma SetStatusLastWins(data: seq<VirtualServer>, id: string, first: Status, second: Status)
    ensures SetStatusById(SetStatusById(data, id, first), id, second) == SetStatusById(data, id, second)
  {
  }

  /** A status change keeps everything but the status: ids, and each entry's DTO part. */
  lemma SetStatusKeepsRecords(data: seq<VirtualServer>, id: string, status: Status)
    ensures Ids(SetStatusById(data, id, status)) == Ids(data)
    ensures forall k :: 0 <= k < |data| ==> DtoOf(SetStatusById(data, id, status)[k]) == DtoOf(data[k])
  {
  }

  /** A status-only change leaves the total backends figure as it was. */
  lemma StatusChangeKeepsTotalBackends(data: seq<VirtualServer>, id: string, status: Status)
    ensures TotalBackends(SetStatusById(data, id, status)) == TotalBackends(data)
  {
    SamePoolsSameTotal(SetStatusById(data, id, status), data);
  }

  /** Setting any status but Online never raises the online figure. */
  lemma NonOnlineStatusNeverRaisesCount(data: seq<VirtualServer>, id: string, status: Status)
    requires status != Online
    ensures OnlineCount(SetStatusById(data, id, status)) <= OnlineCount(data)
  {
    FewerOnlineNoHigherCount(SetStatusById(data, id, status), data);
  }

  /** Setting Online never lowers the online figure. */
  lemma OnlineStatusNeverLowersCount(data: seq<VirtualServer>, id: string)
    ensures OnlineCount(data) <= OnlineCount(SetStatusById(data, id, Online))
  {
    FewerOnlineNoHigherCount(data, SetStatusById(data, id, Online));
  }

  // ---------------------------------------------------------------------
  // The power button
  // ---------------------------------------------------------------------

  /** The status the power button requests: activate what is off, deactivate anything else. */
  function PowerTarget(current: Status): (r: Status)
    ensures r == Active <==> current == Offline || current == Deactivated
    ensures r == Deactivated <==> !(current == Offline || current == Deactivated)
  {
    if current == Offline || current == Deactivated then Active else Deactivated
  }

  /** Pressed again on its own result, the button always asks for the other state. */
  lemma PowerAlternates(s: Status)
    ensures PowerTarget(PowerTarget(s)) != PowerTarget(s)
    ensures PowerTarget(PowerTarget(PowerTarget(s))) == PowerTarget(s)
  {
  }

  /**
   * The button never requests Online, so pressing it never raises the
   * online figure: an entry it activates is "active", which is not counted.
   */
  lemma PowerNeverRaisesOnlineCount(data: seq<VirtualServer>, record: VirtualServer)
    ensures OnlineCount(SetStatusById(data, record.id, PowerTarget(record.status))) <= OnlineCount(data)
  {
    NonOnlineStatusNeverRaisesCount(data, record.id, PowerTarget(record.status));
  }

  // ---------------------------------------------------------------------
  // Display: status badge and pool preview
  // ---------------------------------------------------------------------

  datatype BadgeColor = SuccessColor | DefaultColor | ErrorColor | WarningColor

  datatype Badge = Badge(color: BadgeColor, text: string)

  /** The value of the first row whose key is the given one. */
  function Lookup<V>(table: seq<(string, V)>, key: string): (r: Option<V>)
    ensures r.None? <==> forall k :: 0 <= k < |table| ==> table[k].0 != key
    ensures r.Some? ==> exists k :: 0 <= k < |table| && table[k] == (key, r.value)
    decreases |table|
  {
    if table == [] then None
    else if table[0].0 == key then Some(table[0].1)
    else
      var r := Lookup(table[1..], key);
      assert forall k :: 1 <= k < |table| ==> table[1..][k - 1] == table[k];
      r
  }

  /** The badge table of the list screen. */
  const StatusBadges: seq<(string, Badge)> := [
    ("online", Badge(SuccessColor, "Online")),
    ("offline", Badge(DefaultColor, "Offline")),
    ("active", Badge(SuccessColor, "Active")),
    ("deactivated", Badge(DefaultColor, "Deactivated")),
    ("error", Badge(ErrorColor, "Error")),
    ("maintenance", Badge(WarningColor, "Maint."))
  ]

  /** The badge for a status text: the table's entry, or the default colour with the raw text. */
  function StatusBadge(raw: string): Badge
  {
    match Lookup(StatusBadges, raw)
    case Some(b) => b
    case None => Badge(DefaultColor, raw)
  }

  /** The badge each status is meant to show. */
  function BadgeFor(s: Status): Badge
  {
    match s
    case Online => Badge(SuccessColor, "Online")
    case Offline => Badge(DefaultColor, "Offline")
    case Active => Badge(SuccessColor, "Active")
    case Deactivated => Badge(DefaultColor, "Deactivated")
    case Error => Badge(ErrorColor, "Error")
    case Maintenance => Badge(WarningColor, "Maint.")
  }

  /** Each known status shows its fixed badge; any other text shows itself in the default colour. */
  lemma StatusBadgeTable(raw: string)
    ensures ParseStatus(raw).Some? ==> StatusBadge(raw) == BadgeFor(ParseStatus(raw).value)
    ensures ParseStatus(raw).None? ==> StatusBadge(raw) == Badge(DefaultColor, raw)
  {
    if ParseStatus(raw).None? {
      assert forall k :: 0 <= k < |StatusBadges| ==> StatusBadges[k].0 != raw;
    }
  }

  /** Only online and active show the success colour. */
  lemma SuccessBadgeMeansRunning(raw: string)
    ensures StatusBadge(raw).color == SuccessColor <==> raw == "online" || raw == "active"
  {
    StatusBadgeTable(raw);
  }

  /** What the Backends Pool cell shows: the pool size, at most two entries, and how many more. */
  datatype PoolPreview = PoolPreview(size: nat, shown: seq<string>, more: Option<nat>)

  function Preview(backends: seq<string>): (p: PoolPreview)
    ensures p.size == |backends|
    ensures |p.shown| <= 2 && |p.shown| <= |backends| && p.shown == backends[..|p.shown|]
    ensures |p.shown| == 2 || p.shown == backends
    ensures p.more.Some? <==> |backends| > 2
    ensures p.more.Some? ==> |p.shown| + p.more.value == |backends|
  {
    var n := |backends|;
    PoolPreview(n, backends[..if n < 2 then n else 2], if n > 2 then Some(n - 2) else None)
  }

  // ---------------------------------------------------------------------
  // The screen
  // ---------------------------------------------------------------------

  /** The request the submit handler sends: an update of the edited record, or a create. */
  function SubmitRequest(values: FormValues, editing: Option<VirtualServer>): (req: Request)
    ensures editing.Some? ==> req.UpdateServer? && req.id == editing.value.id
    ensures editing.None? ==> req.CreateServer?
    ensures req.dto == BuildDto(values)
  {
    if editing.Some? then UpdateServer(editing.value.id, BuildDto(values)) else CreateServer(BuildDto(values))
  }

  /** The list screen's copy of the service's list. */
  class ServerListPage {
    var data: seq<VirtualServer>

    /** The list starts empty. */
    constructor ()
      ensures data == []
    {
      data := [];
    }

    /** The statistics panel over the current list. */
    function Dashboard(): (s: Stats)
      reads this
      ensures s.online <= |data|
      ensures s == Panel(data)
    {
      Panel(data)
    }

    /** Loading the list: a missing body gives the empty list, a failure keeps the old one. */
    method LoadList(reply: Reply<Option<seq<VirtualServer>>>) returns (req: Request)
      modifies this
      ensures req == FetchServers
      ensures reply.Success? && reply.value.Some? ==> data == reply.value.value
      ensures reply.Success? && reply.value.None? ==> data == []
      ensures reply.Failure? ==> data == old(data)
    {
      req := FetchServers;
      match reply
      case Success(body) =>
        data := if body.Some? then body.value else [];
      case Failure =>
    }

    /**
     * Submitting the form: on success an edit replaces the entry with the
     * returned record's id and a create puts the returned record first.
     */
    method SubmitForm(values: FormValues, editing: Option<VirtualServer>, reply: Reply<VirtualServer>)
      returns (req: Request)
      modifies this
      ensures req == SubmitRequest(values, editing)
      ensures reply.Success? && editing.Some? ==> data == ReplaceById(old(data), reply.value)
      ensures reply.Success? && editing.None? ==> data == [reply.value] + old(data)
      ensures reply.Failure? ==> data == old(data)
    {
      req := SubmitRequest(values, editing);
      if reply.Success? {
        if editing.Some? {
          data := ReplaceById(data, reply.value);
        } else {
          data := [reply.value] + data;
        }
      }
    }

    /** A status change: applied to the list only once the service accepted it. */
    method ChangeStatus(id: string, newStatus: Status, reply: Reply<VirtualServer>) returns (req: Request)
      modifies this
      ensures req == UpdateStatus(id, newStatus)
      ensures reply.Success? ==> data == SetStatusById(old(data), id, newStatus)
      ensures reply.Failure? ==> data == old(data)
      ensures TotalBackends(data) == TotalBackends(old(data))
    {
      req := UpdateStatus(id, newStatus);
      StatusChangeKeepsTotalBackends(data, id, newStatus);
      if reply.Success? {
        data := SetStatusById(data, id, newStatus);
      }
    }

    /** The power button of a row: asks for the status PowerTarget picks. */
    method PressPower(record: VirtualServer, reply: Reply<VirtualServer>) returns (req: Request)
      modifies this
      ensures req == UpdateStatus(record.id, PowerTarget(record.status))
      ensures reply.Success? ==> data == SetStatusById(old(data), record.id, PowerTarget(record.status))
      ensures reply.Failure? ==> data == old(data)
      ensures OnlineCount(data) <= OnlineCount(old(data))
    {
      PowerNeverRaisesOnlineCount(data, record);
      req := ChangeStatus(record.id, PowerTarget(record.status), reply);
    }

    /** A delete: nothing is sent unless confirmed, and the list changes only on success. */
    method Delete(id: string, confirmed: bool, reply: Reply<()>) returns (req: Option<Request>)
      modifies this
      ensures req == if confirmed then Some(DeleteServer(id)) else None
      ensures confirmed && reply.Success? ==> data == DeleteById(old(data), id)
      ensures !confirmed || reply.Failure? ==> data == old(data)
    {
      if confirmed {
        req := Some(DeleteServer(id));
        if reply.Success? {
          data := DeleteById(data, id);
        }
      } else {
        req := None;
      }
    }

    /** The download button: asks the service to generate the record's configuration. */
    method Download(record: VirtualServer) returns (req: Request)
      ensures req == GenerateConfig(record.id)
    {
      req := GenerateConfig(record.id);
    }
  }
}
