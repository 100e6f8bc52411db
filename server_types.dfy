/**
 * The shared data model of the console: a virtual server as the REST service
 * returns it, and the creation DTO the console sends (the record without its
 * id and status). The TypeScript literal unions become enumerations, each with
 * its wire spelling and the inverse that reads it back.
 */
module ServerTypes {

  datatype Option<+T> = None | Some(value: T)

  /** The six status literals a virtual server may carry. */
  datatype Status = Online | Offline | Error | Maintenance | Active | Deactivated

  /** The listening port: the type admits exactly 80 and 443. */
  datatype Port = Port80 | Port443

  datatype Mode = Http | Https

  datatype Balance = RoundRobin | Cookie

  /** The four numeric timeouts, in seconds. */
  datatype Timeouts = Timeouts(connect: int, client: int, server: int, queue: int)

  /**
   * A virtual server. Numbers are unbounded integers; backends is an ordered
   * pool of "host:port" strings that the type itself allows to be empty.
   */
  datatype VirtualServer = VirtualServer(
    id: string,
    name: string,
    status: Status,
    port: Port,
    mode: Mode,
    balance: Balance,
    backends: seq<string>,
    maxConn: int,
    maxQueue: int,
    timeouts: Timeouts)

  /** The creation DTO: every field of a virtual server except id and status. */
  datatype ServerDto = ServerDto(
    name: string,
    port: Port,
    mode: Mode,
    balance: Balance,
    backends: seq<string>,
    maxConn: int,
    maxQueue: int,
    timeouts: Timeouts)

  /** The wire spelling of a status. */
  function StatusText(s: Status): string
  {
    match s
    case Online => "online"
    case Offline => "offline"
    case Error => "error"
    case Maintenance => "maintenance"
    case Active => "active"
    case Deactivated => "deactivated"
  }

  /** Reads a status literal; any other text is not a status. */
  function ParseStatus(t: string): (r: Option<Status>)
    ensures r.Some? ==> StatusText(r.value) == t
    ensures r.None? <==> t !in {"online", "offline", "error", "maintenance", "active", "deactivated"}
  {
    if t == "online" then Some(Online)
    else if t == "offline" then Some(Offline)
    else if t == "error" then Some(Error)
    else if t == "maintenance" then Some(Maintenance)
    else if t == "active" then Some(Active)
    else if t == "deactivated" then Some(Deactivated)
    else None
  }

  lemma StatusTextRoundTrip(s: Status)
    ensures ParseStatus(StatusText(s)) == Some(s)
  {
  }

  function PortNumber(p: Port): (n: int)
    ensures n == 80 || n == 443
  {
    match p
    case Port80 => 80
    case Port443 => 443
  }

  /** The port a number denotes, if it is one of the two the type admits. */
  function PortOf(n: int): (r: Option<Port>)
    ensures r.Some? <==> n == 80 || n == 443
    ensures r.Some? ==> PortNumber(r.value) == n
  {
    if n == 80 then Some(Port80) else if n == 443 then Some(Port443) else None
  }

  lemma PortRoundTrip(p: Port)
    ensures PortOf(PortNumber(p)) == Some(p)
  {
  }

  function ModeText(m: Mode): string
  {
    match m
    case Http => "http"
    case Https => "https"
  }

  function ParseMode(t: string): (r: Option<Mode>)
    ensures r.Some? <==> t == "http" || t == "https"
    ensures r.Some? ==> ModeText(r.value) == t
  {
    if t == "http" then Some(Http) else if t == "https" then Some(Https) else None
  }

  function BalanceText(b: Balance): string
  {
    match b
    case RoundRobin => "roundrobin"
    case Cookie => "cookie"
  }

  function ParseBalance(t: string): (r: Option<Balance>)
    ensures r.Some? <==> t == "roundrobin" || t == "cookie"
    ensures r.Some? ==> BalanceText(r.value) == t
  {
    if t == "roundrobin" then Some(RoundRobin) else if t == "cookie" then Some(Cookie) else None
  }

  lemma EnumTextRoundTrips(m: Mode, b: Balance)
    ensures ParseMode(ModeText(m)) == Some(m)
    ensures ParseBalance(BalanceText(b)) == Some(b)
  {
  }

  /** The DTO shape of a record: the record with id and status omitted. */
  function DtoOf(s: VirtualServer): (d: ServerDto)
  {
    ServerDto(s.name, s.port, s.mode, s.balance, s.backends, s.maxConn, s.maxQueue, s.timeouts)
  }

  /** The record a DTO becomes once the service has given it an id and a status. */
  function WithIdentity(d: ServerDto, id: string, status: Status): (s: VirtualServer)
    ensures s.id == id && s.status == status
    ensures DtoOf(s) == d
  {
    VirtualServer(id, d.name, status, d.port, d.mode, d.balance, d.backends, d.maxConn, d.maxQueue, d.timeouts)
  }

  /** A record is determined by its DTO part together with its id and status. */
  lemma DtoOfLosesOnlyIdentity(s: VirtualServer)
    ensures WithIdentity(DtoOf(s), s.id, s.status) == s
  {
  }
}
