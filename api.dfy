/**
 * The REST calls the console makes, as values. The network is not modelled:
 * a handler returns the request it would send, and the service's answer is
 * handed to the handler as a Reply parameter.
 */
module Api {
  import opened ServerTypes

  /** One call into the virtual-server service. */
  datatype Request =
    | FetchServers                                  // GET /virtual-servers
    | CreateServer(dto: ServerDto)                  // POST /virtual-servers
    | UpdateServer(id: string, dto: ServerDto)      // PATCH /virtual-servers/{id}
    | UpdateStatus(id: string, status: Status)      // PATCH /virtual-servers/{id}/status
    | DeleteServer(id: string)                      // DELETE /virtual-servers/{id}
    | GenerateConfig(id: string)                    // GET /virtual-servers/{id}/config

  /** How a call settled: resolved with a value, or rejected. */
  datatype Reply<+T> = Success(value: T) | Failure

  /** The path a request is sent to, relative to the base URL. */
  function RequestPath(r: Request): (p: string)
    ensures |p| >= |"/virtual-servers"| && p[..|"/virtual-servers"|] == "/virtual-servers"
    ensures p == "/virtual-servers" <==> r.FetchServers? || r.CreateServer?
    ensures r.UpdateServer? || r.DeleteServer? ==> p == "/virtual-servers/" + r.id
    ensures r.UpdateStatus? ==> p == "/virtual-servers/" + r.id + "/status"
    ensures r.GenerateConfig? ==> p == "/virtual-servers/" + r.id + "/config"
  {
    match r
    case FetchServers => "/virtual-servers"
    case CreateServer(_) => "/virtual-servers"
    case UpdateServer(id, _) => "/virtual-servers/" + id
    case UpdateStatus(id, _) => "/virtual-servers/" + id + "/status"
    case DeleteServer(id) => "/virtual-servers/" + id
    case GenerateConfig(id) => "/virtual-servers/" + id + "/config"
  }
}
