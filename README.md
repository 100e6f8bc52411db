# Virtual server console — a Dafny model

The console is a single-page web front end for managing load-balancer virtual
servers. Each virtual server has a name, a status, a listening port (80 or 443),
a mode (HTTP or HTTPS), a balancing algorithm (round robin or cookie), a pool of
backend `IP:port` addresses, connection and queue limits, and four timeouts.

The console has two screens built from the same ideas:

- The **list screen** keeps its list in memory and works through a REST API
  under `/virtual-servers`. It loads the list. It creates a server, putting it
  in front of the list, or edits one, replacing it by id. It changes a
  server's status, deletes a server after the user confirms, and asks the
  server side for a configuration file. Each local change happens only after
  the API call succeeds.
- The **prototype screen** works without a server. It starts from two fixture
  servers and keys records by a string `key`. It appends new servers, which
  start offline, and stores their timeouts as text such as `"30s"`. It
  changes status and deletes by key.

Both screens show two figures: how many servers are exactly "online", and how
many backends all pools hold together. Both show a coloured status badge and a
pool preview of at most two addresses plus a "+N more" line. The creation form
requires a name and validates each backend entry. On the list screen's form an
entry must look like `d{1,3}.d{1,3}.d{1,3}.d{1,3}:d{1,5}`. An entry can be
removed only while at least two are shown.

## Layout

| file | module | what it holds |
|---|---|---|
| `server_types.dfy` | `ServerTypes` | the record, its enumerations and their wire texts, the DTO (the record without `id` and `status`) |
| `api.dfy` | `Api` | the REST calls as `Request` values, and `Reply` for their outcome |
| `number_text.dfy` | `NumberText` | the decimal text of an integer and reading it back, used for `"30s"` timeouts |
| `server_form.dfy` | `ServerForm` | the backend address pattern, the field rules, whole-form validation, the form's defaults, the dynamic backend list |
| `stats_dashboard.dfy` | `StatsDashboard` | the two figures of the statistics panel |
| `server_list.dfy` | `ServerList` | the list screen: list transforms, the power button, badge, preview, and class `ServerListPage` for its state |
| `prototype.dfy` | `Prototype` | the prototype screen: its record, list transforms by key, figures, badge, and class `PrototypeApp` for its state |

The list each screen keeps is a `seq` field of a class, and each handler is a
method. A method's `ensures` gives the new list as a function of the old list
and of the API's reply. The list functions and the lemmas about them state
what each transform keeps and changes. API replies are method parameters, so
the model covers both the success path and the failure path of each handler.

## Model

| member | source | states |
|---|---|---|
| ServerTypes.ParseStatus | src/types/server.ts:4 | exactly the six status literals are statuses, and each reads back from its own text |
| ServerTypes.StatusTextRoundTrip | src/types/server.ts:4 | every status's text reads back to that status |
| ServerTypes.PortNumber | src/types/server.ts:7 | a port is 80 or 443 |
| ServerTypes.PortOf | src/types/server.ts:7 | a number is a port exactly when it is 80 or 443, and the port gives that number back |
| ServerTypes.PortRoundTrip | src/types/server.ts:7 | a port's number reads back to the same port |
| ServerTypes.ParseMode | src/types/server.ts:8 | exactly "http" and "https" are modes, and each reads back from its own text |
| ServerTypes.ParseBalance | src/types/server.ts:9 | exactly "roundrobin" and "cookie" are algorithms, and each reads back from its own text |
| ServerTypes.EnumTextRoundTrips | src/types/server.ts:8-9 | each mode's and each algorithm's text reads back to itself |
| ServerTypes.WithIdentity | src/services/api.ts:4 | adding an id and a status to a DTO gives a record with that id and status whose DTO is the one given |
| ServerTypes.DtoOfLosesOnlyIdentity | src/services/api.ts:4 | a record is its DTO plus its id and status, so the DTO drops only those two fields |
| Api.RequestPath | src/services/api.ts:23-109 | every call goes to a path under "/virtual-servers": listing and creating use that path itself and no other call does; an edit and a delete add "/" and the id; a status change adds "/" and the id and "/status"; the configuration download adds "/" and the id and "/config" |
| NumberText.NatText | src/teste.tsx:154-157 | the decimal text of a natural number is a non-empty string of digits without a leading zero |
| NumberText.IntText | src/teste.tsx:154-157 | the rendered text of an integer is never empty |
| NumberText.IntTextRoundTrip | src/teste.tsx:154-157 | reading the decimal text of any integer, negative ones included, gives that integer back |
| NumberText.SecondsText | src/teste.tsx:154-157 | a rendered timeout ends with the unit "s" after at least one character |
| NumberText.SecondsTextRoundTrip | src/teste.tsx:154-157 | the number in front of the "s" of a rendered timeout is the number rendered |
| ServerForm.IsBackendAddress | src/components/CreateServerModal.tsx:131 | the pattern test of a backend entry, run as a left-to-right scan; BackendAddressExactly states which texts it accepts |
| ServerForm.DigitRun | src/components/CreateServerModal.tsx:131 | the run of digits found at a position is maximal: all digits, and followed by the end or a non-digit |
| ServerForm.SplitFromFits | src/components/CreateServerModal.tsx:131 | a text the pattern accepts splits into digit groups of the lengths the pattern allows |
| ServerForm.SplitFromJoins | src/components/CreateServerModal.tsx:131 | the split groups, joined by the separators, give the text back |
| ServerForm.BackendAddressExactly | src/components/CreateServerModal.tsx:131 | the pattern accepts a text exactly when it is four groups of 1-3 digits joined by dots, a colon, and a group of 1-5 digits, with nothing before or after |
| ServerForm.AddressTextMatches | src/components/CreateServerModal.tsx:131 | any four groups of 1-3 digits with a port of 1-5 digits form an accepted address |
| ServerForm.DefaultBackendMatches | src/components/CreateServerModal.tsx:67 | the form's default backend "10.0.0.1:80" passes the pattern |
| ServerForm.PatternDoesNotRangeCheck | src/components/CreateServerModal.tsx:131 | every address whose octet values are below 1000 and whose port is below 100000 is accepted, so octets above 255 and ports above 65535 pass |
| ServerForm.AddressStartsWithOctet | src/components/CreateServerModal.tsx:131 | an accepted text starts with a run of 1-3 digits, so the empty text, a host name, leading padding and a four-digit octet are refused |
| ServerForm.AddressEndsWithPort | src/components/CreateServerModal.tsx:131 | an accepted text ends with ':' and 1-5 digits, so a missing port, a six-digit port and trailing padding are refused |
| ServerForm.NameAccepted | src/components/CreateServerModal.tsx:76 | the required rule of the name: it is set and not the empty text; ValidateFields, OnlyTheNameFails and InitialDraftNeedsAName state its effect on validation |
| ServerForm.CheckBackend | src/components/CreateServerModal.tsx:125-135 | an entry is missing exactly when it is unset or empty; with the pattern rule it is accepted exactly when it is set and matches; with the required rule alone nothing is malformed |
| ServerForm.BackendErrors | src/components/CreateServerModal.tsx:114-135 | the backend errors are empty exactly when every entry passes, and name each missing and each malformed entry by its index |
| ServerForm.ValidateFields | src/components/CreateServerModal.tsx:32-42 | validation succeeds exactly when the name is set and non-empty and every backend entry passes; it then hands over every field as held; otherwise it lists exactly the failing fields |
| ServerForm.SelectOptionsAreTheEnumerations | src/components/CreateServerModal.tsx:82-104 | the port, mode and algorithm selects offer exactly the values of the record's enumerations |
| ServerForm.OnlyTheNameFails | src/components/CreateServerModal.tsx:32-42 | a form whose backend entries all pass and whose name is missing fails with the name error alone |
| ServerForm.OneEntryPasses | src/components/CreateServerModal.tsx:32-42 | a named form with one accepted backend entry validates and hands over exactly that entry |
| ServerForm.InitialDraftNeedsAName | src/components/CreateServerModal.tsx:57-77 | the form as first shown fails only on the missing name |
| ServerForm.NamedInitialDraftPasses | src/components/CreateServerModal.tsx:57-77 | once a name is typed the untouched form validates, meets the input minimums and holds the one default backend |
| ServerForm.MeetsMinimums | src/components/CreateServerModal.tsx:179-207 | the six number inputs' `min={1}`; NamedInitialDraftPasses states that the form's defaults meet it |
| ServerForm.RemoveShown | src/components/CreateServerModal.tsx:142 | the remove control is shown while more than one entry is; RemoveEntry and RemoveKeepsAnEntry state what a removal then does |
| ServerForm.AddEntry | src/components/CreateServerModal.tsx:157-166 | "add" appends one unset entry and keeps the others |
| ServerForm.RemoveEntry | src/components/CreateServerModal.tsx:142-152 | "remove" drops exactly the chosen entry while two or more are shown, and changes nothing otherwise |
| ServerForm.RemoveKeepsAnEntry | src/components/CreateServerModal.tsx:142-152 | a removal never leaves the backend list empty |
| ServerForm.EditsKeepAnEntry | src/components/CreateServerModal.tsx:142-166 | from a non-empty list, no sequence of adds and removes empties it |
| ServerForm.InitialPoolNeverEmpties | src/components/CreateServerModal.tsx:67 | the form's backend list, which starts with one entry, always has at least one entry |
| StatsDashboard.OnlineServers | src/components/StatsDashboard.tsx:17 | the filter keeps exactly the servers whose status is "online", and no more servers than the list holds |
| StatsDashboard.OnlineCount | src/components/StatsDashboard.tsx:17 | the "VS Ativos" figure is at most the number of servers |
| StatsDashboard.OnlineCountIsPositionCount | src/components/StatsDashboard.tsx:17 | the figure equals the number of list positions holding an "online" server |
| StatsDashboard.ReducePoolSizes | src/components/StatsDashboard.tsx:26 | the `reduce` of the pool sizes from a start value, first pool first; ReduceIsSum states its value |
| StatsDashboard.ReduceIsSum | src/components/StatsDashboard.tsx:26 | the reduce from any start value is that value plus the sum of the pool sizes |
| StatsDashboard.TotalBackends | src/components/StatsDashboard.tsx:26 | the "Total Backends" figure, a reduce from 0, is the sum of the pool sizes |
| StatsDashboard.Panel | src/components/StatsDashboard.tsx:10-32 | the panel shows the online count, which is at most the list length, and the backend total |
| StatsDashboard.EmptyPanel | src/components/StatsDashboard.tsx:17-26 | an empty list shows 0 and 0 |
| StatsDashboard.TotalBackendsAppend | src/components/StatsDashboard.tsx:26 | the total of two lists joined is the sum of their totals |
| StatsDashboard.TotalBackendsPrepend | src/pages/VirtualServerList.tsx:121 | putting a created server in front adds its pool size to the total |
| StatsDashboard.OnlineServersAppend | src/components/StatsDashboard.tsx:17 | the filter of two lists joined is the two filters joined |
| StatsDashboard.OnlineCountAppend | src/components/StatsDashboard.tsx:17 | the online figure of two lists joined is the sum of their figures |
| StatsDashboard.SamePoolsSameTotal | src/components/StatsDashboard.tsx:26 | lists whose pools agree position by position have the same total, whatever else differs |
| StatsDashboard.SameOnlinenessSameCount | src/components/StatsDashboard.tsx:17 | lists that agree position by position on being "online" have the same online figure |
| StatsDashboard.FewerOnlineNoHigherCount | src/components/StatsDashboard.tsx:17 | a list that is online only where another is online, position by position, has no higher figure |
| StatsDashboard.SamplePanel | src/services/serverService.ts:3-31 | the service's two fixture servers show 1 online and 3 backends |
| ServerList.BuildDto | src/pages/VirtualServerList.tsx:89-103 | the DTO the submit handler builds from the form values; BuildDtoKeepsValues states that it keeps every value |
| ServerList.BuildDtoKeepsValues | src/pages/VirtualServerList.tsx:89-103 | building the DTO loses none of the form values (absent backends become the empty list), and every DTO is built from its own flat values |
| ServerList.ReplaceById | src/pages/VirtualServerList.tsx:111-115 | each entry whose id is the updated server's id becomes the updated server; the others and the length stay |
| ServerList.ReplaceKeepsIds | src/pages/VirtualServerList.tsx:111-115 | an edit changes no id in the list |
| ServerList.ReplaceAbsentId | src/pages/VirtualServerList.tsx:111-115 | an edit for an id not in the list changes nothing |
| ServerList.ReplaceIdempotent | src/pages/VirtualServerList.tsx:111-115 | applying the same edit twice is the same as once |
| ServerList.SetStatusById | src/pages/VirtualServerList.tsx:142-145 | entries with the id get the new status and keep every other field; the others and the length stay |
| ServerList.SetStatusLastWins | src/pages/VirtualServerList.tsx:142-145 | two status changes of one id leave the second status |
| ServerList.SetStatusKeepsRecords | src/pages/VirtualServerList.tsx:142-145 | a status change keeps every id and every DTO field |
| ServerList.StatusChangeKeepsTotalBackends | src/pages/VirtualServerList.tsx:142-145 | a status change leaves the backend total as it was |
| ServerList.NonOnlineStatusNeverRaisesCount | src/pages/VirtualServerList.tsx:142-145 | setting a status other than "online" never raises the online figure |
| ServerList.OnlineStatusNeverLowersCount | src/pages/VirtualServerList.tsx:142-145 | setting "online" never lowers the online figure |
| ServerList.DeleteById | src/pages/VirtualServerList.tsx:164 | no entry with the id remains, every other entry keeps its multiplicity, and the list does not grow |
| ServerList.DeleteKeepsOrder | src/pages/VirtualServerList.tsx:164 | the remaining entries keep their relative order |
| ServerList.DeleteAbsentId | src/pages/VirtualServerList.tsx:164 | deleting an id not in the list changes nothing |
| ServerList.DeleteIdempotent | src/pages/VirtualServerList.tsx:164 | deleting an id twice is the same as once |
| ServerList.PowerTarget | src/pages/VirtualServerList.tsx:323-344 | the button asks for "active" exactly when the server is offline or deactivated, and otherwise for "deactivated" |
| ServerList.PowerAlternates | src/pages/VirtualServerList.tsx:323-344 | after one press the next press asks for the other status, and a third asks for the first again |
| ServerList.PowerNeverRaisesOnlineCount | src/pages/VirtualServerList.tsx:323-344 | pressing the button never raises the online figure, because neither target is "online" |
| ServerList.Lookup | src/pages/VirtualServerList.tsx:234-241 | a key lookup finds nothing exactly when no row has the key, and otherwise returns the value of a row with the key |
| ServerList.StatusBadge | src/pages/VirtualServerList.tsx:233-242 | the badge of a status text: the table's entry, or the default colour with the text itself; StatusBadgeTable and SuccessBadgeMeansRunning state which text gets which badge |
| ServerList.StatusBadgeTable | src/pages/VirtualServerList.tsx:233-242 | each known status text shows its own badge; any other text shows a default badge with that text |
| ServerList.SuccessBadgeMeansRunning | src/pages/VirtualServerList.tsx:234-241 | the badge is green exactly for "online" and "active" |
| ServerList.Preview | src/pages/VirtualServerList.tsx:276-287 | the preview counts the pool, shows its first two addresses at most (all of a smaller pool), and has a "+N more" line exactly when the pool has more than two, with N the rest |
| ServerList.SubmitRequest | src/pages/VirtualServerList.tsx:105-124 | a submit while editing is an update of the edited id, otherwise a create, and either carries the DTO built from the form values |
| ServerList.ServerListPage.constructor | src/pages/VirtualServerList.tsx:43 | the list starts empty |
| ServerList.ServerListPage.Dashboard | src/pages/VirtualServerList.tsx:396 | the panel shows the figures of the current list |
| ServerList.ServerListPage.LoadList | src/pages/VirtualServerList.tsx:53-64 | loading fetches the list; a successful reply replaces the list, with a missing body read as the empty list, and a failure leaves it as it was |
| ServerList.ServerListPage.SubmitForm | src/pages/VirtualServerList.tsx:87-133 | a successful edit replaces the server by id, a successful create puts it in front, and a failure leaves the list as it was |
| ServerList.ServerListPage.ChangeStatus | src/pages/VirtualServerList.tsx:135-153 | the status request is sent; on success the entry with the id takes the new status; on failure nothing changes; the backend total never changes |
| ServerList.ServerListPage.PressPower | src/pages/VirtualServerList.tsx:323-344 | the button's request is sent and applied on success; the online figure never rises |
| ServerList.ServerListPage.Delete | src/pages/VirtualServerList.tsx:154-171 | nothing is sent unless the user confirms; a confirmed, successful delete removes the id; anything else leaves the list as it was |
| ServerList.ServerListPage.Download | src/pages/VirtualServerList.tsx:172-193 | the download asks for the configuration of the record's id and leaves the list unchanged |
| Prototype.NewServer | src/teste.tsx:142-159 | the record the add handler builds; NewServerCarriesTheDto and NewServerTimeoutsReadBack state what it holds |
| Prototype.NewServerTimeoutsReadBack | src/teste.tsx:153-158 | each stored timeout text reads back as the number entered |
| Prototype.NewServerCarriesTheDto | src/teste.tsx:142-159 | a new record carries the given key, is offline, and holds exactly the DTO the list screen would send for the same form values |
| Prototype.SecondsExamples | src/teste.tsx:82 | 30 is stored as "30s" and 5 as "5s" |
| Prototype.NegativeTimeoutStored | src/teste.tsx:499-520 | the timeout inputs have no minimum, so -5 is stored as "-5s" |
| Prototype.PrototypeBackendRuleHasNoPattern | src/teste.tsx:442-447 | the prototype accepts a backend such as "localhost", which the list screen's pattern rejects |
| Prototype.SetStatusByKey | src/teste.tsx:114-119 | entries with the key get the new status and keep every other field; the others and the length stay |
| Prototype.DeleteByKey | src/teste.tsx:136 | no entry with the key remains, every other entry keeps its multiplicity, and the list does not grow |
| Prototype.DeleteByKeyKeepsOrder | src/teste.tsx:136 | the remaining entries keep their relative order |
| Prototype.ProtoPowerTarget | src/teste.tsx:247-268 | the button asks for "online" exactly when the entry is offline, and otherwise for "offline" |
| Prototype.ProtoPowerAlternates | src/teste.tsx:247-268 | on an online or offline entry, two presses bring the status back |
| Prototype.OnlineEntries | src/teste.tsx:332 | the filter keeps exactly the entries whose status is "online", each as often as the list holds it, and drops every other entry |
| Prototype.OnlineCount | src/teste.tsx:332 | the "VS Online" figure is at most the number of entries |
| Prototype.OnlineCountIsPositionCount | src/teste.tsx:332 | the figure equals the number of list positions holding an "online" entry |
| Prototype.OnlineEntriesAppend | src/teste.tsx:332 | the filter of two lists joined is the two filters joined |
| Prototype.AddKeepsOnlineCount | src/teste.tsx:146 | adding a new server, which is offline, leaves the online figure as it was |
| Prototype.StopNeverRaisesOnlineCount | src/teste.tsx:263 | stopping entries never raises the online figure |
| Prototype.TotalBackends | src/teste.tsx:341-344 | the "Total Backends" figure is the sum of the pool sizes |
| Prototype.AddRaisesTotal | src/teste.tsx:161 | appending a server raises the total by its pool size |
| Prototype.StatusChangeKeepsTotal | src/teste.tsx:114-119 | a status change leaves the total as it was |
| Prototype.InitialFigures | src/teste.tsx:71-96 | the starting list shows 1 online server and 3 backends |
| Prototype.ProtoStatusBadge | src/teste.tsx:175-184 | the badge of a status text: the table's entry, or the default colour with the text itself; ProtoStatusBadgeTable states which text gets which badge |
| Prototype.ProtoStatusBadgeTable | src/teste.tsx:175-184 | each of the four statuses shows its own badge; any other text shows a default badge with that text |
| Prototype.PrototypeApp.constructor | src/teste.tsx:101 | the screen starts from the two fixture servers |
| Prototype.PrototypeApp.Figures | src/teste.tsx:327-347 | the figures are the online count, which is at most the list length, and the backend total |
| Prototype.PrototypeApp.ChangeStatus | src/teste.tsx:108-126 | every entry with the key takes the new status, and the total is unchanged |
| Prototype.PrototypeApp.PressPower | src/teste.tsx:247-268 | the button's target status is applied to the record's key |
| Prototype.PrototypeApp.Delete | src/teste.tsx:128-140 | a confirmed delete removes the key; an unconfirmed one changes nothing |
| Prototype.PrototypeApp.AddServer | src/teste.tsx:142-165 | the new record is appended after the old entries, the total rises by its pool size, and the online figure stays |

## Left out

- The HTTP client, its base URL and headers (src/services/api.ts:6-21) are not modelled. Each call is a `Request` value, and its outcome is a `Reply` parameter of the handler.
- The server side is not modelled. The ids, statuses and bodies in replies are whatever the parameters say.
- The list screen ignores the reply body of a status change (src/pages/VirtualServerList.tsx:141), and so does the model.
- The commented-out download code (src/services/api.ts:67-101) is not modelled. The download call is a request whose outcome changes no state.
- Rendering, styles, icons, toasts, loading flags and modal visibility are not modelled.
- The form's reset after submit is not modelled, and neither are the `validateTrigger` timing or the field order of antd's error list.
- The prototype's `Date.now()` key (src/teste.tsx:144) is a parameter. Keys are not assumed unique, which is why the transforms act on every entry with the key.
- Editing: the list screen has an edit modal state (src/pages/VirtualServerList.tsx:45-47, 76-79), but no form pre-fills from it. `SubmitForm` takes the edited server as a parameter.
- The list screen renders the modal with `onSubmit`/`editingData` props, but the modal calls `onCreate` (src/components/CreateServerModal.tsx:36). As wired, validated values do not reach `handleFormSubmit`. The model describes `handleFormSubmit` as if it were called with the values.
- ServerForm.MeetsMinimums: the `min={1}` of the number inputs is stated as a predicate on the values. It is not enforced by validation, because antd clamps typed values rather than rejecting them. A cleared number input (null) is not modelled.
- ServerForm.NameAccepted: a name of only spaces counts as present, as the `required` rule without `whitespace` treats it.
- ServerList.StatusBadge: only the table's own keys are looked up. Keys inherited from `Object.prototype`, such as "toString" or "constructor", find an inherited member and give a badge with an undefined colour and text; that is not modelled.
- ServerList.StatusBadgeTable: "any other text shows a default badge" holds for the table's own keys only; the inherited keys above are not modelled.
- Prototype.ProtoStatusBadge: the prototype's table (src/teste.tsx:176-181) is looked up the same way, and its inherited keys are not modelled either.
- Prototype.ProtoStatusBadgeTable: "any other text shows a default badge" holds for the table's own keys only; inherited keys such as "toString" are not modelled.
- ServerList.ServerListPage.ChangeStatus: the handler maps the list it captured when the call started (src/pages/VirtualServerList.tsx:142-146) and sets the result. A create or a delete that finishes while the status call is pending is undone by that. The model applies the change to the current list, so it does not capture this lost update.
- Prototype.PrototypeApp.ChangeStatus: the change is applied after 600 ms (src/teste.tsx:113-125) to the list captured at click time. The model applies it at once to the current list, so it does not capture a later action being overwritten by that stale list.
- Prototype.PrototypeApp.Delete: the filter runs on the list captured when the dialog opened (src/teste.tsx:136), not on the latest one. A status change that lands while the dialog is open is undone by the delete, and a pending one that lands after it brings the deleted entry back. The model filters the current list, so it does not capture these lost updates.
- Prototype.PrototypeApp.AddServer: the new list is built from the captured `data` (src/teste.tsx:161) rather than from the latest list, so a pending status change that lands after the add drops the added entry. The model appends to the current list, so it does not capture this lost update.
- NumberText.IntText: numbers are unbounded integers. Fractional values and the exponent form JavaScript uses from 1e21 up are not modelled.
- Prototype.NewServer: maximum connections, queue size and timeouts are unbounded integers, not JavaScript numbers.
- The application shell and routing (src/App.tsx, src/main.tsx) are not part of this model.
