# Homedex, verified

A Dafny model of the parts of Homedex whose correctness is hardest to see from the code, with proofs.
`dafny verify dfyconfig.toml` checks everything.

Homedex reads an inventory (hosts, services, ports, proxy routes, certificates, domains, image updates) from
connectors, keeps it in tables, and files what changed in a feed the user is meant to trust. Four things are
modelled:

* **The reconciliation engine.** A scan is a complete snapshot. The engine folds it into the stored rows: by natural
  key, else by taking over a row whose key moved; rows no longer seen are marked gone and purged later.
  `Store`, `Strings`, `ParentsFirst`, `Hosts`, `Services`, `Ports`, `Observed` and `Domain` say on values what each
  kind's pass does and what it keeps; `Engine` puts them together and states the promises over whole runs; `Rekey`
  is about a change of key scheme.
  `Applier` is the engine itself, an object whose methods rewrite tables and feed row by row, each proved to do what
  `Engine` says. `Images` is the image update feed.
* **Route resolution.** `Resolve` and `Links` state over sets of facts which service a route reaches and which
  machine a second view stands for; the loops over unordered query results are proved to compute that.
  `Pipeline` composes resolving, applying and resolving again; `Runner` is the object that does it; `Scans` lets
  several scans, failures and purges interleave.
* **The nginx configuration compiler.** `NginxParse` is the tokenizer and block parser, `NginxGrammar` the language it
  accepts; `NginxLoad` the include expander over shared heap nodes; `NginxPaths` the symlink walk; `NginxKept` and
  `NginxRoutes` the routes and their keys.
* **Small protocols.** `Notify` (deliver once, under crashes and interleaving), `LoginLimiter` (sliding window),
  `FeedOrder` (fair rotating lookup order).

How it is built:

* Code that works step by step is a method with loops, or an object whose methods update its fields. It is proved equal
  to a function on values, or against a stated property; the lemmas are about those functions.
* A table is a map from row id to row. A query is a set of ids, handed back in the order of a `RowOrder` the database
  picks: every result holds for every order. The next id is one more than the largest in use. Time is an integer.
* What Homedex takes from libraries (name and IP spellings, digest checks, which services run behind a digest, lstat,
  file contents, globbing) is a function-valued parameter, so every result holds whatever those functions do.
* `Engine.WellFormed` is what the connectors promise of a snapshot: no natural key twice in a kind, a protocol on every
  port, no service in the state "gone", which the engine keeps for itself. The last is not checked by the code;
  `Services.ServicesTellExactly` says exactly what breaks without it. The first two are what the proxmox connector and
  the port migrations establish before calling the engine.
* Where the documentation and the code disagree the code is followed. Two results say where a promise ends, each
  with the exact condition and an input that fails: `NginxKept.KeptCovers` (two identical prefix locations drop each
  other, and their upstream is lost: `NginxKept.IdenticalPrefixesAreLost`) and `Services.ServicesTellExactly`
  (`Services.GoneServiceIsMisreported`).
* Sources of a proxy kind (traefik, caddy, npm, nginx) report no hosts; `Pipeline.Honest` says so. Only for them a
  proxies row is written and the routes get its scope.

## Model

| member | source | states |
|---|---|---|
| Engine.EveryRunIsValid | internal/engine/apply.go:55-169 | After any run of scans by any connectors and of purges: (connector, key) is unique in every table, parent links have no cycle, every link leads to a stored row, stored services are named and a stored route's compared upstream is that of its own columns, each port's key is its service's current key with its own tuple, no port hangs off anything gone, and the feed's last entry about a row is a removal exactly when the row is gone, filed when the row was last written |
| Engine.ScanKeepsValid | internal/engine/apply.go:78-169 | One scan that goes through keeps all of that |
| Engine.PurgeKeepsValid | internal/engine/apply.go:55-76 | A purge keeps all of that |
| Engine.ApplyTwice | internal/engine/apply.go:78-169 | From every valid store, applying the same snapshot again succeeds, files nothing and leaves every row id and, in all six tables, every column but the time of writing as the first application left it |
| Engine.PurgeTakesNoPort | internal/engine/apply.go:55-76 | The cascades of a purge never delete a port |
| Engine.ScanKeepsOthers | internal/engine/apply.go:78-169 | A scan adds, deletes and changes nothing among other connectors' hosts, services, ports, routes, certificates and domains |
| Engine.GoesThroughExactly | internal/engine/apply.go:78-169 | A scan goes through exactly if every host, service, route, certificate and domain is named and every port belongs to a service of the snapshot; otherwise it fails as a whole |
| Engine.PurgeDeletesExactly | internal/engine/apply.go:55-76 | In all five tables a purge deletes exactly the rows whose removal the feed dates before the cutoff; it cuts exactly the links to them (a host's parent, a service's host, a route's service), and changes no other column, no port and nothing in the feed |
| Rekey.RekeyChangesNothing | internal/engine/apply.go:383-639 | When a connector reports what is stored, each service under its stored key or under a new one with one live namesake to take over, the whole scan keeps every service and every port on its row, ties each port to the new key, and files nothing about services or ports |
| Applier.Applier.Apply | internal/engine/apply.go:78-169 | The object's tables and feed after a scan are those of `Engine.Apply`, the returned count is the number of entries filed, an error leaves no trace, and the object stays valid |
| Applier.Applier.PurgeGone | internal/engine/apply.go:55-76 | Deleting table by table with cascades is `Engine.Purge` at now less the retention, and keeps the object valid; without a positive retention it fails and changes nothing |
| Applier.Applier.ApplyHosts | internal/engine/apply.go:249-328 | The loop over hosts, parents first, is the fold of `Hosts`; it fails exactly on an unnamed host, and counts what it files |
| Applier.Applier.ApplyServices | internal/engine/apply.go:383-483 | The loop over services is the fold of `Services` |
| Applier.Applier.FirstMoved | internal/engine/apply.go:410-426 | The scan over candidate rows finds the first whose own key is not incoming |
| Applier.Applier.ApplyPorts | internal/engine/apply.go:512-639 | The indexes by key and by identity, the claims and the deletions compute `Ports.Applied`; it fails exactly on an unknown service |
| Applier.Applier.PortsByIdentity | internal/engine/apply.go:530-547 | The index by identity finds exactly the stored row with that service row and tuple |
| Applier.Applier.MarkGone | internal/engine/apply.go:800-834 | Ends exactly the connector's live rows not seen, one removal entry each |
| Applier.Applier.Upsert | internal/engine/apply.go:641-798 | One route, certificate or domain: its row's columns overwritten or a row inserted, an entry only if a tracked column or the state moved |
| ParentsFirst.Order | internal/engine/apply.go:333-357 | The rounds over the pending hosts compute `Ordered` |
| ParentsFirst.OrderPermutes | internal/engine/apply.go:330-357 | The order is a permutation of the snapshot's hosts |
| ParentsFirst.OrderedStays | internal/engine/apply.go:330-332 | Hosts that already come after their parents keep their order |
| ParentsFirst.TailIsUngrounded | internal/engine/apply.go:330-357 | Every host whose parent chain reaches a root comes after its parent; the tail is exactly the hosts whose chain never does |
| Hosts.ScanKeepsAcyclic | internal/engine/apply.go:249-328 | A scan leaves the stored parent links without a cycle, gone rows and other connectors' rows included |
| Hosts.NoCycle | internal/engine/apply.go:249-328 | No walk along stored parent links ever returns to where it began |
| Hosts.GroundedHostIsLinked | internal/engine/apply.go:263-268 | A host whose chain reaches a root is stored with the row of the parent it names |
| Hosts.HostsRescan | internal/engine/apply.go:249-328 | Seeing the same hosts again files nothing and keeps ids, unread names and addresses and parents caught in a cycle included |
| Hosts.ReportedIsTold | internal/engine/apply.go:257-323 | Column by column: a reported host's row holds what was reported, except that on a stored row a name that was not read is the stored name and addresses that were not read are the stored address and aliases; exactly one Modified entry is filed if one of the nine columns moved, naming those that did with both values (the parent by the name its row has when the host is written), an Added entry for a new row, else none |
| Hosts.UnreportedIsTold | internal/engine/apply.go:249-328 | A row no reported host is on: the connector's live one is ended with exactly one removal, every other is left alone and nothing is filed about it |
| Strings.NormalizeIs | internal/engine/apply.go:359-375 | The alias normal form holds exactly the aliases left after trimming, each once, in increasing order |
| Strings.TrimIs | internal/engine/apply.go:359-375 | Trimming takes white space off both ends and nothing else |
| Services.AppliedLeaves | internal/engine/apply.go:383-483 | After a scan every reported service is on its key's row; one whose key is new is on a live namesake whose key is not reported, and on a new row only if reported services hold every such namesake; every other row is untouched or gone |
| Services.NewRowMeansNoneLeft | internal/engine/apply.go:410-455 | A service with a new key gets a new row only if each row it could have taken over went to another reported service with a new key and its name, stack and host |
| Services.RekeyKeepsRows | internal/engine/apply.go:383-483 | A service known by its key, or else by its only live namesake, keeps its row id under whatever key it is reported, and no row is added |
| Services.RekeyIsSilent | internal/engine/apply.go:431-453 | If besides no tracked column moved and no live service is missing, the pass files nothing |
| Services.DistinctKeysDistinctRows | internal/engine/apply.go:383-483 | Two reported keys never share a row, so replicas never collapse |
| Services.ServicesRescan | internal/engine/apply.go:383-483 | Seeing the same services again files nothing and keeps ids, re-keyed services included |
| Services.ReportedIsTold | internal/engine/apply.go:383-483 | Column by column: what a reported service's row holds, and that exactly one Modified entry is filed about a stored row if and only if its name, stack, image, tag, digest or state differs from the reported one, naming the columns that moved with both values, and the natural key on a re-key; an Added entry for a new row |
| Services.UnreportedIsTold | internal/engine/apply.go:800-834 | A row no reported service is on: the connector's live one is ended with exactly one removal, every other is left alone and nothing is filed about it |
| Services.ServicesTellExactly | internal/engine/apply.go:383-483 | The feed's last word about every service, and its date, is true after a scan if and only if no service is reported in state "gone", unless its row is gone already, since that very moment, with the same tracked columns |
| Services.GoneServiceIsMisreported | internal/engine/apply.go:464-474 | A live service reported in state "gone": the stored row is gone and the feed's last word about it is not a removal |
| Ports.AppliedLeaves | internal/engine/apply.go:512-639 | After a scan the connector's port rows are exactly the deduplicated snapshot ports, one row each, on the row with the port's identity when there was one; no other connector's port is touched |
| Ports.AppliedTies | internal/engine/apply.go:525-536 | Each port's key again matches its service's, ready for the next scan |
| Ports.PortKeepsRow | internal/engine/apply.go:525-569 | A port with the service row and tuple of a stored one keeps that row, whatever the service is called now |
| Ports.RekeyIsSilent | internal/engine/apply.go:561-568 | When the ports are the stored ones of the rows their services landed on, nothing is filed and no row id changes (what the services pass does is `Rekey.RekeyChangesNothing`) |
| Ports.ClaimIsIdentity | internal/engine/apply.go:555-571 | By key or by identity, a port whose row no other port has claimed claims the row with its identity |
| Ports.ClaimIsFree | internal/engine/apply.go:555-571 | No stored row is claimed twice: no earlier port of the scan has claimed the row with a port's identity |
| Ports.PortsRescan | internal/engine/apply.go:512-639 | Seeing the same ports again changes nothing at all |
| Ports.ReportedIsTold | internal/engine/apply.go:551-605 | Column by column: a reported port's row, its service and host links included, and that an entry on a stored row names what moved of published and source and nothing else; an Added entry for a new row |
| Ports.UnreportedIsTold | internal/engine/apply.go:607-633 | A stored port of the connector that is not reported is deleted with exactly one removal; nothing is filed about any other |
| Ports.DedupedKeepsFirst | internal/engine/apply.go:552-557 | Of several reported ports with one natural key exactly the first counts |
| Observed.AppliedLeaves | internal/engine/apply.go:641-798 | After a scan every reported route, certificate or domain is on its key's row, active and as reported; every other row is untouched or gone |
| Observed.ObservedRescan | internal/engine/apply.go:641-798 | Seeing the same again files nothing and changes no column but the time of writing |
| Observed.UnreportedIsTold | internal/engine/apply.go:800-834 | A row under no reported key: the connector's live one is ended with exactly one removal, every other is left alone and nothing is filed about it |
| Domain.RouteIsTold | internal/engine/apply.go:641-702 | Column by column: a reported route's row, ports out of range stored as none, and that an entry names exactly what moved of upstream, status and state |
| Domain.RouteLinkIs | internal/engine/apply.go:653-663 | The service a route is linked to is the row with the resolved connector and key, or the connector's own |
| Domain.CertIsTold | internal/engine/apply.go:704-748 | Column by column: a reported certificate, found by its key or else its endpoint, and that an entry names exactly what moved of expiry and state |
| Domain.DomainIsTold | internal/engine/apply.go:750-798 | Column by column: a reported domain, found by its key or else its name, and that an entry names exactly what moved of expiry and state |
| Store.MarkGoneTells | internal/engine/apply.go:800-834 | Marking rows gone keeps the feed lawful, with a removal as the last entry of exactly the gone rows |
| Store.FieldsDiff | internal/engine/apply.go:924-932 | The difference is empty exactly if every compared column is equal, and otherwise names the columns that are not, with both values |
| Strings.NormalizeTwice | internal/engine/apply.go:359-375 | The alias normal form is stable |
| Images.EveryRunIsTold | internal/engine/images.go:55-174 | Over any run of scans and purges each image row's notified digest is that of the last entry about its reference, and consecutive entries about it differ while the row lives |
| Images.LookingAgainIsSilent | internal/engine/images.go:49-141 | A second scan with the same answers files nothing, passing failures included |
| Images.ListedIsTold | internal/engine/images.go:55-141 | Column by column: what the first update about a reference leaves of its row, a passing failure keeping the last answer; an entry with the digest is filed if and only if a resolved digest differs from the one last reported and some service runs behind it |
| Images.UnlistedIsRetired | internal/engine/images.go:142-168 | A reference no update names: the connector's row is retired, nothing else changes and nothing is filed |
| Images.PurgedExactly | internal/engine/images.go:170-174 | A purge deletes exactly the rows retired before the cutoff |
| Images.ImageTable.ApplyImageUpdates | internal/engine/images.go:55-168 | The loop over the sorted updates, with deduplication and retirement, computes `Images.Applied` and counts what it files |
| Resolve.Resolve | internal/resolve/resolve.go:61-144 | The loops settle a route as the set-based three-stage rule `Judges` demands; written out: if the strongest evidence there is points at one service the status is "ok", the reference that service and the confidence "high" exactly for a network match with a known port, else the status is "broken", without reference or confidence; no other column changes |
| Resolve.OneVerdict | internal/resolve/resolve.go:61-144 | The facts allow one verdict only, so no reordering of hosts, services, networks or ports changes it |
| Resolve.NothingFallsThrough | internal/resolve/resolve.go:77-107 | A weaker kind of evidence decides only where the stronger kinds found no candidate at all |
| Resolve.AmbiguousIsBroken | internal/resolve/resolve.go:81-84 | Two services in scope on the strongest evidence break the route, whatever else is known |
| Resolve.HighMeansPort | internal/resolve/resolve.go:203-212 | "high" is given only with a port row of that very service and its IP or name in the proxy's scope |
| Resolve.OneAddressIsReached | internal/resolve/resolve.go:63-85 | The only service with the upstream's IP, if it may serve the port and the proxy can reach it, is the one decided on |
| Resolve.OneNameIsReached | internal/resolve/resolve.go:86-108 | Where no service has the IP, the only one that goes by the upstream's name or alias is the one decided on |
| Resolve.PublishedPortIsReached | internal/resolve/resolve.go:109-144 | Where no service has the IP or the name, the only service published on the port number is decided on, if the upstream is a name for the proxy's own machine, or a host's address or alias, directly or through a view |
| Resolve.DecidedHasEvidence | internal/resolve/resolve.go:61-144 | Nothing is decided on without the upstream's IP or name on a reachable network, or an answering port |
| Resolve.StoredPortSettlesAlike | internal/engine/apply.go:664-670 | A port out of range, stored as none, is settled the same as before it was stored |
| Resolve.Listens | internal/resolve/resolve.go:468-483 | Whether a service serves a port, and whether a known port row says so |
| Resolve.MatchingNetworks | internal/resolve/resolve.go:428-459 | Exactly the networks on which the service goes by the upstream's name |
| Resolve.UniqueCandidate | internal/resolve/resolve.go:176-188 | The one service all candidates are, if they are one |
| Resolve.ProxyNetworks | internal/resolve/resolve.go:637-662 | The sorted networks of the only service that may be the proxy |
| Links.LinkMachines | internal/resolve/resolve.go:308-364 | Indexes, claims and counts give exactly the links of the declarative rule `StandsFor` |
| Links.ViewsStandForMachines | internal/resolve/resolve.go:273-364 | A link always goes from a view to a machine that is no view |
| Links.OneViewPerFamily | internal/resolve/resolve.go:293-302 | Within one family a machine has at most one view |
| Links.LinksAreFixed | internal/resolve/resolve.go:308-364 | The rule fixes the links, whatever order the hosts come in |
| Links.SharedAddressLinks | internal/resolve/resolve.go:293-364 | A tailnet device or Proxmox guest at the address of one machine, alone at it in its family, stands for that machine |
| Links.MachineHostIds | internal/resolve/resolve.go:392-427 | Exactly the machines a host name refers to, by themselves or through a view standing for them |
| Pipeline.SecondScanIsSilent | internal/engine/runner.go:71-112 | Re-scanning an unchanged source files nothing: the verdicts before Apply are those the last scan stored, for every upstream port; a proxy source is only assumed to report and to have stored no hosts |
| Pipeline.RescanIsSilentAfterAnyRun | internal/engine/runner.go:71-112 | After any run of scans by any sources and of purges, the second of two equal scans of any source files nothing |
| Pipeline.ThirdScanIsSilent | internal/engine/runner.go:71-112 | From the third scan on nothing is filed, whatever the first one reported |
| Pipeline.RoutesOnlySourceStays | internal/engine/runner.go:221-250 | A proxy source, reporting no hosts, never moves its own proxy |
| Pipeline.RescanKeepsInventory | internal/resolve/resolve.go:525-578 | The second scan reads and leaves the same inventory |
| Pipeline.ScanSettles | internal/resolve/resolve.go:580-621 | A scan leaves every reported route active under its own proxy, with the verdict the new inventory gives it |
| Pipeline.ReconciledTells | internal/resolve/resolve.go:580-621 | After settling the stored routes, every active one says "ok", the row of the one service the strongest evidence points at and how sure that is, or "broken", no service and "none" |
| Pipeline.ScanTellsRoutes | internal/engine/runner.go:71-112 | The same of every active stored route, whoever reported it, after any scan that goes through |
| Pipeline.RouteNowIs | internal/resolve/resolve.go:587-606 | A stored route is judged by its own upstream, the stored host of its proxy, and the networks of the one service its proxy runs as |
| Pipeline.HostFactsAreStored | internal/resolve/resolve.go:525-578 | The inventory's hosts are the active rows, column by column |
| Pipeline.ServiceFactsAreStored | internal/resolve/resolve.go:525-578 | Its services are the live rows, with their host's reference and their networks |
| Pipeline.PortFactsAreStored | internal/resolve/resolve.go:525-578 | Its ports are the port rows, under the references of their service and host |
| Pipeline.ScanReplacesNetworks | internal/engine/apply.go:173-204 | After a scan each reported service's row has the networks it was reported with, and no other row's networks change |
| Pipeline.ReconcileTwice | internal/resolve/resolve.go:580-621 | Settling the stored routes a second time changes nothing |
| Runner.Runner.Scan | internal/engine/runner.go:42-113 | A scan of a source between `Enter` and `Leave` is refused and changes nothing; otherwise the world after is `Pipeline.ScanOnce`, for proxy sources and others, and the count is the entries filed |
| Runner.Runner.Enter | internal/engine/runner.go:43-50 | The gate lets a source in exactly if it is not in `running`, where it is afterwards |
| Scans.EveryInterleavingIsSafe | internal/engine/runner.go:42-113 | However the steps of scans, their failures and purges interleave, the store stays valid, no source is scanned by two callers at once, and a source is refused exactly while a scan of it is under way |
| Scans.OwnRowsStand | internal/engine/runner.go:42-113 | While a scan is under way no other scan touches its source's hosts, services, ports, certificates and domains |
| Scans.AloneIsScanOnce | internal/engine/runner.go:42-113 | A scan nobody interrupts does what `Pipeline.ScanOnce` says, also where Apply fails, and leaves the gate as it found it |
| Scans.ReconcileLeavesSettled | internal/engine/runner.go:108-112 | Right after the last step of any scan, whatever came in between, every stored route is as settling it now would leave it |
| Runner.Runner.ReconcileRoutes | internal/resolve/resolve.go:580-621 | The loop over active routes settles each against what is stored, and keeps the store valid |
| Runner.Runner.LoadInventory | internal/resolve/resolve.go:525-578 | Whatever order rows come in, the inventory holds exactly the stored facts, with distinct references |
| Runner.Runner.EnsureProxy | internal/engine/runner.go:221-250 | The proxy's host is the one machine its host name refers to, if there is one |
| Runner.Runner.ApplyNetworks | internal/engine/apply.go:173-204 | Each reported service's networks replace those of its row, and no other row's change |
| NginxParse.Parser.Next | internal/connectors/nginx/parse.go:100-219 | The flag-driven tokenizer reads exactly what the five-mode automaton `Lex` reads, and leaves the same rest and line |
| NginxParse.Parser.Block | internal/connectors/nginx/parse.go:57-95 | Reading a block is recursive descent over the automaton's tokens, errors and line numbers included |
| NginxParse.UnescapeLoop | internal/connectors/nginx/parse.go:223-249 | The byte loop is the escape function |
| NginxParse.ParseFile | internal/connectors/nginx/parse.go:47-50 | A file is parsed as `Parse` says |
| NginxGrammar.ParserMeetsGrammar | internal/connectors/nginx/parse.go:57-249 | The parser succeeds on exactly the texts of well-formed files within the limits, and returns their pruned forest with its lines |
| NginxGrammar.PrintedTreeParsesBack | internal/connectors/nginx/parse.go:57-249 | Printing a directive tree with every word quoted and parsing it gives the tree back, pruned |
| NginxGrammar.PrintedTreeSurvives | internal/connectors/nginx/parse.go:21-95 | What is left of each directive: the words after its name for the nine names the compiler reads, the body for the four blocks it enters |
| NginxGrammar.EscapesStandFor | internal/connectors/nginx/parse.go:223-249 | What each escape pair stands for; an unknown one stays a pair |
| NginxGrammar.EscapeUndone | internal/connectors/nginx/parse.go:223-249 | Unescaping undoes escaping of quotes and backslashes |
| NginxLoad.Loader.Expand | internal/connectors/nginx/load.go:351-411 | Expansion terminates for every include graph, succeeds if and only if the files splice within all limits of the scan, returns the splice, and leaves every cached file as it was although its nodes are shared |
| NginxLoad.Loader.Read | internal/connectors/nginx/load.go:298-349 | A file is parsed once per scan and counted once against the limits |
| NginxLoad.NoIncludeLeft | internal/connectors/nginx/load.go:351-411 | What goes through has no include left at any depth |
| NginxLoad.NothingToSplice | internal/connectors/nginx/load.go:351-411 | Directives without an include come out unchanged, each counted once, and no file is opened |
| NginxLoad.IncludeIsReplaced | internal/connectors/nginx/load.go:351-411 | An include of one file is replaced, in place, by that file's splice; it fails for a file that is open already, too deep or unreadable |
| NginxLoad.FitsJoin | internal/connectors/nginx/load.go:354-409 | Two parts fit the scan's limits exactly if the first fits and the second fits after it |
| NginxPaths.ResolvePath | internal/connectors/nginx/load.go:200-249 | The walk terminates for every link graph, reaches the path of the component-by-component reading, and no prefix of its result is a link |
| NginxPaths.WalkOn | internal/connectors/nginx/load.go:203-249 | Putting a link's target before the remaining components is following the link to its end first |
| NginxPaths.WithoutLinksWalkCleans | internal/connectors/nginx/load.go:200-249 | Where nothing is a link or missing, the walk is the lexical clean-up of the path |
| NginxPaths.LinkIsFollowed | internal/connectors/nginx/load.go:231-249 | A link is replaced by its target, at the mapped place if it is absolute |
| NginxPaths.FirstMappingDecides | internal/connectors/nginx/load.go:251-264 | The first mapping whose prefix leads the path decides where it goes |
| NginxPaths.Candidate | internal/connectors/nginx/load.go:179-198 | A path is admitted only as a regular file whose real place is inside the mounted roots |
| NginxKept.Kept | internal/connectors/nginx/extract.go:506-541 | The index of plain locations drops exactly the locations another one restates |
| NginxKept.DroppedMeans | internal/connectors/nginx/extract.go:504-541 | A location is dropped exactly for another one with its upstream that is plain, and is a prefix of it if it is plain itself |
| NginxKept.KeptCovers | internal/connectors/nginx/extract.go:508-541 | Every dropped location is covered by a kept one with its upstream, a plain one under a prefix of its path, if and only if no two prefix locations share path and upstream with nothing shorter above them |
| NginxKept.IdenticalPrefixesAreLost | internal/connectors/nginx/extract.go:508-541 | Two identical prefix locations: nothing is kept, and the upstream is lost |
| NginxRoutes.Routes | internal/connectors/nginx/extract.go:583-669 | Emitting, grouping, suffixing, sorting and the collision check compute `Outcome`; on success every member of every kept location has a route, under each name's domain unless that server has emitted the spot before, with that domain, the location's text, the member's host and port and the block's TLS, and there are no other routes |
| NginxRoutes.MovingBlocksKeepsRoutes | internal/connectors/nginx/extract.go:578-669 | If blocks sharing a name and a location differ in TLS or ports, every rearrangement of the server blocks gives the same keyed routes, or the same error |
| NginxRoutes.RoutesAreKeyed | internal/connectors/nginx/extract.go:578-669 | The routes come in strictly increasing order of key, as many as were emitted and no more than allowed |
| NginxRoutes.AloneKeepsPlainKey | internal/connectors/nginx/extract.go:578-582 | A route without twins is keyed by name and location alone |
| NginxRoutes.FirstTwinKeepsPlainKey | internal/connectors/nginx/extract.go:578-650 | Of several twins exactly the first in their order keeps the plain key |
| NginxRoutes.TlsRouteHasPlainKey | internal/connectors/nginx/extract.go:578-650 | If a name and location is served by a TLS block, the route with the plain key is a TLS one |
| NginxRoutes.OtherTwinsNamePorts | internal/connectors/nginx/extract.go:628-650 | Every other twin's key names its block's ports, and a number from 2 on where that is taken |
| NginxRoutes.PortSigTells | internal/connectors/nginx/extract.go:543-553 | Two blocks have the same port signature exactly if they have the same ports |
| NginxRoutes.NamesAreShown | internal/connectors/nginx/extract.go:554-566 | Which domain a server name is shown under |
| NginxRoutes.FreeKey | internal/connectors/nginx/extract.go:641-648 | The search for a free suffix terminates with one no other twin has |
| Sorting.SortedForgets | internal/connectors/nginx/extract.go:655-655 | Stable sorting forgets the order of its input when no two different elements are tied |
| Notify.DeliveredAtMostOnce | internal/notify/notify.go:371-393 | Under any interleaving of evaluators, crashes and lost records, a delivery is held by one evaluator at a time and succeeds at most once |
| Notify.OnlyFailuresAreRetried | internal/notify/notify.go:371-393 | Every claim after the first answers a recorded failure; a success, a crash or a lost record is never retried |
| Notify.MaskedIsNeither | internal/notify/notify.go:405-407 | A recorded failure reads neither as a success nor as pending |
| Notify.Deliveries.DeliverOnce | internal/notify/notify.go:371-393 | The loop over channels claims, sends and records as `Deliver` says, and stops at the first failure |
| Notify.DeliverIsSteps | internal/notify/notify.go:371-393 | What the loop does to the table is a run of the protocol's steps |
| Notify.DeliveredOnceIsSilent | internal/notify/notify.go:371-393 | After a delivery without failure the same event is never sent anywhere again |
| Notify.SentOnlyToOpen | internal/notify/notify.go:374-380 | A channel is sent to only if nothing or a failure is recorded for it, and once a call |
| Notify.DeliverIsTold | internal/notify/notify.go:371-393 | Channel by channel: one is sent to exactly if nothing or a failure is recorded for it and none before it failed in this call, and what is recorded is how that went; the call fails with the first failure, and no other record changes |
| Notify.FailureMayBeRetried | internal/notify/notify.go:374-380 | A recorded failure, like a delivery never tried, may be claimed by any idle evaluator |
| LoginLimiter.BucketIsLimited | internal/server/server.go:797-815 | With a clock that does not run backwards no bucket admits more than its share in any window (t - window, t] |
| LoginLimiter.TotalIsLimited | internal/server/server.go:797-828 | All admissions in any window stay within buckets times attempts |
| LoginLimiter.TableIsBounded | internal/server/server.go:797-828 | The table never grows past its bound, whatever the clock does |
| LoginLimiter.OwnBucketDecides | internal/server/server.go:797-815 | A client in the table, or with room for it there, is let through exactly if fewer than the allowed number of its own admissions lie in the window, whatever others did, and recorded under its own name; otherwise the common bucket decides |
| LoginLimiter.FewClientsNeverShare | internal/server/server.go:797-815 | With fewer clients than buckets no client is ever judged by another's attempts |
| LoginLimiter.SweepKeepsBusy | internal/server/server.go:817-828 | Cleaning, once per interval or when the clock went back, keeps exactly the buckets with an attempt in the window |
| LoginLimiter.Limiter.Allow | internal/server/server.go:797-815 | The call leaves the state, and gives the answer, of `Allowed` |
| LoginLimiter.ActiveAttempts | internal/server/server.go:830-838 | Filtering in place keeps exactly the attempts after the cutoff, in order |
| FeedOrder.Feed | internal/connectors/registry/registry.go:362-396 | Grouping, rotating and interleaving compute `Order` |
| FeedOrder.FeedPermutes | internal/connectors/registry/registry.go:362-396 | No tag is lost or looked up twice |
| FeedOrder.FeedIsFair | internal/connectors/registry/registry.go:358-361 | At any point no registry is more than one lookup ahead of another that still has tags |
| FeedOrder.EveryTagLeadsOnce | internal/connectors/registry/registry.go:358-379 | Over as many days as a registry has tags each of them leads its list exactly once, days before the epoch included |
| FeedOrder.OrderOf | internal/connectors/registry/registry.go:385-394 | A registry's share of the feed is its list, turned to the day |

## Left out

- SQL, transactions and migrations: tables are maps and an apply is all or nothing, as one mutex and one transaction make it.
- JSON, timestamps as text, change summaries, labels, notes, restart policies, first and last seen: columns the feed never compares; and what an addition, or a port's removal, carries as its diff (always the row's key).
- The certificate link of routes (`linkRouteCerts`): one column that no other part reads.
- A port's natural key is a tuple here. The string the source builds from it is only injective for well-behaved service keys.
- Further uniqueness the schema asks for (a certificate's endpoint, a domain's name) and what fails when a connector breaks it.
- Rows without a connector, and deleting a connector.
- `sameNetworks` compares networks without their order; the model replaces them whenever the lists differ, which stores the same facts.
- Applier.Applier.ApplyPorts: lists absent ports by row id where the source sorts them by key, because keys are tuples here; the result holds for every order.
- Links.MachineHostIds: gives the ids as a set where the source sorts them, because its caller only asks whether there is exactly one.
- Notify.Deliveries.DeliverOnce: how sending goes is a parameter; that other evaluators may run in between is `Notify.Event`'s matter.
- NginxLoad.Loader.Expand: says that expansion fails, not which of the error texts it fails with.
- NginxRoutes.Routes: says which kind of error it returns, not the file and line in it.
- NginxParse: a character stands for one byte of the file.
- NginxPaths: which files a glob matches, and the window between the walk and the open.
- LoginLimiter.ActiveAttempts: works on a copy of the bucket's attempts; that buckets keep their storage is not modelled.
- The extractor before `kept` (listen, server_name, proxy_pass, variable expansion) and the session state of the registry connector: long but local case distinctions.
- Connector records (disabled, unknown kinds), publishing progress events, timeouts and the scheduler.
- HTTP handlers, exports, rule editing, the user interface, and the connectors that talk to a network.
