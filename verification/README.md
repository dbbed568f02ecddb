# Vastora Agent: models and proofs

The Vastora Agent changes a host in small steps and must survive being cut off after any
of them. This project models its journaled protocols and its configuration rewriters in
Dafny and proves what they keep.

How the protocols are modelled:

- Every effect on the world outside the Agent's memory (a file, a database row, a kernel
  table, a container, a panel write) is one numbered call. An `Environment` decides how
  each call ends: done, failed, done with the reply lost, or never reached because the
  process died (`Prelude.dfy`).
- An operation is a method of a class whose fields are the durable and the volatile state.
  It keeps the class invariant on every exit, for every environment. A crash between two
  writes is the exit before the second one, so the invariant covers every reachable state.
- Where an operation promises something, its contract also gives the exact state after
  success and says that it succeeds when every call succeeds.
- A `Run` method drives arbitrary sequences of operations, crashes, reboots and background
  events and restates the invariant in plain terms.

| file | models |
|---|---|
| `CaddyModel`, `CaddySites`, `CaddyMeaning`, `CaddyTheorems`, `CaddyCompose` | folding websites into the gateway configuration, with a first-match request semantics |
| `WebsiteJournal` | the applying/recovering/applied transaction over the shared Caddy |
| `LandingLedger`, `LandingHost` | the native landing service: files, firewall tables, revisions |
| `QuotaLedger`, `SharedQuota` | the two-pass quota plan of a shared account |
| `ProxyLedger`, `LandingProxy` | gates, routes and monitors of the landing proxy |
| `HostUpdate` | the Agent's self-update: staging, recovery point, activation, cleanup |
| `ContainerReplacement` | candidate/rollback/cleanup renames under lost replies |
| `SubscriptionAuthority` | authoritative subscriptions over the native client list |
| `SharedOperations` | operations on a shared account, delivered at least once |
| `Enrollment`, `InstallResume` | enrollment with rollback, and the resumable installation |
| `TrafficCounters` | accumulation of counters that restart |
| `HostsSection`, `OpenRCSection` | the managed sections of `/etc/hosts` and `/etc/conf.d/tailscale` |

## What the proofs found

Each of these is a property one would expect of the code and that holds only under the
stated condition; the counterexample and the exact condition are proved.

- The `/etc/hosts` rewrite is idempotent if and only if no kept line ends in a carriage
  return (`HostsSection.Idempotent`, `HostsSection.StrayCarriageReturn`). Other files still
  settle, because every further rewrite that changes the file makes it shorter.
- A textual traffic value without a numeral is taken as a reading; the next true one then
  counts exactly the last reading again, so it is harmless exactly when nothing had been read
  (`TrafficCounters.TextWithoutNumeral`, `TrafficCounters.WrongReading`).
- A recorded update failure means that nothing was installed, over every run in which the
  helper is started as the Agent starts it. Started by hand on a staging directory whose
  clearing was interrupted, it can record a failure over an installed candidate
  (`HostUpdate.FailureAfterSuccess`): exactly when the recovery point is gone, Center is
  reached, the installed version cannot be inspected and the result is written
  (`HostUpdate.Host.Helper`). A half-finished cleanup alone is harmless, because the updated
  Agent stages requests for its own version only (`HostUpdate.HalfCleaned`).
- The installation phase machine accepts a move from pending to enrolled without a completed
  enrollment; a fresh operation moved like that can neither be rolled back nor be taken up
  again (`Enrollment.StuckAfterEarlyMove`, `Enrollment.Store.Rollback`,
  `Enrollment.Store.Begin`).
- The firewall policies of a landing host are compared byte for byte although the kernel
  table ignores the order of the sources (`LandingLedger.SameTableOtherBytes`). This is sound
  only because a revision is bound to one plan (`LandingLedger.CoherentTables`).
- A saved quota plan with finite totals, as in internal/agent/landing_quota_test.go:30, can
  succeed while the traffic row that enforces a decrease stays where it was: one that moves 80
  from one client to the other leaves 180 spendable where 100 are recorded
  (`SharedQuota.SpentTwice`, which starts from the pending plan). With rows that follow every
  write to their client or none, what is enforced afterwards respects the new limits exactly
  when, on entry, every row either follows and its client is not yet as targeted, or already
  fits (`SharedQuota.GrantedExactly`, `SharedQuota.Account.ApplyPlan`); rows that fit on entry
  are enough for any behaviour of the panel. The allocator of the repository plans unlimited
  totals only, and such a plan is always in force (`QuotaLedger.UnlimitedGranted`,
  `SharedQuota.Account.Sync`). As configured, the budget is never spendable twice
  (`SharedQuota.Run`).
- A native client can be confirmed as enabled while it stays disabled
  (`QuotaLedger.ConfirmedButDisabled`). A confirmed client is enabled as targeted exactly when
  the target is off, there is no traffic row, or row and settings agree
  (`QuotaLedger.MetExactly`).
- The landing proxy does not keep every route in force behind its gates: when the host
  restarts between the record of a replacement and the switch of the panel, the next delivery
  starts the container on the old route with only the new gates closed, and a peer that the
  new plan leaves out can be reached (`LandingProxy.ExposedByReplay`). A delivery or a disable
  stays fenced exactly when, on entry, the settings are not the superseded ones, or each gate
  of the superseded plan is closed, accepted or for a peer of the new plan
  (`LandingProxy.Runtime.ApplyProxy`).
- A boot can serve a landing policy that was removed: the removal is cut off after its
  tombstone and a newer apply after its fence (`LandingHost.ServesRemovedPolicy`). A boot
  accepts such a configuration exactly when a policy is still recorded and the removal had not
  reached any file (`LandingLedger.InterruptedRemovalReturns`).
- A created subscription may bring a token that is already taken
  (`SubscriptionAuthority.CreationMayCollide`). A projection keeps tokens unique exactly when
  no listed client that is new to the journal carries a token of the journal
  (`SubscriptionAuthority.TokensStayUnique`, `SubscriptionAuthority.Controller.Project`).
- A website update that fails puts the former site back at once, exactly when its first journal
  write did not lose its reply or it asked for nothing new
  (`WebsiteJournal.Journal.UpdateSite`); otherwise updates are refused until the next restore
  (`WebsiteJournal.LostAnnouncement`).

## Model

| member | source | states |
|---|---|---|
| CaddyModel.ServePrefix | internal/agent/caddy_sites.go:226-228 | routes placed before others answer first and fall through to them |
| CaddySites.ApplyAllAppend | internal/agent/caddy_sites.go:123-207 | folding edits in two parts equals folding them at once, failures included |
| CaddyMeaning.ShapeHolds | internal/agent/caddy_sites.go:136-246 | closed form of any accepted fold: which server owns each listener, its protocol, the added routes in front of the rewritten ones |
| CaddyMeaning.FrontServes | internal/agent/caddy_sites.go:79-85 | what the routes of any number of websites merged into one listener answer to any request |
| CaddyTheorems.RewrittenAgrees | internal/agent/caddy_sites.go:136-169 | replacing proxies to a website's own upstream changes no answer except that website's document |
| CaddyTheorems.CompositionMeaning | internal/agent/caddy_sites.go:114-246 | for every listener and every request the answer is: the asked website's document, a health probe, or what the gateway's own routes answer with that website's proxy served directly |
| CaddyTheorems.OwnProxyServesDocument | internal/agent/caddy_sites.go:162-167 | a proxy to the website's own upstream becomes its document, for reads of the root only |
| CaddyTheorems.ServesDirectly | internal/agent/caddy_sites.go:136-169 | for any routes and any request, serving a website directly answers as if its document stood in the place of every proxy to it, and every other route as before |
| CaddyTheorems.GatewayUndisturbed | internal/agent/caddy_sites.go:136-169 | requests for other hosts get the same handlers and protocol as before, except health probes of a shared plain listener |
| CaddyTheorems.WideServersOnlyRewritten | internal/agent/caddy_sites.go:210-221 | a gateway server with no address or with several is joined by no website; only its proxies to websites are served directly |
| CaddyTheorems.SystemHostsUndisturbed | internal/agent/caddy_sites.go:131-135 | hosts of system routes keep their answers |
| CaddyTheorems.EverySiteServed | internal/agent/caddy_sites.go:170-202 | the root of every accepted website yields its document on each of its listeners |
| CaddyTheorems.ServedOnHost | internal/agent/caddy_sites.go:170-202 | on a host the root of every accepted website yields its page, plain at its own address and port, over TLS at the loopback address and at its public address, all read off its fields |
| CaddyTheorems.ServedInContainer | internal/agent/caddy_sites.go:170-202 | in a container the same on every address, with 443 for the public one |
| CaddyTheorems.ListensOnlyAt | internal/agent/caddy_sites.go:170-246 | every server of the result is one of the gateway with its addresses and protocol, or has one address that a website asks for by its fields |
| CaddyTheorems.NothingElseServed | internal/agent/caddy_sites.go:79-85 | on a listener that only websites use, anything but a read of a root or of the health path is 404 |
| CaddyTheorems.ProbesAnswered | internal/agent/caddy_sites.go:79-85 | reads of the health path on the plain listener of a website are answered 204 |
| CaddyTheorems.WebsiteListenersEndInNotFound | internal/agent/caddy_sites.go:238-246 | on listeners only websites use, everything else is 404 and that route stays last |
| CaddyTheorems.SiteListeners | internal/agent/caddy_sites.go:222-225 | no listener mixes plain and TLS |
| CaddyTheorems.ComposesExactlyWhen | internal/agent/caddy_sites.go:123-135 | for every base configuration, servers with several addresses included, composition succeeds if and only if the fields of every website are in range, identities and hostnames are distinct and no system host, and no listener changes protocol |
| CaddyCompose.OrderedUnique | internal/agent/caddy_sites.go:120-121 | websites with distinct identities have one sorted order |
| CaddyCompose.InputOrderIrrelevant | internal/agent/caddy_sites.go:120-121 | the order in which websites are read does not change the result, refusals included |
| CaddyCompose.ServeDirectly | internal/agent/caddy_sites.go:138-169 | the nested loops over servers and routes equal the rewrite of every server |
| CaddyCompose.MergeSiteServer | internal/agent/caddy_sites.go:211-246 | joins the one server with this address or creates one; fails on a protocol clash; independent of the iteration order |
| CaddyCompose.AddSite | internal/agent/caddy_sites.go:136-202 | one website's edits in the source's order, failures included |
| CaddyCompose.Admit | internal/agent/caddy_sites.go:124-135 | validity, unseen identity and hostname, no system route |
| CaddyCompose.Compose | internal/agent/caddy_sites.go:114-209 | the whole loop equals the fold whose meaning, down to the addresses in the fields of the websites, the theorems give |
| WebsiteJournal.AllQuiet | internal/agent/caddy_site_store.go:164-176 | with every row applied the runtime serves exactly the recorded sites |
| WebsiteJournal.Journal.Reload | internal/agent/caddy_sites.go:250-297 | a load serves every recorded site or leaves the runtime alone |
| WebsiteJournal.Journal.UpdateSite | internal/agent/caddy_site_store.go:180-236 | refused exactly on a foreign or invalid site or an unfinished update; moves this application's committed site from old to new or not at all, leaves all other rows; success means that the announcement was recorded; a reported error with working recovery leaves rows and runtime as they were exactly when the announcement did not lose its reply or nothing new was asked |
| WebsiteJournal.LostAnnouncement | internal/agent/caddy_site_store.go:210-213 | a lost reply to the announcement leaves the update unfinished, and further updates are refused |
| WebsiteJournal.Journal.Transact | internal/agent/caddy_site_store.go:210-236 | the transaction keeps the invariant at every crash point |
| WebsiteJournal.Journal.Commit | internal/agent/caddy_site_store.go:214-221 | load, verify and record, in this order: success means that the load was done; the row is the announced or the applied one |
| WebsiteJournal.Journal.Undo | internal/agent/caddy_site_store.go:225-235 | puts the former site back and leaves other rows |
| WebsiteJournal.Journal.Restore | internal/agent/caddy_site_store.go:238-277 | changes no committed site; success leaves every row applied with its committed site and the runtime equal to it |
| WebsiteJournal.Journal.Mark | internal/agent/caddy_site_store.go:255-264 | turns interrupted rows back, each of them or none at a crash |
| WebsiteJournal.Journal.Finish | internal/agent/caddy_site_store.go:268-275 | records loaded rows as applied without changing a site |
| WebsiteJournal.Run | internal/agent/caddy_site_store.go:178-277 | over every run an application is committed to its first site or to one submitted for it |
| LandingLedger.CoherentTables | internal/landing/server_firewall.go:52-60 | for policies of one plan the byte comparison decides whether the kernel tables are the same |
| LandingLedger.SameTableOtherBytes | internal/agent/host_application_landing.go:450-456 | in general it does not |
| LandingLedger.PolicyAuthorizes | internal/agent/host_application_landing.go:430-436 | a policy names exactly the plan's sources in order and restricts exactly the marked ones |
| LandingLedger.TableEnforces | internal/landing/server_firewall.go:92-103 | the kernel table of a policy names, field by field, the address, exit, sources and restrictions of the plan and the interface and account of the host |
| LandingLedger.OwnWorkIsAccepted | internal/agent/host_application_landing.go:136-151 | the file check accepts a host of the ledger if and only if the managed paths were free at first |
| LandingLedger.PartialWorkNeverBlocks | internal/agent/host_application_landing.go:345-358 | whatever was left unfinished, a newer plan or the same one is admitted, and nothing else |
| LandingLedger.RemovalIsFinal | internal/agent/host_application_landing.go:259-264 | everything recorded after a finished removal is newer than the removed revision |
| LandingLedger.InterruptedRemovalReturns | internal/agent/host_application_landing.go:566-590 | after a newer fence the boot prerequisite accepts an interrupted removal exactly when a policy is recorded and no file is gone |
| LandingLedger.FenceKeeps | internal/agent/host_application_landing.go:382-385 | fencing a revision keeps the ledger |
| LandingLedger.IntentKeeps | internal/agent/host_application_landing.go:465-479 | recording the intent disowns no file on disk and loses no table |
| LandingLedger.TombstoneKeeps | internal/agent/host_application_landing.go:273-278 | recording the removal keeps the ledger |
| LandingHost.Host.VerifyFiles | internal/agent/host_application_landing.go:136-151 | true exactly when every managed file has a recorded or pending digest |
| LandingHost.Host.Enter | internal/agent/host_application_landing.go:327-385 | refuses exactly when the journal does not admit the plan, otherwise fences the revision |
| LandingHost.Host.Enroll | internal/agent/host_application_landing.go:386-406 | one usable account identity for the life of the journal: not root, not the anonymous one |
| LandingHost.Host.Halt | internal/agent/host_application_landing.go:407-443 | an exit other than the one in service stops the service, pending restarts included, before it is validated; the same exit does not; success means stopped |
| LandingHost.Host.Settle | internal/agent/host_application_landing.go:446-464 | finishes an interrupted change of tables; an incomplete ownership record cannot occur |
| LandingHost.Host.AdoptWritten | internal/agent/host_application_landing.go:465-470 | keeps the digests of files an interrupted apply did write |
| LandingHost.Host.Exchange | internal/agent/host_application_landing.go:480-495 | leaves exactly the new table, also when old and new policy are the same |
| LandingHost.Host.Cutover | internal/agent/host_application_landing.go:465-495 | intent before tables, both recorded until the old one is gone |
| LandingHost.Host.WriteFiles | internal/agent/host_application_landing.go:496-507 | every file on disk is recorded or pending after each write |
| LandingHost.Host.Launch | internal/agent/host_application_landing.go:508-525 | starts only behind the recorded table and commits the files |
| LandingHost.Host.Deploy | internal/agent/host_application_landing.go:383-525 | everything after admission, invariant at each of its calls |
| LandingHost.Host.ApplyLanding | internal/agent/host_application_landing.go:313-525 | refused iff not admitted, changing nothing; success leaves exactly one table, which enforces the plan field by field, with its files, journal and a running service; when every call succeeds it succeeds iff the account is usable |
| LandingHost.Host.RemovePolicies | internal/agent/host_application_landing.go:291-297 | removes every recorded table |
| LandingHost.Host.RemoveFiles | internal/agent/host_application_landing.go:298-302 | removes every managed file, each state owned |
| LandingHost.Host.Bury | internal/agent/host_application_landing.go:273-290 | tombstone first, then service and firewall unit are disabled; succeeds iff each of these does |
| LandingHost.Host.Dismantle | internal/agent/host_application_landing.go:273-309 | stopped before anything is recorded, nothing taken down before the tombstone; cut off after the tombstone everything is still there |
| LandingHost.Host.RemoveLanding | internal/agent/host_application_landing.go:248-309 | refused iff identity, revision or files do not match; success leaves a blank tombstone, no table, no file |
| LandingHost.Host.RestoreFirewall | internal/agent/host_application_landing.go:566-590 | refused iff the boot configuration is incomplete; installs exactly the recorded policy |
| LandingHost.Host.Reboot | internal/landing/server.go:122-126 | after a boot the service runs only behind the recorded table, and does run when the configuration is complete |
| LandingHost.Host.Revive | internal/landing/server.go:122-137 | a daemon that the init system starts again after a failure, without its prerequisite, finds the table of the recorded policy in place |
| LandingHost.Run | internal/agent/host_application_landing.go:248-590 | over every run of applies, removals, boots, failures of the daemon and restarts by the init system: files owned, foreign files untouched, tables recorded, service behind its table, revisions monotone, removed revisions stay removed |
| LandingHost.ServesRemovedPolicy | internal/agent/host_application_landing.go:273-385 | the boot that serves a removed policy after an interrupted removal and an interrupted newer apply |
| QuotaLedger.MetExactly | internal/agent/landing_quota.go:230-279 | a confirmed client is enabled as targeted if and only if the target is off, there is no traffic row, or row and settings agree |
| QuotaLedger.ConfirmedButDisabled | internal/agent/landing_quota.go:273-279 | the client that is confirmed and stays disabled |
| QuotaLedger.RowSafeExactly | internal/agent/landing_quota.go:182-184 | what is enforced respects every limit that the settings respect, if and only if the row allows no more than they do |
| QuotaLedger.NeverDoubleSpendable | internal/agent/landing_quota.go:129-131 | with finite totals, what the traffic rows allow sums to at most the recorded totals or at most the enabled targets, wherever the ledger holds of the rows |
| QuotaLedger.EnforcedAsConfigured | internal/agent/landing_quota.go:182-199 | the ledger of the settings is the ledger of the rows wherever no row in force allows more than its settings |
| QuotaLedger.SwitchOver | internal/agent/landing_quota.go:129-131 | once all decreases are in force nobody exceeds the new limits |
| QuotaLedger.ReleasedExactly | internal/agent/landing_quota.go:129-222 | after the pass that confirms the decreases, what is enforced respects the new limits if and only if the rows of the decreased clients fit them |
| QuotaLedger.StepKeeps | internal/agent/landing_quota.go:131-222 | every single client write keeps the ledger of the settings, blocked or not |
| QuotaLedger.PlanRecorded | internal/agent/landing_quota.go:224-227 | a fully confirmed plan may become the recorded one; it is in force iff every row fits |
| QuotaLedger.UnlimitedGranted | internal/landing/quota.go:46-50 | with unlimited totals, which is all the allocator plans, a plan carried out is in force whatever the rows say |
| SharedQuota.Account.ReconcileEnabled | internal/agent/landing_quota.go:281-307 | disable then enable configures no more than the target at each call; with a row that follows nothing more is enforced either |
| SharedQuota.Account.Rewrite | internal/agent/landing_quota.go:168-200 | disabled checkpoint, then reconciliation or complete update; a row that follows is repaired, and one that fitted still fits |
| SharedQuota.Account.Confirm | internal/agent/landing_quota.go:201-221 | success only for a client read back as targeted |
| SharedQuota.Account.Bring | internal/agent/landing_quota.go:145-221 | changes one client, only a recognized one, only to what the target grants; a confirmed client is not written |
| SharedQuota.GrantedExactly | internal/agent/landing_quota.go:156-222 | what a carried out target enforces, by the client before: the new limit iff its row follows and the client was not as targeted, or the row fitted already |
| SharedQuota.Account.Previous | internal/agent/landing_quota.go:119-122 | the recorded limit of each identity |
| SharedQuota.Account.Pass | internal/agent/landing_quota.go:131-222 | one pass confirms every target of its kind, each of them named, and keeps the invariant |
| SharedQuota.Account.ApplyPlan | internal/agent/landing_quota.go:113-228 | success records the targets with every client confirmed, a blocked account fully disabled; the new limits are then enforced iff, on entry, every row follows and is about to be rewritten or fits; a client changed outside the plan is not written and the plan does not succeed |
| SharedQuota.OutsideStays | internal/agent/landing_quota.go:149-154 | a client whose total is neither the recorded nor the targeted one stays as it is, and the targets are not met |
| SharedQuota.Account.Join | internal/agent/landing_quota.go:41-56 | new identities are recorded as they are on the panel |
| SharedQuota.Account.Sync | internal/agent/landing_quota.go:15-91 | finishes a pending plan before saving and applying a new one; with unlimited totals the new plan is in force |
| SharedQuota.Account.Renew | internal/agent/landing_quota.go:79-91 | a plan is saved over the identities found before it is carried out |
| SharedQuota.Account.Block | internal/agent/landing_quota.go:317-340 | only ever disables clients |
| SharedQuota.Run | internal/agent/landing_quota.go:113-340 | over every run of plans, crashes, replays and blocks: as configured the budget is never spendable twice; as enforced neither, whenever no row allows more than its settings, which following rows keep |
| SharedQuota.SpentTwice | internal/agent/landing_quota.go:230-271 | the saved plan that succeeds with 180 spendable where 100 are recorded |
| ProxyLedger.GatesApart | internal/agent/landing_proxy.go:668-682 | gates of different revisions are disjoint |
| ProxyLedger.RouteRoundTrip | internal/landing/routes.go:170-206 | a change can be made, repeated and taken back; it conflicts exactly with unknown settings |
| ProxyLedger.ReplacementKeeps | internal/agent/landing_proxy.go:420-432 | replacing a route keeps predecessor and original settings accounted for |
| ProxyLedger.LeavingKeeps | internal/agent/landing_proxy.go:500-503 | starting a disable keeps the owner of the route |
| ProxyLedger.FencedExactly | internal/landing/bridge_gate.go:96-106 | with the owner's gates closed, a running route is fenced by peer and bridge if and only if each gate of a superseded route still in the settings is closed, accepted or for a peer of the owner |
| ProxyLedger.ClosingKeeps | internal/landing/bridge_gate.go:96-106 | closing gates of the owner opens nothing, and shelters exactly the peers it was counted on for |
| LandingProxy.Runtime.Install | internal/agent/landing_proxy.go:457-461 | a gate is installed only if the saved checkpoint accounts for it |
| LandingProxy.Runtime.Remove | internal/agent/landing_proxy.go:573-582 | a gate is removed only where the original or the new route is in force and does not rely on it |
| LandingProxy.Runtime.CloseOwner | internal/agent/landing_proxy.go:385-394 | closes every gate of the plan that owns the route; a superseded route is sheltered exactly as before, and what was fenced stays fenced |
| LandingProxy.Runtime.Launch | internal/agent/landing_proxy.go:462-472 | a container started on the settings as they are is fenced if and only if it was sheltered before |
| LandingProxy.Runtime.ApplyRoute | internal/agent/landing_proxy.go:473-475 | never conflicts with the Agent's own unfinished work |
| LandingProxy.Runtime.Retire | internal/agent/landing_proxy.go:565-584 | removes exactly the predecessor's gates |
| LandingProxy.Runtime.Cut | internal/agent/landing_proxy.go:457-478 | gates before restart policy before container before route; safe at every exit if safe on entry, and stopped after the start of the container fenced iff sheltered on entry |
| LandingProxy.Runtime.Settle | internal/agent/landing_proxy.go:479-491 | the monitor starts only after the applied route is saved |
| LandingProxy.Runtime.Record | internal/agent/landing_proxy.go:407-456 | the checkpoint keeps the original settings and restart policy through replacements and is sheltered exactly as before |
| LandingProxy.Runtime.Enable | internal/agent/landing_proxy.go:379-492 | success leaves exactly the new gates, the new route and its monitor |
| LandingProxy.Runtime.Disable | internal/agent/landing_proxy.go:496-561 | success leaves no gate, no route checkpoint, the original settings and restart policy |
| LandingProxy.Runtime.Leave | internal/agent/landing_proxy.go:500-533 | the owner's gates are closed before the disable is recorded |
| LandingProxy.Runtime.GiveBack | internal/agent/landing_proxy.go:534-551 | original settings behind closed gates, then the restart policy; safe at every exit if safe on entry, and stopped after the start of the container fenced iff sheltered on entry |
| LandingProxy.Runtime.OpenUp | internal/agent/landing_proxy.go:552-560 | gates go before the checkpoint |
| LandingProxy.Runtime.ApplyProxy | internal/agent/landing_proxy.go:330-378 | refused iff stale, changed or unfinished, changing nothing; otherwise the invariant at every call; a first enable records the settings and restart policy it found, a disable gives exactly these back; sheltered and fenced at every exit if so on entry, and stopped after the start of the container fenced iff sheltered on entry |
| LandingProxy.RoundTrip | internal/agent/landing_proxy.go:379-561 | an enable, replacements and crashes, then a disable: settings and restart policy are those from before the enable |
| LandingProxy.Runtime.Resume | internal/agent/landing_proxy.go:128-206 | closes every gate before watching; watches only an applied, saved route |
| LandingProxy.Runtime.Watch | internal/landing/monitor.go:60-102 | a monitor opens only its own gates |
| LandingProxy.Runtime.Reboot | internal/agent/landing_proxy.go:462-464 | after a boot no managed route is served until its gates are back; it leaves the proxy sheltered iff no replacement that leaves out a peer was midway |
| LandingProxy.Run | internal/agent/landing_proxy.go:128-584 | over every run: gates accounted for, monitors only for applied saved routes, revisions monotone, the settings and restart policy to give back never change; every route in force is fenced unless exposed, which is exactly a restart midway through a replacement that leaves out a peer, with no successful apply since |
| LandingProxy.ExposedByReplay | internal/agent/landing_proxy.go:385-396 | the replay after a restart that starts the container on the old route with an open gate to a peer the new plan lacks |
| HostUpdate.Host.ClearStaging | cmd/vastora/agent_update_staging.go:65-96 | refuses when any recovery directory exists; removes the operation last |
| HostUpdate.Host.PrepareDirectory | cmd/vastora/agent_update_staging.go:17-63 | takes over only an obsolete execution with the source still installed; never touches a recovery point |
| HostUpdate.Host.Persist | cmd/vastora/agent_update_host.go:116-180 | an operation is named only after foreign results are gone; redelivery changes nothing but the unit |
| HostUpdate.Host.Schedule | cmd/vastora/agent_update_host.go:74-114 | stages exactly this request, for the version that runs, and starts the helper, only for a request that names all that identifies an update; an operation staged for another version under the same execution is refused |
| HostUpdate.Host.PublishRecovery | cmd/vastora/agent_update_recovery.go:62-126 | publishes a verified copy of the current database or nothing; an error, unlike a crash, leaves no partial copy |
| HostUpdate.Host.Activate | cmd/vastora/agent_update_host.go:325-391 | a second activation never installs; an install replaces the source by the target once; a plain failure happens exactly before anything is backed up and leaves the executable |
| HostUpdate.Host.StopAndBackUp | cmd/vastora/agent_update_host.go:353-364 | success means stopped and a recovery point of this operation |
| HostUpdate.Host.InstallAndStart | cmd/vastora/agent_update_host.go:365-390 | from here on no failure is terminal; the recovery point holds the database installed over |
| HostUpdate.BecomesStable | cmd/vastora/agent_update_host.go:393-412 | true exactly when three of ten observations in a row are active |
| HostUpdate.Host.Helper | cmd/vastora/agent_update_host.go:199-289 | at most one activation per staging; an existing result is only reported; a success is completed only after it was observed; a failure is recorded iff the activation ended before the backup, over an installed candidate iff its recovery point is gone and its version cannot be inspected |
| HostUpdate.Host.Decide | cmd/vastora/agent_update_host.go:220-257 | a recorded success means that the candidate runs and that its recovery point is there |
| HostUpdate.Host.Complete | cmd/vastora/agent_update_host.go:258-288 | marked completed only after Center acknowledged, a success only if it was observed within thirty tries |
| HostUpdate.Host.Cleanup | cmd/vastora/agent_update_host.go:565-622 | acts only on a completed update and removes only its own recovery point |
| HostUpdate.Host.RemoveStaging | cmd/vastora/agent_update_host.go:611-622 | exactly what removals that do not all succeed leave behind |
| HostUpdate.FailureAfterSuccess | cmd/vastora/agent_update_staging.go:65-96 | the run with a helper started by hand that records a failure although the candidate is installed |
| HostUpdate.HalfCleaned | cmd/vastora/agent_update_host.go:611-622 | what a cleanup leaves that cannot remove operation and executable is taken up neither by the helper nor by the updated Agent |
| HostUpdate.Run | cmd/vastora/agent_update_host.go:116-622 | over every run: at most one install per staged operation; from then until its cleanup a recovery point with the database it was installed over; a recorded failure means no install unless the helper was started by hand after a cleanup; results and markers belong to their operation |
| ContainerReplacement.Predecessor | internal/agent/docker_executor_xray_worker.go:136-154 | finds a container of the chain exactly when there is one |
| ContainerReplacement.RolesAreProper | internal/agent/docker_executor_xray_worker.go:31-38 | the names of the three replacements are as the protocol needs them |
| ContainerReplacement.Engine.AnyLeftover | internal/agent/docker_executor_xray_worker.go:195-207 | true exactly when a transitional name exists |
| ContainerReplacement.Engine.FindPredecessor | internal/agent/docker_executor_3xui_replace.go:54-60 | the first existing name of the chain |
| ContainerReplacement.Engine.TakeDown | internal/agent/docker_executor_3xui_replace.go:94-127 | every state on the way to the parked predecessor |
| ContainerReplacement.Engine.Try | internal/agent/docker_executor_3xui_replace.go:128-141 | the candidate starts only while nothing else of the family runs |
| ContainerReplacement.Engine.Promote | internal/agent/docker_executor_3xui_replace.go:142-147 | the candidate gets the name before the predecessor goes |
| ContainerReplacement.Engine.Discard | internal/agent/docker_executor_3xui_replace.go:148-156 | the predecessor is removed last |
| ContainerReplacement.Engine.Exchange | internal/agent/docker_executor_xray_worker.go:252-320 | an interrupted exchange is committed or blocks the next attempt |
| ContainerReplacement.Engine.Replace | internal/agent/docker_executor_3xui_replace.go:40-157 | refused iff a leftover exists; afterwards unchanged, committed or blocking; only the predecessor may be gone, and only after the candidate holds the name and passed validation and verification |
| ContainerReplacement.Run | internal/agent/docker_executor_xray_worker.go:191-321 | over every run at most one container of the family runs, and a leftover freezes the rest |
| SubscriptionAuthority.CompareCredentials | internal/agent/landing_client_lifecycle.go:332-358 | true exactly when every link handed out keeps its credential |
| SubscriptionAuthority.CommandTakesPlan | internal/agent/landing_client_lifecycle.go:244-294 | what each command takes from the listing: the plan, the switch or only the use; without leave to change routes no link handed out is lost |
| SubscriptionAuthority.ExamineExactly | internal/agent/landing_client_lifecycle.go:233-296 | a listed client is rejected exactly when it lacks an identity, a token or readable links, has the address of another identity, is new or renamed without a command or an import, brings another token, or loses the credential of a link without leave to change routes |
| SubscriptionAuthority.OneChanges | internal/agent/landing_client_lifecycle.go:176-198 | a command changes at most one subscription beyond its use and adds at most one |
| SubscriptionAuthority.BackgroundFrame | internal/agent/landing_client_lifecycle.go:280-282 | without a command only the use may change |
| SubscriptionAuthority.StepKeeps | internal/agent/landing_client_lifecycle.go:233-296 | each listed client keeps identities, tokens and unique addresses |
| SubscriptionAuthority.DeletionFrame | internal/agent/landing_client_lifecycle.go:317-321 | only addressed subscriptions are deleted |
| SubscriptionAuthority.TokensStayUnique | internal/agent/landing_controller_state.go:114-123 | tokens stay unique if and only if no listed client that is new to the journal carries a token of the journal |
| SubscriptionAuthority.CreationMayCollide | internal/agent/landing_client_lifecycle.go:180-182 | a created client with a taken token is accepted |
| SubscriptionAuthority.Controller.Index | internal/agent/landing_client_lifecycle.go:223-226 | identities by address, both ways |
| SubscriptionAuthority.Controller.Scan | internal/agent/landing_client_lifecycle.go:227-316 | the loop over the listing works on a copy and keeps the frame |
| SubscriptionAuthority.Controller.Prune | internal/agent/landing_client_lifecycle.go:317-321 | deletes exactly the addressed subscriptions that the listing no longer shows |
| SubscriptionAuthority.Controller.Project | internal/agent/landing_client_lifecycle.go:203-330 | refused iff some listed client is not acceptable; tokens of existing identities never change and stay unique iff the listing brings no taken one for a new client; without import at most one subscription changes beyond its use; every listed client is in the journal as its command says; a subscription goes only when addressed by a deletion and no longer listed; a refusal changes nothing |
| SubscriptionAuthority.Controller.Refresh | internal/agent/landing_client_lifecycle.go:470-490 | a background refresh adds and deletes nothing and never imports |
| SubscriptionAuthority.Run | internal/agent/landing_client_lifecycle.go:161-490 | over every run a token never changes while its subscription exists; a subscription ends only by a deletion of the address it has at that moment, followed through all renames, once the listing no longer shows it |
| SharedOperations.OnceUntilAnother | internal/agent/landing_client_lifecycle.go:42-51 | two effects of one key have the completion of another key between them |
| SharedOperations.ResetClears | internal/landing/quota.go:65-71 | a reset leaves no use and every observation |
| SharedOperations.RenewalReachesNow | internal/agent/landing_quota.go:75-79 | a renewed period is whole periods later, over after now and within a period from now |
| SharedOperations.SynchronizedKeeps | internal/agent/landing_quota.go:36-80 | observing, joining and renewing keep every member counting from the last reset, or from zero if it joined since |
| SharedOperations.SaneExactly | internal/landing/quota.go:53-63 | the check passes iff every member has a counter not below what was seen of it and no new identity has a negative one |
| SharedOperations.SynchronizedCatches | internal/landing/quota.go:53-63 | afterwards every member stands at the counter found for it, every identity found is a member, and the use has grown by exactly what was newly seen |
| SharedOperations.EffectKeeps | internal/agent/landing_client_lifecycle.go:60-73 | an operation moves the baselines exactly when it is a reset |
| SharedOperations.Journal.Synchronize | internal/agent/landing_quota.go:36-91 | succeeds iff every counter is there and none has fallen, otherwise blocks the account and leaves its members; success stands every member at its counter and adds exactly the new traffic; begins a period anew iff it is over, and the new one is not |
| SharedOperations.Journal.Undertake | internal/agent/landing_client_lifecycle.go:52-82 | effect and pending operation are saved together, with the reset if it is one, and the account then shows what was asked |
| SharedOperations.Journal.Finish | internal/agent/landing_client_lifecycle.go:83-158 | finishing repeats no effect and resets nothing but a period that is over |
| SharedOperations.Journal.Deliver | internal/agent/landing_client_lifecycle.go:22-159 | a finished key is acknowledged without effect, other content is refused while one is pending, a replay only completes and resets nothing |
| SharedOperations.Run | internal/agent/landing_client_lifecycle.go:19-159 | over every delivery history the plan is the replay of the logged effects, each once until another operation completes; every member counts from the last logged reset, and the resets by operations are exactly the logged ones |
| Enrollment.Store.Begin | internal/agent/enrollment_operation.go:33-132 | refused iff options, token or enrollment do not fit or the stored operation names no Agent; repeating it changes nothing |
| Enrollment.Store.CompleteEnrollment | internal/agent/enrollment_operation.go:154-214 | refused iff the response is incomplete, the connection does not fit the operation or the operation moved on; connection and phase change together; the purpose of a node never changes |
| Enrollment.Store.Advance | internal/agent/enrollment_operation.go:235-247 | exactly one phase forward from the expected one |
| Enrollment.Store.CompleteInstall | internal/agent/enrollment_operation.go:257-266 | only a healthy operation is completed |
| Enrollment.Store.Rollback | internal/agent/enrollment_operation.go:272-322 | refused iff the snapshot is incomplete or a fresh operation has no agent; otherwise the connection is as it was at the begin |
| Enrollment.RollbackIsInverse | internal/agent/enrollment_operation.go:268-322 | whatever happened in between, rollback restores the connection, purpose included, and leaves no operation |
| Enrollment.StuckAfterEarlyMove | internal/agent/enrollment_operation.go:235-238 | the early move that can neither be rolled back nor taken up again |
| InstallResume.ProgressInOrder | cmd/vastora/agent_cmd.go:1009-1087 | progress means the host effects occur in their order |
| InstallResume.Installer.Turn | cmd/vastora/agent_cmd.go:1022-1081 | one effect, then one phase; only writing the unit makes it ours |
| InstallResume.Installer.Resume | cmd/vastora/agent_cmd.go:1000-1092 | terminates from any phase, phases only grow, completion only after all five effects in order, heartbeat included |
| TrafficCounters.ParseInt | internal/agent/docker_executor_xray_worker.go:822-822 | the parse with its error ignored stays in range |
| TrafficCounters.ParsesExactly | internal/agent/docker_executor_xray_worker.go:822-822 | a numeral with or without a sign is its value, or the nearest bound of 64 bits |
| TrafficCounters.ObservedSound | internal/agent/docker_executor_xray_worker.go:831-842 | a true reading, or none, keeps a total sound; one without restarts makes it exact |
| TrafficCounters.LossAfterRestart | internal/agent/docker_executor_xray_worker.go:836-840 | after a restart the first reading is exact iff the new counter has not caught up, else short by the last reading |
| TrafficCounters.WrongReading | internal/agent/docker_executor_xray_worker.go:832-842 | a wrong reading is harmless iff it lies between the last reading and the counter |
| TrafficCounters.TextWithoutNumeral | internal/agent/docker_executor_xray_worker.go:817-842 | after such a text the next true reading counts exactly the last reading again; harmless iff nothing had been read |
| TrafficCounters.DecimalReads | internal/agent/docker_executor_xray_worker.go:817-826 | a printed counter reads back as itself |
| TrafficCounters.PrintedIsTruthful | internal/agent/docker_executor_xray_worker.go:814-827 | responses that print counters are truthful |
| TrafficCounters.PrintedIsRead | internal/agent/docker_executor_xray_worker.go:815-826 | every counter that a response prints is read with the value printed |
| TrafficCounters.Worker.Read | internal/agent/docker_executor_xray_worker.go:814-827 | the loop over the response |
| TrafficCounters.Worker.Advance | internal/agent/docker_executor_xray_worker.go:831-842 | deltas and new readings of every counter |
| TrafficCounters.Worker.CreditAccounts | internal/agent/docker_executor_xray_worker.go:843-874 | every account gets exactly its deltas, or some account would overflow |
| TrafficCounters.Worker.CreditInbounds | internal/agent/docker_executor_xray_worker.go:875-901 | every entry gets exactly its deltas, or some entry would overflow |
| TrafficCounters.Worker.Charge | internal/agent/docker_executor_xray_worker.go:804-903 | what any response makes of all totals, or that some total would overflow |
| TrafficCounters.Worker.Observe | internal/agent/docker_executor_xray_worker.go:804-903 | for every response: refused iff some total would leave its range, changing nothing, otherwise every total grows by exactly its delta; for a true response the totals stay sound and are exact for every printed counter without a restart |
| TrafficCounters.Run | internal/agent/docker_executor_xray_worker.go:804-911 | over every run totals stay in range, and if every response printed the counters of that moment nobody is charged more than was transferred |
| HostsSection.SecondRewrite | cmd/vastora/tailscale_privacy.go:398-434 | what any further rewrite of a rewritten file yields |
| HostsSection.KeptLines | cmd/vastora/tailscale_privacy.go:402-425 | what survives has no marker and no trailing blank line |
| HostsSection.Idempotent | cmd/vastora/tailscale_privacy.go:148-157 | the rewrite is its own fixpoint iff no kept line ends in a carriage return |
| HostsSection.RemoveAfterInsert | cmd/vastora/tailscale_privacy.go:479-498 | removal after insertion equals plain removal under the same condition |
| HostsSection.NormalizedFilesSettle | cmd/vastora/tailscale_privacy.go:398-434 | both hold for files without a carriage return after normalization |
| HostsSection.RewriteShrinks | cmd/vastora/tailscale_privacy.go:380-396 | a rewrite that changes a rewritten file shortens it |
| HostsSection.StrayCarriageReturn | cmd/vastora/tailscale_privacy.go:399-401 | a file that needs two rewrites |
| HostsSection.AcceptedExactlyWhenPaired | cmd/vastora/tailscale_privacy.go:402-422 | a file is accepted iff its markers pair up |
| HostsSection.ScanKeepsOutside | cmd/vastora/tailscale_privacy.go:402-422 | what is kept are exactly the lines outside every section, in their order |
| HostsSection.WrittenFile | cmd/vastora/tailscale_privacy.go:398-433 | the written file is those lines without trailing blank ones, then between the markers one line per address that reads as the address and all hostnames |
| HostsSection.KeepLines | cmd/vastora/tailscale_privacy.go:402-422 | the scanning loop |
| HostsSection.DropBlankLines | cmd/vastora/tailscale_privacy.go:423-425 | the trimming loop |
| HostsSection.ListEntries | cmd/vastora/tailscale_privacy.go:428-430 | one line per address with every hostname |
| HostsSection.AppendSection | cmd/vastora/tailscale_privacy.go:426-432 | the section after the kept lines |
| HostsSection.ReplaceHostsSection | cmd/vastora/tailscale_privacy.go:398-434 | the loops compute the rewrite the theorems are about |
| OpenRCSection.Index | cmd/vastora/tailscale_openrc.go:18-30 | the first occurrence, exactly |
| OpenRCSection.OutsideUntouched | cmd/vastora/tailscale_openrc.go:18-50 | all bytes outside the former section stay, and that section runs from its begin marker to its end marker and newline, with each marker once |
| OpenRCSection.RenderIdempotent | cmd/vastora/tailscale_openrc.go:18-50 | rendering twice equals rendering once |
| OpenRCSection.RemoveAfterInsert | cmd/vastora/tailscale_openrc.go:18-50 | removal after insertion restores the file iff it ended in a newline |
| OpenRCSection.SectionsIndependent | cmd/vastora/tailscale_openrc.go:51-70 | two sections can be inserted, re-rendered and removed independently |
| OpenRCSection.SectionsAreForeign | cmd/vastora/tailscale_openrc.go:71-142 | names that differ early cannot be mistaken for each other |

## Left out

- TLS connection policies and certificates in the composed Caddy configuration; routes, listeners and protocol are modelled.
- Gateway configurations in which two servers have the same only address: the server a website joins would then depend on the order in which the map is walked.
- The handover record carried in a website row, and the sealing and decoding of rows.
- Recovery copies of a landing update: after a failed apply the Agent may restore the previous daemon from private copies. The model assumes that this is not armed; an armed restore after a failed intent write installs the new table before it is recorded.
- The retired local DNS hook, the package installation and the `ExecutionRetired` marker of a landing host; an administrator changing managed files or deleting the service account.
- LandingHost.Host.Launch: enabling and starting are two effects of one command; the listener check is one outcome.
- A panel client has two layers here; the client record and its copies in the entries count as one, and native counters and the waiting for remote nodes are outcomes.
- SharedQuota.Account.Sync: the allocation is a parameter; the allocator always grants an unlimited total, so the general per-identity invariant and not the sum is what constrains it.
- Adoption of a recreated proxy container's identity, and the contents of routing rules; settings are compared by value.
- The link, business and exit checks of a monitor; its acceptance is one event.
- HostUpdate.Host.Helper: cancellation by an uninstall and a cancelled context are not modelled; executable path and data directory are those of one host, nobody else replaces the executable, and a serving Agent is the installed one.
- Database snapshots, volumes and ownership labels of container replacement; panel and worker replacements of one host are modelled each on its own, not against each other.
- ContainerReplacement.Engine.Replace: a container that was found stopped is taken to stay stopped.
- The views a projection returns, and the rendering and parsing of share links.
- SharedOperations.Journal.Synchronize: the part of a synchronization that writes to the panel is one outcome here; `SharedQuota` models it.
- Differences between service managers in the installation; the unit file is absent, ours or unrelated.
- TrafficCounters.Worker.Observe: names of counters are parsed already, and the import of totals from older entries is not modelled.
- The services around the section editors: reading and writing the files, restarting tailscaled, validating hostnames and addresses.
- Switching a host between control planes, decommissioning, heartbeats, diagnostics, the command line and the web code.
- Cryptography, JSON and SQLite: digests are injective, transactions atomic, a completed rename survives a crash.
