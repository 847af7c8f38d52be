# Choria protocols, permissions and agents in Dafny

This project models the parts of Choria whose correctness does not show from reading one function, and proves what they
promise:

- **Federation.** A request published by a connector is cut into batches, wrapped in a federation header, rewritten by a
  federation broker on its way into a collective, answered by a node, and its reply is rewritten again on the way back.
  `Publishing`, `PublishingFailures`, `FederationMessages`, `FederationNetwork`, `FederationPaths`, `Pipeline` and
  `Broker` model the connector, what is left of a message when attempts fail, the header rewrites, whole networks of
  brokers, the subjects on which all of them meet, the worker pools with their bounded channels, and their wiring.
- **Broker admission.** `Admission`, `Signers`, `Permissions` and `ServerPermissionRules` model who the network broker
  admits to which account, and what the granted NATS permissions mean as languages of subjects (`Subjects`, `Coverage`).
  `AdmissionRules` states the rules of admission independently of the handlers, `GrantedSubjects` every subject that
  anybody may use independently of the pattern lists.
- **Submission spool.** `SpoolMessage`, `Spool`, `SpoolSafety`, `SpoolAcrossPolls`, `SpoolFates` and `SpoolBound` model
  the durable queue: scanning, back-off, delivery of reliable and unreliable messages, the skip list, and submitters racing for the
  size limit.
- **Autonomous agents.** `Machines` models one state machine, `MachineNetwork` many that trigger each other,
  `RateLimit` the limit on fast transitions (on top of `Backoff`), `Reconciler` the loop that keeps the running
  machines equal to the disk, `ReconcilerRuns` its steps with plugins loaded in between, and `LockOrder` the locks of
  the agent host and its machines.
- **SRV cache.** `SrvCache` models the cache for DNS lookups.

Objects that the source updates in place are classes, and each of their methods is proved against a function of the old
state; the theorems are about those functions. What such a function computes is also stated in other terms than its own:
in literal subjects, in the fields of the settings and libraries, or by what becomes of one file or one machine. Concurrency is modelled by step systems (`Runs`): an event is what one
goroutine does between two points where it can be interleaved, and theorems hold for every run.

Conventions. A subject is a sequence of tokens and a pattern a sequence of literals, `*` and a trailing `>`. Names that
the source puts into subjects as one token (collectives, agents, organizations, federations, request ids) are tokens, a
node identity may have several, and the empty string is the empty sequence. Digests, signature checks and token parsing
are arbitrary functions. Clock readings, random draws and the outcomes of disk and network calls are parameters, so
statements hold for all of them.

## What the code does that its comments do not say

The model follows the code. Where that differs from its documentation there is a lemma that gives a failing input, and
one that says exactly when the documented behaviour holds:

- An empty host name cuts a batch of federated targets short (`Publishing.BatchesAddressTheSameNodes`).
- A failed batch is forgotten when the last one succeeds (`Publishing.SilenceIsTrustworthyExactly`,
  `PublishingFailures.SilenceReachesAllExactly`).
- A token server may publish a federated reply only if the broker is named like one of the server's collectives
  or its token lists the subject (`ServerPermissionRules.FederatedReplyIsPublishable`); a FIPS broker lets a client hear
  its replies only if its peers use FIPS digests too (`Permissions.ClientHearsItsOwnReplies`).
- The deny-all fallbacks for clients are never taken (`Permissions.ClientIsNeverUnrestricted`), and a missing remote
  address stops the admission of most connections (`Admission.CrashesExactly`).
- The skip list is emptied by every poll, so a message that was acknowledged but could not be removed is sent again
  (`SpoolAcrossPolls.CompactionForgetsEverything`, `SpoolAcrossPolls.AcknowledgedAgainExactly`).
- Reliable messages keep their order within a poll only (`SpoolAcrossPolls.OvertakesExactly`).
- The spool takes one message more than its limit from each racing submitter, and has no limit at all while its
  directory cannot be listed (`SpoolBound.SpoolSizesExactly`, `SpoolBound.UnlistableHasNoLimit`).
- A saturated machine may change state every 2.5 seconds, not every 5 (`RateLimit.FiveSecondsExactly`), and its counter
  can be reset right after any transition (`RateLimit.QuietResetsExactly`, `RateLimit.FirstTransitionNeedsNoQuiet`).
- The documented range of a back-off sleep is exact for even table entries only (`Backoff.DocumentedRangeExactly`).
- A machine whose directory was replaced by a file keeps running (`Reconciler.PassExactly`). A plugin loaded at a fresh
  path can still end up with a second machine of its path (`ReconcilerRuns.FreshPathsAreNotEnough`,
  `ReconcilerRuns.PluginIsSafeExactly`), and cleaning may then remove the plugin (`Reconciler.PluginSurvivesExactly`,
  `Reconciler.FollowersDoNotDecide`).
- Cleaning up a machine that is gone from disk can lock up the agent host for good (`LockOrder.DeadlocksExactly`): if
  the machine changes state meanwhile (`LockOrder.DeadlockIsReachable`), if its transition sleeps
  (`LockOrder.SleepLocksUp`), if one of its watchers looks up the state of another machine
  (`LockOrder.LookupLocksUp`), and without any second goroutine if it has a metric or httpswitch watcher
  (`LockOrder.ReentryLocksUp`). So can listing the states while a nagios watcher does not take its notification
  (`LockOrder.ListingLocksUp`).
- The SRV cache has no fixed term: every hit extends it (`SrvCache.FixedTermExactly`).

## Model

| member | source | states |
|---|---|---|
| Subjects.AnyMatchesConcat | broker/network/choria_auth.go:1043-1066 | Appending to an allow list unites the languages of the two lists. |
| Permissions.EveryRequestTargetIsARequestSubject | choria/connection.go:504-557 | Every target derived for a request without custom target is a request subject below its collective, and so is the federation side of any broker; which one it is says `FederationPaths.SentDirectly`. |
| Permissions.GrantClaimsLanguage | broker/network/choria_auth.go:1020-1066 | The lists a client ends up with accept exactly the union of what each matched claim grants; no claim takes anything away. |
| Permissions.ClientIsNeverUnrestricted | broker/network/choria_auth.go:997-1083 | For all claims and accounts a client is left with an allow list in both directions, so it is never unrestricted, and neither deny-all fallback is taken. |
| Permissions.ClientHearsExactly | broker/network/choria_auth.go:885-979 | A client can subscribe to a reply subject if and only if it is an organization admin, has no caller name, the digest is one granted to it, or its token lists the subject; no other claim widens this. |
| Permissions.RepliesArePrivate | broker/network/choria_auth.go:885-909 | For two callers with distinct digests no combination of non-admin claims lets one hear any reply subject of the other. |
| Permissions.ClientHearsItsOwnReplies | choria/connection.go:559-574 | A client hears the reply target its peers derive for it if and only if a FIPS broker meets FIPS peers, or it hears every reply anyway. |
| Permissions.ClientRequestsExactly | broker/network/choria_auth.go:874-953 | A request subject is publishable by fleet managers, organization admins, holders of a matching extra publish subject and - below `$JS`, `$KV` and `$O` in the fleet account - holders of a streams claim, and by nobody else. |
| Permissions.StreamsReachRequestsExactly | broker/network/choria_auth.go:911-953 | The only request-like subjects a streams claim opens are those whose first token is `$JS` (admins) or `$KV` and `$O` (users), in the fleet account. |
| ServerPermissionRules.AddClaims | broker/network/choria_auth.go:1020-1066 | Testing claim after claim appends exactly what the matched ones grant, in order, and remembers whether any matched. |
| ServerPermissionRules.BuildClientLists | broker/network/choria_auth.go:997-1083 | Building the lists step by step, deny lists included, yields the permissions whose languages the client lemmas describe. |
| ServerPermissionRules.SetClientPermissions | broker/network/choria_auth.go:1085-1106 | Leaves the user with an allow list in both directions; it hears exactly its own replies and may publish no request, unless its claims say so, for every reply and request subject. |
| ServerPermissionRules.AddCollective | broker/network/choria_auth.go:1136-1179 | Appends to both lists exactly what one collective of a server token grants, which `GrantedSubjects` spells out subject by subject. |
| ServerPermissionRules.AddStreams | broker/network/choria_auth.go:1181-1204 | Appends the JetStream calls, below the prefix that the organization decides, only with the streams claim. |
| ServerPermissionRules.SetClaimsBasedServerPermissions | broker/network/choria_auth.go:1118-1204 | The loop over collectives leaves exactly the lists gathered from all of them; without collectives everything is denied. `GrantedSubjects.ServerMayPublishExactly` and `GrantedSubjects.ServerMaySubscribeExactly` say which subjects these are. |
| ServerPermissionRules.SetServerPermissions | broker/network/choria_auth.go:1253-1267 | Denied servers, token servers and default servers get their set and nothing of another one. |
| ServerPermissionRules.ServerPublishesExactly | broker/network/choria_auth.go:1118-1158 | Among requests, replies and federation subjects a token server can publish exactly registration broadcasts and replies of its collectives, the collective side of brokers named like one of them, and what its token lists. |
| ServerPermissionRules.FederatedReplyIsPublishable | broker/network/choria_auth.go:1136-1141 | A server may publish a federated reply if and only if the name of the broker is one of its collectives, or its token lists the subject. |
| ServerPermissionRules.FixedSetsNeverRequest | broker/network/choria_auth.go:598-616 | Denied, default and provisioning servers can publish no request subject at all. |
| ServerPermissionRules.PubSubStaysOutOfTheFleet | broker/network/choria_auth.go:1227-1251 | A plain pub-sub user can neither publish nor subscribe to any request, reply or federation subject. |
| ServerPermissionRules.ServersNeverRequest | broker/network/choria_auth.go:1118-1225 | For all server permissions the only request subjects that can be published are the registration broadcast of a collective in the token and what the token lists. |
| ServerPermissionRules.ServerHearsExactly | broker/network/choria_auth.go:1118-1158 | Among requests and replies a token server hears exactly those of its collectives that are agent broadcasts, its own node subject, its own replies, and services if it hosts them. |
| ServerPermissionRules.RequestReachesItsServers | choria/connection.go:504-529 | Every request of a fleet manager is publishable by it and may be heard by the servers it addresses. |
| ServerPermissionRules.ReplyReachesItsRequester | choria/connection.go:559-583 | A server of the collective may publish the reply target of any caller, and the caller may hear it. |
| Permissions.InboxIsHeardExactly | choria/connection.go:796-802 | A client hears an inbox if and only if it is an organization admin, has no caller name, its token lists the inbox, or the unique id - without one, the first token of the inbox, if more follow - is a digest granted to it. |
| ServerPermissionRules.FederatedRequestAndInboxArePermitted | choria/connection.go:585-588 | A fleet manager may publish into any federation and hear its inboxes below a granted unique id. |
| GrantedSubjects.ServerMayPublishExactly | broker/network/choria_auth.go:1118-1204 | For every subject: a token server may publish it if and only if it has a collective and the token lists it, it is one of its events, one of its collectives opens it, or the streams claim does. |
| GrantedSubjects.SubmissionExactly | broker/network/choria_auth.go:1167-1171 | A submission subject of a collective is publishable if and only if the collective is one of the token's and the submission claim is made, or the token lists it. |
| GrantedSubjects.GovernorExactly | broker/network/choria_auth.go:1173-1177 | A governor subject needs the governor and the streams claim together, or the token lists it. |
| GrantedSubjects.ServerCallsAreOpenExactly | broker/network/choria_auth.go:1181-1204 | Below both prefixes of the JetStream API exactly ten kinds of calls are open, with the streams claim and below the prefix of the server's organization only. |
| GrantedSubjects.ServerMaySubscribeExactly | broker/network/choria_auth.go:1118-1190 | For every subject: a token server hears exactly agent broadcasts, its own full node identity, its own replies, services if it hosts them, and republished messages with the streams claim. |
| GrantedSubjects.DefaultServerExactly | broker/network/choria_auth.go:1206-1225 | A server without token may publish everything that does not carry requests and hear everything but replies, federations and lifecycle events. |
| GrantedSubjects.PubSubExactly | broker/network/choria_auth.go:1227-1251 | A plain pub-sub user may use exactly what is no broadcast, node, reply, federation, lifecycle or machine subject. |
| GrantedSubjects.ProvisioningExactly | broker/network/choria_auth.go:598-616 | A provisioning node may use exactly its events, replies and registrations, its node subject and four agents. |
| GrantedSubjects.ClientMayPublishExactly | broker/network/choria_auth.go:874-1083 | For every subject: which claims in which account open it to a client - streams, elections, governors, fleet management, organization administration, or the token's own list. |
| GrantedSubjects.ClientMaySubscribeExactly | broker/network/choria_auth.go:885-979 | For every subject: a client hears exactly its replies, the events and streams of its claims in its account, what its token lists, or everything as an organization admin. |
| Signers.SearchIsExact | broker/network/choria_auth.go:671-703 | The search accepts claims if and only if some signer validates the token and every earlier one failed non-fatally. |
| Signers.VouchedExactly | broker/network/choria_auth.go:739-771 | Verification yields claims if and only if they are complete and the issuer of the organization, or without issuers the first signer not to fail, vouches for them. |
| Signers.KeyCache.CachedKey | broker/network/choria_auth.go:650-669 | Answers what decoding the text answers, with or without a cached key, and caches only that. |
| Signers.KeyCache.ParseWithSigners | broker/network/choria_auth.go:671-703 | The loop with its cache agrees with the cacheless search, and fails exactly when there were signers and none accepted. |
| Signers.KeyCache.ParseWithOrgIssuer | broker/network/choria_auth.go:705-737 | Agrees with verification by the issuer of the token's organization, whatever is cached. |
| Signers.KeyCache.Parse | broker/network/choria_auth.go:739-771 | Issuers win over signers, incomplete claims are refused, and the cache never changes the answer. |
| Admission.ChoriaAuth.VerifyNonceSignature | broker/network/choria_auth.go:153-197 | True if and only if a non-empty nonce was signed with a key of 32 bytes: the library verifies the nonce with the decoded key and signature. |
| Admission.ChoriaAuth.VerifyClientJWT | broker/network/choria_auth.go:220-239 | Yields the claims of exactly the client tokens that are vouched for and whose holder signed the nonce. |
| Admission.ChoriaAuth.VerifyServerJWT | broker/network/choria_auth.go:199-218 | Yields the claims of exactly the server tokens that are vouched for and whose holder signed the nonce. |
| Admission.ChoriaAuth.HandleDefaultConnection | broker/network/choria_auth.go:241-361 | Registers exactly one user, with the permissions its token or connection earns, or none. |
| Admission.ChoriaAuth.HandleVerifiedSystemAccount | broker/network/choria_auth.go:408-434 | Registers into the system account if and only if the system credentials match. |
| Admission.ChoriaAuth.HandleUnverifiedSystemAccount | broker/network/choria_auth.go:363-406 | Needs a nonce-verified token with system or organization admin permission as well. |
| Admission.ChoriaAuth.HandleProvisioningUserConnection | broker/network/choria_auth.go:436-509 | Registers the provisioner if and only if the password path of the issuer or TLS mode holds. |
| Admission.ChoriaAuth.HandleUnverifiedProvisioningConnection | broker/network/choria_auth.go:511-648 | Registers a provisioning node, with the provisioning subjects only, if and only if it holds a provisioning token. |
| Admission.ChoriaAuth.Check | broker/network/choria_auth.go:82-151 | Answers true exactly when it registered a user, never registers two, and registers whom `AdmissionRules.RegisteredExactly` describes. |
| AdmissionRules.RegisteredExactly | broker/network/choria_auth.go:82-151 | For all settings, connections and answers of the libraries: who is registered, under which name, in which account and with which permissions, stated by kind of user in terms of the connection and the libraries. |
| AdmissionRules.FleetExactly | broker/network/choria_auth.go:241-361 | A fleet user is registered if and only if its token is vouched for by a signer or issuer and its signature of the nonce verifies with the key of the token, or without token over verified TLS or a pipe, each with exactly its permissions. |
| AdmissionRules.SystemExactly | broker/network/choria_auth.go:363-434 | The system account needs the name and password of the settings and verified TLS, a pipe, or a proven token that grants it. |
| AdmissionRules.ProvisionerExactly | broker/network/choria_auth.go:436-509 | The provisioner needs its name, the password of the settings, and its issuer's token or verified TLS. |
| AdmissionRules.NodeExactly | broker/network/choria_auth.go:511-648 | A provisioning node needs unverified TLS and a token that the issuer of its organization, or the configured signer, validates. |
| Admission.SystemAccountExactly | broker/network/choria_auth.go:363-434 | The system account is reached if and only if the system credentials match and TLS is verified, or it is a pipe, or a nonce-verified token grants it. |
| Admission.ProvisioningAccountExactly | broker/network/choria_auth.go:436-648 | The provisioning account is reached if and only if by the provisioner password path, or with a provisioning token over unverified TLS to a TLS broker, without a vouched-for client or server token whose holder signed the nonce. |
| Admission.ProvisioningNodesAreConfined | broker/network/choria_auth.go:598-616 | A node admitted with a provisioning token can publish no request and hears requests of the provisioning collective only. |
| Admission.AdmissionNeedsCredentials | broker/network/choria_auth.go:82-151 | Nobody is admitted without verified TLS, a pipe, a verified token, or one of the provisioning paths. |
| Admission.FleetUserExactly | broker/network/choria_auth.go:241-361 | Without verified TLS a fleet user needs a vouched-for token whose holder signed the nonce, or a pipe. |
| Admission.ClientUsesEverythingExactly | broker/network/choria_auth.go:997-1083 | A client may use every subject in both directions if and only if it is an organization admin or its token alone lists patterns for all subjects; no combination of claims adds up to that. |
| Admission.UnrestrictedExactly | broker/network/choria_auth.go:241-361 | A fleet user may use every subject in both directions if and only if its token makes it an organization admin or lists all subjects, or no token was used, there is no client allow list, and it is a pipe or verified TLS outside of issuer mode. |
| Admission.AdmittedClientsHearOnlyThemselves | broker/network/choria_auth.go:271-318 | An admitted client hears exactly the reply subjects of its own granted digests, unless it is an admin or its token lists more. |
| Admission.CrashesExactly | broker/network/choria_auth.go:82-151 | Check dereferences a nil remote address if and only if the connection passes the TLS gate, does not name the provisioner, and - naming the system user - brings a client token over unverified TLS that nobody vouches for. |
| FederationMessages.CopyFederationData | protocol/federation.go:8-29 | The destination gets the whole federation header and all hops in order, or loses its header. |
| FederationMessages.RequestWorker | broker/federation/request_transformer.go:36-60 | Targets leave the header, the reply-to enters it, the collective side of the broker becomes the reply-to; otherwise nothing is sent and the message is untouched. |
| FederationMessages.ReplyWorker | broker/federation/reply_transformer.go:29-51 | The stored reply-to becomes the only target and the header goes; otherwise nothing is sent. |
| FederationMessages.EgestWorker | broker/federation/choria_nats_egest.go:38-75 | Every target is attempted once whatever fails before, published and failed attempts add up to the targets, and one hop is recorded. |
| FederationMessages.LeavingRecordsHops | broker/federation/choria_nats_egest.go:52-58 | One hop is recorded, made of the first entry of the trail, those in between, and the last, unless ingest left none. |
| FederationMessages.AllDelivered | broker/federation/choria_nats_egest.go:67-74 | Without failures each target receives the same message exactly once, in order. |
| Publishing.SliceGroups | internal/util/util.go:234-259 | The padded, counted cutting yields exactly the groups of the given size with the last one filled with blanks, although one blank too many is appended. |
| Publishing.UntilBlankKeeps | choria/connection.go:381-387 | A padded group keeps all its names if and only if none of them is blank. |
| Publishing.BatchShape | choria/connection.go:374-410 | There are ceil(n/200) batches of at most 200 targets, none empty if no host is blank. |
| Publishing.BatchesAddressTheSameNodes | choria/connection.go:374-410 | The batches concatenate to exactly the subjects of direct publishing if and only if no host name is blank. |
| Publishing.Connection.PublishFederatedDirect | choria/connection.go:374-410 | Sends every batch to every federation until one fails, re-addressing one shared transport in place; the error is that of the last batch. |
| Publishing.Connection.PublishFederatedBroadcast | choria/connection.go:412-440 | Sends the message with its one target to every federation until one fails. |
| Publishing.Connection.PublishConnectedDirect | choria/connection.go:475-502 | Sends the same message to the node subject of each host until one fails. |
| Publishing.Connection.PublishConnectedBroadcast | choria/connection.go:450-473 | Sends the message to its target once, or fails without a target. |
| Publishing.Connection.Publish | choria/connection.go:347-372 | Records the own hop, then a custom target wins over federations and federations over direct publishing; the literal subjects are in `FederationPaths`. |
| Publishing.FederationReceivesEveryBatch | choria/connection.go:392-404 | Without failures each federation receives every batch once, in order. |
| Publishing.TransitOfBatches | broker/federation/request_transformer.go:36-60 | What a broker publishes for all batches is the unchanged payload on each target of each batch, in order. |
| Publishing.FederatedRefinesDirect | choria/connection.go:374-410 | After one transit every subject of direct publishing received the same payload once and in order, if and only if no host is blank. |
| Publishing.PublishRefinesExactly | choria/connection.go:347-502 | For every kind of message with a reply-to, publishing into federations amounts to publishing without them, for direct requests if and only if no host is blank. |
| Publishing.ErrorIsTheLastBatch | choria/connection.go:374-410 | The returned error tells about the last batch only. |
| Publishing.FirstFailureIsForgotten | choria/connection.go:374-410 | A batch that failed first goes unreported when a later one succeeds. |
| Publishing.SilenceIsTrustworthyExactly | choria/connection.go:374-410 | No error means that every batch was sent to every federation, whatever fails, if and only if there are at most 200 hosts or no federations. |
| PublishingFailures.ReceivedIsArrived | choria/connection.go:392-404 | Whatever attempts fail, a federation receives once and in order exactly the batches whose publishing did not fail at it or before it. |
| PublishingFailures.FailuresOnlyOmit | choria/connection.go:374-410 | Whatever attempts fail and whatever hosts are blank, what the broker of a federation publishes is the payload on the subjects of direct publishing with some left out: none is new, none comes twice for a host, and the order stays. |
| PublishingFailures.SilenceReachesAllExactly | choria/connection.go:374-410 | No error means that the nodes of each federation receive exactly what direct publishing sends, whatever attempts fail, if and only if there are at most 200 hosts and none is blank. |
| FederationPaths.SentDirectly | choria/connection.go:347-372 | What leaves a connection without federations, or for a custom target: the unchanged message on the literal subjects of its kind, and an error exactly for messages that have none. |
| FederationPaths.BroadcastFederated | choria/connection.go:412-440 | Anything but a direct request goes once to the literal subject of each federation, naming the one subject it has without them and the id of the request. |
| FederationPaths.DirectFederated | choria/connection.go:374-410 | A direct request goes to the literal subject of each federation in ceil(n/200) messages that differ in targets only, and these are the node subjects of all hosts in order. |
| FederationPaths.SameTargetExactly | choria/connection.go:504-557 | Two requests have the same subject if and only if they agree on kind, collective, and agent or node identity. |
| FederationPaths.ReplySubjectsAreLiteral | choria/connection.go:559-574 | Where replies to a caller go, in tokens, and where connections with and without a unique id listen. |
| FederationPaths.ConnectorMeetsBroker | broker/federation/choria_nats_ingest.go:29-36 | A broker ingests requests from the very subject to which connectors publish for the federation of its name. |
| FederationPaths.IssuedCanBeCarried | broker/federation/choria_nats_ingest.go:29-66 | In every run a request that was issued into a federation can be carried by the broker of that name from then on. |
| FederationPaths.RequestComesHome | broker/federation/request_transformer.go:36-60 | From every state of every run an issued federated request can be carried to each of its targets, answered there, and its reply brought to the requester's reply-to, unfederated and with its id. |
| FederationPaths.AnswerIsPublishableExactly | broker/network/choria_auth.go:1136-1141 | A token server may publish its reply to a federated request if and only if the broker is named like one of its collectives or the token lists the subject. |
| FederationNetwork.TransitRecordsOneHop | broker/federation/choria_nats_egest.go:52-58 | A transit keeps the payload and records exactly one hop, from the server of the first trail entry to that of the last. |
| FederationNetwork.RoundTrip | broker/federation/reply_transformer.go:29-51 | Every reply a node makes to a federated request goes to `choria.federation.<broker>.collective` of the carrying broker and leaves it for exactly the requester's reply-to; all that is left of the way are the three hops. |
| FederationNetwork.DirectReply | message/message.go:55-83 | The reply to an unfederated request goes straight to its reply-to, if there is one, unfederated and with its own hop only. |
| FederationNetwork.RepliesReachTheirRequesters | server/processor.go:18-95 | In every run with any number of clients, nodes, brokers and concurrent requests a reply on the federation side is addressed to a reply-to issued with its request id. |
| FederationNetwork.TravelLowersRank | broker/federation/choria_nats_ingest.go:61-66 | Every transit lowers the rank of a message and node replies keep it. |
| FederationNetwork.AtMostTwoTransits | broker/federation/choria_nats_ingest.go:50-78 | However brokers are wired, a message makes at most two transits, at most one through a request transformer. |
| Broker.PooledWorker.Init | broker/federation/pooled_worker.go:130-160 | Gives the pool two fresh channels of its capacity (100 by default) and at least its default two workers. |
| Broker.PooledWorker.To | broker/federation/pooled_worker.go:182-192 | Shares the very input channel of the next pool, or fails and changes nothing. |
| Broker.PooledWorker.From | broker/federation/pooled_worker.go:170-180 | Shares the very output channel of the previous pool, or fails and changes nothing. |
| Broker.PooledWorker.Run | broker/federation/pooled_worker.go:75-128 | Starts all workers and keeps the lock if the pool is ready and has servers to connect to; a second run waits. |
| Broker.FederationBroker.Wire | broker/federation/federation.go:64-77 | The two chains are wired as the pipeline assumes, with capacities 1000 and 10000, and share no pool and no channel. |
| Broker.FederationBroker.Start | broker/federation/federation.go:59-89 | Every pool runs its 10 workers, the connecting ones if and only if there are servers to connect to, also the request transformer, which is run twice. |
| Pipeline.NextConserves | broker/federation/pooled_worker.go:75-200 | Every step moves one message from one place to another; only admission adds one. |
| Pipeline.EveryMessageIsInOnePlace | broker/federation/federation.go:64-84 | Under every interleaving of any number of workers each admitted message is in exactly one channel, hand, drop or receipt. |
| Pipeline.ChainAccounts | broker/federation/choria_nats_egest.go:38-75 | In every run what egest received is the transformed admitted message with one more hop, what was dropped is what the transformer refuses, egest never lacks targets, channels stay within capacity, and the error counter is exact. |
| Pipeline.EgestIsTheWorkers | broker/federation/choria_nats_egest.go:67-74 | The egest step of the model sends exactly what the worker loop sends. |
| Pipeline.PublishedPlusFailed | broker/federation/choria_nats_egest.go:67-74 | In every state of every run the published counter is what is on the wire, and with the failed attempts it adds up to the targets of the encodable messages received. |
| Pipeline.StepsDrain | broker/federation/pooled_worker.go:75-128 | Every step except an arrival brings the messages in flight closer to the end. |
| Pipeline.NeverStuck | broker/federation/federation.go:64-84 | With a worker in each pool something in flight can always move. |
| SpoolMessage.AcceptedUntilItExpires | submission/msg.go:73-176 | A message that is accepted once is accepted exactly until its time to live is over, and converts to the same NATS message until then. |
| SpoolMessage.ValidExactly | submission/msg.go:73-114 | A message is valid if and only if nothing is missing, its priority is one of five, its time to live is at most 31 days and not over, and no header starts like one of Choria or NATS in any case. |
| SpoolMessage.EnvelopeRoundTrip | submission/msg.go:116-176 | From the NATS message of any accepted message a receiver can read back everything the message says, the submitter's own headers included, and the signature is there if and only if it was asked for. |
| Spool.DirectorySpool.ScanEntry | submission/disk_spool.go:172-202 | One entry is retried for removal, removed, left waiting or selected, as its state demands. |
| Spool.DirectorySpool.ScanEntries | submission/disk_spool.go:169-203 | The loop over a listing selects and removes entry by entry and collects the base names it saw. |
| Spool.DirectorySpool.CompactSkipList | submission/disk_spool.go:137-149 | Keeps exactly the entries that are known. |
| Spool.DirectorySpool.ScanDir | submission/disk_spool.go:159-206 | Scans the whole directory in file name order, then compacts the skip list. |
| Spool.DirectorySpool.FailedAttempt | submission/disk_spool.go:86-123 | Counts the try durably and sets the next one to the time it was sent plus the delay, or removes the message when its tries are used up or it cannot be written. |
| Spool.DirectorySpool.Deliver | submission/spool.go:142-188 | The handler deals with the selected messages one by one, skipping reliable ones after the first failure. |
| Spool.DirectorySpool.PollOnce | submission/disk_spool.go:159-211 | One poll is a scan followed by the delivery of what it selected. |
| Spool.DirectorySpool.Submit | submission/disk_spool.go:325-361 | Stores a valid message if and only if no more than spoolMax entries are listed and the file could be written and renamed; an unlistable directory counts as empty. |
| SpoolSafety.DeliveryFollowsFates | submission/spool.go:142-188 | Whatever the disk does, what the handler attempts is decided by the position of the first reliable failure. |
| SpoolSafety.OrderWithinAPoll | submission/spool.go:142-188 | The acknowledged reliable messages are a prefix, in file name order, of the admissible ones, at most the next one fails, none after it is attempted, and every admissible unreliable one is attempted exactly once. |
| SpoolSafety.PollSelects | submission/disk_spool.go:159-203 | The handler is given exactly the messages that are stored, readable, not to be skipped, have a try left and are not backing off, in file name order. |
| SpoolSafety.NothingIsLost | submission/disk_spool.go:86-123 | In every run without disk faults a reliable message is gone only after an acknowledgement, a rejection or its last try; the durable tries equal the failed attempts, attempts never exceed the tries it had, it is acknowledged at most once, and what was acknowledged, rejected or unreliably attempted is gone. |
| SpoolAcrossPolls.CompactionForgetsEverything | submission/disk_spool.go:173-205 | The skip list holds full paths and compaction is given base names, so every poll empties it. |
| SpoolAcrossPolls.CompactionKeepsExactly | submission/disk_spool.go:137-149 | Compaction keeps the entries of all listed files, for every skip list, if and only if it is given their full paths. |
| SpoolAcrossPolls.AckedExactly | submission/spool.go:142-188 | In any directory a poll acknowledges a message if and only if it is due, admissible, accepted and, if reliable, nothing reliable selected before it fails. |
| SpoolAcrossPolls.AckedInOnePoll | submission/disk_spool.go:125-135 | The file of an acknowledged message is gone, or it could not be removed, is unchanged and on the skip list. |
| SpoolAcrossPolls.SkippedInOnePoll | submission/disk_spool.go:175-179 | A file on the skip list is not tried, stays if and only if it still cannot be removed, and is off the list after the poll. |
| SpoolAcrossPolls.AcknowledgedAgainExactly | submission/disk_spool.go:125-205 | In any directory, with other files submitted meanwhile, an acknowledged message is acknowledged again two polls later if and only if its file could not be removed, neither then nor in the next poll, and it is due, admissible, accepted and not blocked. |
| SpoolAcrossPolls.OvertakenOnlyWhileNotSelected | submission/spool.go:164-180 | A reliable message that a poll selects and admits is never overtaken by a later reliable one. |
| SpoolAcrossPolls.OvertakesExactly | submission/disk_spool.go:175-197 | In any directory a poll acknowledges a later reliable message and not an earlier one if and only if it acknowledges the later one and the earlier one was not selected or is rejected. |
| SpoolFates.FileInOnePoll | submission/disk_spool.go:159-206 | For every store, file, fault and clock: what one poll makes of a file - discarded, skipped, left alone, rejected, sent, or kept with one more try and the time it is due. |
| SpoolFates.FailedMessagesBackOff | submission/disk_spool.go:86-123 | In every run with any faults a message that failed and is kept is due one delay after it was sent, and no poll that scans it before then attempts it or changes it. |
| SpoolBound.SpoolSizeBound | submission/disk_spool.go:325-361 | In every interleaving of submitters and pollers a listable directory never holds more than spoolMax files and one for each submitter. |
| SpoolBound.SpoolSizesExactly | submission/disk_spool.go:331-334 | The reachable sizes are exactly those up to spoolMax plus the number of submitters. |
| SpoolBound.UnlistableHasNoLimit | submission/disk_spool.go:253-260 | While listing fails every size can be reached. |
| Machines.TargetExactly | aagent/machine/machine.go:518-527 | An event leads from a state to another if and only if the last transition that declares it there names it as destination. |
| Machines.FiredExactly | aagent/machine/machine.go:728-748 | Firing performs the last declaring transition if the rate limit lets it, recording and announcing it, and otherwise changes nothing. |
| Machines.RestNeedsNoSleep | aagent/machine/machine.go:505-516 | After a reset the next transition needs no sleep, and the one after it does. |
| Machines.TriggersExactly | aagent/machine/machine.go:257-271 | A foreign event triggers exactly the transitions that subscribe to it. |
| Machines.TriggersAreInOrder | aagent/machine/machine.go:257-271 | Triggers come in declaration order, each transition as often as it subscribes. |
| Machines.Machine.KnownStates | aagent/machine/machine.go:767-798 | Lists every state the manifest mentions, each once, filled or cached. |
| Machines.Machine.KnownTransitions | aagent/machine/machine.go:756-764 | Lists the names of all transitions in order. |
| Machines.ValidateStates | aagent/watchers/watcherdef.go:47-65 | Fails if and only if a matched state is not valid, naming one. |
| Machines.ValidateTransitions | aagent/watchers/watcherdef.go:68-88 | Fails if and only if a non-empty transition of the watcher is not valid, naming one. |
| Machines.Machine.Validate | aagent/machine/machine.go:571-610 | Accepts exactly the manifests whose watchers name declared states and transitions only and whose required parts are there. |
| Machines.WellFormedExactly | aagent/watchers/watcherdef.go:47-88 | What is accepted, in the fields of the manifest: nothing missing, watchers that look for known states, name declared transitions, and announce themselves at most once a minute. |
| Machines.Machine.BuildFSM | aagent/machine/machine.go:518-568 | The table built by the nested loops answers, for every event and state, what the last declaring transition says. |
| Machines.Machine.Setup | aagent/machine/machine.go:613-620 | Only a well-formed manifest gets a state machine, in its initial state. |
| Machines.Machine.Transition | aagent/machine/machine.go:728-748 | Performs the declared transition unless the event is empty, undeclared here, or its rate limit sleep is interrupted. |
| Machines.Machine.BackoffTransition | aagent/machine/machine.go:707-725 | Counts the transition unless its sleep is interrupted; only the first after a reset needs no sleep. |
| Machines.Machine.ExternalEventNotify | aagent/machine/machine.go:257-271 | Fires all subscribed transitions one after the other in declaration order. |
| MachineNetwork.MachinesStayLegal | aagent/machine/machine.go:728-748 | In every run of any network, whatever is fired from outside, each machine is in a known state that its own transitions lead to, each from a state it names. |
| MachineNetwork.StateChangesAreDeclared | aagent/machine/machine.go:518-568 | A machine changes state in a step only by a declared transition whose From has the previous state. |
| MachineNetwork.TriggersHaveCauses | aagent/aagent.go:147-155 | What a goroutine fires subscribes to a change that a machine of that name has really performed. |
| MachineNetwork.EveryStateChangeIsAnnounced | aagent/aagent.go:147-155 | Every state change starts one goroutine for each machine, with all that the change triggers there. |
| Backoff.DurationRange | backoff/backoff.go:47-107 | The sleeps for an entry m are exactly those from floor(m/2) to floor(m/2)+m-1, and 0 for 0. |
| Backoff.StartGraceRises | backoff/backoff.go:21-24 | The waits rise by 25, then 250, then 500 milliseconds to five seconds, and stay there. |
| Backoff.DocumentedRangeExactly | backoff/backoff.go:99-107 | The documented range of half to one and a half times the entry holds for every draw if and only if the entry is even. |
| RateLimit.TransitionsAreRateLimited | aagent/machine/machine.go:707-748 | In every run the n'th transition after the first since a reset comes at least the sum of the least sleeps later, and 2.5 seconds after the one before once saturated. |
| RateLimit.LeastDelaySaturated | aagent/machine/machine.go:707-725 | That sum is 14611 ms for the first 19 and 2500 ms for each further transition. |
| RateLimit.LeastSleepsRise | aagent/machine/machine.go:707-725 | The least sleeps before the first 19 transitions, which rise with each, and 2.5 seconds before all further ones. |
| RateLimit.DelaysExactly | aagent/machine/machine.go:707-748 | The delays that runs can show are exactly those from that sum on. |
| RateLimit.FiveSecondsExactly | aagent/machine/machine.go:82-90 | The promised 5 seconds hold exactly for draws of 2500 and more, and runs with 2.5 seconds exist. |
| RateLimit.ExpiresAfterQuiet | aagent/machine/machine.go:707-725 | From the second transition since a reset on the timer expires only a full minute after the last one. |
| RateLimit.QuietResetsExactly | aagent/machine/machine.go:505-516 | For any number of transitions since the last reset, the next reset comes a full minute after the last transition for sure if and only if that transition (re)started the timer and the timer expired after it. |
| RateLimit.ExpiredWhileSleeping | aagent/machine/machine.go:707-725 | After any number of transitions above one a callback can be waiting that expired before the last of them, and reset the counter at the very moment of that transition. |
| RateLimit.FirstTransitionNeedsNoQuiet | aagent/machine/machine.go:707-725 | After the first transition since a reset the counter can be reset at any moment of the following minute. |
| Reconciler.RemovedExactly | aagent/aagent.go:396-418 | Swap-deleting removes exactly the machine of that path and keeps paths distinct. |
| Reconciler.CleanedExactly | aagent/aagent.go:341-365 | Cleaning removes exactly the machines that are neither plugins nor on disk. |
| Reconciler.PassExactly | aagent/aagent.go:269-365 | After one pass exactly the plugins, the directories that are neither hidden nor temporary, load and are not owned by a plugin, at their current manifest, and the old machines at other existing paths run. |
| Reconciler.TickExactly | aagent/aagent.go:320-393 | A tick always cleans, and loads only from a directory that can be listed. |
| Reconciler.SecondPassChangesNothing | aagent/aagent.go:269-365 | Over an unchanged disk a second pass changes nothing, not even the order. |
| ReconcilerRuns.AddedKeepsDistinctExactly | aagent/aagent.go:212-251 | Adding one machine keeps the path a key if and only if its path is fresh. |
| ReconcilerRuns.PathIsAKey | aagent/aagent.go:212-394 | In every run, with the lock taken anew for each search, deletion and addition, any disk at each step and plugins loaded at any time, the path is a key and a loaded plugin stays, if plugins are loaded at free paths. |
| ReconcilerRuns.PluginIsSafeExactly | aagent/aagent.go:212-251 | Loading a plugin leaves the path a key for good if and only if no machine has the path and none is just being loaded from it. |
| ReconcilerRuns.FreshPathsAreNotEnough | aagent/aagent.go:281-311 | For any path there is a run whose plugins are loaded at fresh paths only and that ends with two machines of one path. |
| ReconcilerRuns.StepsMakeThePass | aagent/aagent.go:320-394 | Over an unchanged disk and with no plugin loaded meanwhile there is a run of steps from a collection on that makes one clean-and-load pass. |
| ReconcilerRuns.UndisturbedStepsAreThePass | aagent/aagent.go:320-394 | Every run of steps over that disk and its eligible entries, from the collection to the end of the pass, leaves exactly the machines of one clean-and-load pass. |
| Reconciler.CleaningKeepsTheNumber | aagent/aagent.go:341-418 | Of each path cleaning deletes as many machines as are gone from disk, for every list. |
| Reconciler.CleaningKeepsTheFirst | aagent/aagent.go:341-418 | If no other gone machine comes before, cleaning keeps exactly the first machines of a path. |
| Reconciler.PluginSurvivesExactly | aagent/aagent.go:341-418 | Then the plugin of a path survives if and only if at least as many machines of its path follow it as are gone. |
| Reconciler.FollowersDoNotDecide | aagent/aagent.go:396-418 | When another machine is deleted before, swapping changes the order and that count decides neither way. |
| Reconciler.PluginIsSafeInAnyOrderExactly | aagent/aagent.go:341-418 | A plugin survives cleaning whatever the order of the machines if and only if no gone machine has its path. |
| Reconciler.DuplicatePathLosesThePlugin | aagent/aagent.go:396-418 | With a path in use twice cleaning can remove the plugin and keep the stale machine. |
| Reconciler.AAgent.FindMachine | aagent/aagent.go:420-457 | Finds the first machine of a path. |
| Reconciler.AAgent.DeleteByPath | aagent/aagent.go:396-418 | Swap-deletes the last machine of a path, and fails if and only if there is none. |
| Reconciler.AAgent.LoadFromSource | aagent/aagent.go:269-318 | The loop reloads, keeps or loads entry by entry. |
| Reconciler.AAgent.Clean | aagent/aagent.go:341-365 | Collects the targets first and deletes them one by one. |
| Reconciler.AAgent.TickOnce | aagent/aagent.go:380-393 | A tick cleans, then loads if the directory can be listed. |
| LockOrder.DeadlocksExactly | aagent/aagent.go:341-357 | The lock of the agent can become free again if and only if the cleaner does not hold it with a machine still to be stopped whose lock is held by who waits for it, will have to, or hangs, or whose watchers take that lock again when deleted, and no listing holds it with a machine whose watchers hang; with and without the host being stopped. |
| LockOrder.DeadlockArisesExactly | aagent/machine/machine.go:672-748 | A step leads into that deadlock if and only if, on a machine still to be stopped, it begins or wakes a transition that will notify and cannot be interrupted, hangs its notification, begins a lookup or creates a re-entering watcher, or hangs a machine still to be listed, or starts cleaning or listing such a machine. |
| LockOrder.DeadlockIsReachable | aagent/aagent.go:147-149 | One machine that changes state while it is being cleaned up reaches it. |
| LockOrder.ReentryLocksUp | aagent/watchers/metricwatcher/metric.go:112-120 | Without any transition, the cleaner locks itself up on a gone machine with a watcher whose deletion asks its machine for something. |
| LockOrder.LookupLocksUp | aagent/machine/machine.go:273-282 | Without any transition, a gone machine whose watcher looks up a foreign state reaches it. |
| LockOrder.SleepLocksUp | aagent/machine/machine.go:707-748 | A gone machine whose transition sleeps reaches a lock-up that only stopping the host can end. |
| LockOrder.ListingLocksUp | aagent/info.go:25-45 | Without cleaning, a listing of all states reaches it when a watcher does not take its notification. |
| SrvCache.Cache.LookupSRV | srvcache/cache.go:43-59 | Serves a fresh entry with addresses, asks the resolver otherwise, and stores every successful answer anew. |
| SrvCache.Cache.Retrieve | srvcache/cache.go:87-111 | Yields a fresh entry, and drops a stale one. |
| SrvCache.HitExactly | srvcache/cache.go:43-59 | A lookup is served from the cache if and only if the last lookup of its query was answered with addresses less than maxAge before. |
| SrvCache.CacheServesOnlyAddresses | srvcache/cache.go:43-59 | A failure or an answer without addresses never comes from the cache. |
| SrvCache.AnswersComeFromTheResolver | srvcache/cache.go:43-111 | Every successful answer is the latest successful answer of the resolver for its query, and all gaps between lookups since then are below maxAge. |
| SrvCache.AnswersOfAnyAge | srvcache/cache.go:43-59 | With any positive maxAge answers of any age are served. |
| SrvCache.FixedTermExactly | srvcache/srvcache.go:5-8 | The documented fixed term holds if and only if maxAge is not positive, that is, if nothing is cached. |

## Left out

- Token parsing, Ed25519, hex, base64, digests and CIDR matching: library code, arbitrary functions here.
- The protocol v1 and v2 packages and JSON: messages are records; publishing by a connector takes encoding to succeed, egest takes it as an outcome.
- NATS connections, reconnects, subscriptions and JetStream: an attempt to publish succeeds or fails.
- Message caching, TTL and filter checks of `message/message.go` and `protocol/filter.go`: short conjunctions that no theorem needs.
- A node that is itself federated: the round trip is about unfederated nodes.
- Publishing.PublishRefinesExactly: is about messages with a reply-to and without custom target, because the request transformer refuses a message without reply-to and a custom target bypasses the federations.
- Publishing.FederatedRefinesDirect: is about connections on which no attempt fails, because the first failure ends direct publishing but only the batch of federated publishing; what failures do is in `PublishingFailures` and the Publishing lemmas on errors.
- Collectives, agents, organizations and federations whose names contain dots or wildcards.
- The client allow list in the token branch of the default handler: its flag is only ever set together with client permissions, so that branch does not exist here.
- Machines.Machine.BackoffTransition: takes the outcome of the sleep as given and has no timer; the time a transition takes and the timer are in `RateLimit`.
- Reconciler.PluginSurvivesExactly: gives the count of followers only for lists in which no other gone machine comes before, because each deletion swaps the last machine forward; for all lists there are `FollowersDoNotDecide` and `PluginIsSafeInAnyOrderExactly`.
- Spool.DirectorySpool.ScanDir: does not model files that vanish between listing and inspection, nor a write that truncates a file before it fails.
- The five priorities of the spool: one priority directory is modelled, and every message is in the directory of its priority.
- SpoolBound.SpoolSizeBound: counts the entries at one instant, because a listing that overlaps renames is not modelled.
- Lower-casing of header names beyond ASCII.
- Callbacks of the state machine library on self transitions: whether listeners are told is arbitrary.
- Loading and unloading of machines during a run of `MachineNetwork`: the network is fixed.
- The watchers' own locks: `LockOrder` records only that deleting a watcher may take the lock of its machine again, and that a notification may never return.
- Watcher types, data files, graphs, HTTP listeners, notifier plugins and splay of the agents.
- Reconciler.AAgent.FindMachine: finds by path only, because name, version and instance id are never used by the reconciler.
- Reconciler.AAgent.LoadFromSource: sees one disk content during a pass, and a hash stands for the contents it was taken from.
- Overlapping SRV lookups: lookups are sequential.
- `backoff.Policy.For`: it need not terminate.
- Elections, governors, lifecycle events, statistics, configuration and everything under `cmd/`.
