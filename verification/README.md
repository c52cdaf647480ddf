# Registry server: a verified model

The registry keeps nodes, networks, memberships, trust pairs and handshakes in redundant
maps behind locks, logs some operations to a write-ahead log, and now and then writes a
snapshot. This project models those parts in Dafny and proves what they keep over whole
runs.

- `Registry` holds the server state and the effect of every locked handler as a function.
  `RegistryInvariants`, `RegistrySteps` and `RegistryRuns` prove what every step and every
  run keeps, `RegistryIdentity` and `RegistryInvites` what holds of identities and invite
  inboxes. `RegisterLaws`, `NodeLaws`, `MembershipLaws`, `RoleLaws` and `InviteLaws` say
  from outside what a step does: who is answered what, and exactly which nodes, members,
  networks, roles and invites there are after it, in terms of the request and the state
  before. `RegistryLimits` and `PreAssigned` give promises that fail, each with a witness
  and the exact condition. `RegistryServer` is the server object whose methods, with their
  loops over slices and maps, are proved to have those effects.
- `Overlap`, `DeltaReplay`, `WalFile`, `Loading` and `Recovery` lead from the framing of log
  records and the loading of a snapshot to the crash-recovery theorem. `TornRuns` follows
  the server beyond a torn record. `ReplayLaws` says from outside what an entry does,
  `RecoveredNames`, `RecoveredKeys` and `RecoveredTerms` what the indices, details and
  networks are after a restart; `RecoveryLimits`, `LostKey` and `SkippedEntries` say what
  does not come back, and `FreshStart` is the start without a snapshot.
- `Json`, `Records`, `Printers`, `SortedKeys`, `NodeRecord`, `SnapshotCodec` and
  `SnapshotEncoder` are the hand-written snapshot encoder, the standard one it must agree
  with, a reader for its output, and the loader's checksum check.
- `EncodeCache`, `StaleHits` and `StaleRuns` are the cache of encoded trust pairs.
- `RateLimiter`, `TrustPairs`, `Handshake`, `DeltaLog`, `SaveLoop` and `Reaper` are the
  components of those names; `RateLaws` and `RelayLaws` say exactly which requests the
  first and the third let through, by counting earlier ones.

`dafny verify dfyconfig.toml` checks the project.

Where the code does not do what it promises, the code is modelled as it is:

- A reclaim by owner gives the node only the backbone, so a network that still lists the
  id lists a live node that does not point back (`StepTightExactly`, `OwnerReclaimCutsOff`).
- That node can join the network again and is then listed twice (`RejoinedIsTwice`).
- The administrator's role change has no backbone check and the reaper leaves roles alone,
  so a backbone role can outlive its member (`RanksListedExactly`, `RankOutlivesMember`).
- A role assigned in advance is given at the join whoever owns the network, so a network can
  have two owners (`JoinAssignedExactly`, `TwoOwners`).
- A poll stores what is left of an inbox even if that is nothing (`StepEmptiesExactly`).
- The reaper's deletion uses the hostname its scan saw; a rename in between breaks the
  hostname index (`ReapSeenExactly`, `RenameOutrunsReaper`).
- A start without a snapshot replays the log before it creates the backbone, so nodes
  registered before the first flush come back outside the backbone's member list
  (`FreshRestartExactly`, `FirstNodeCutOff`).
- Loading gives roles to a network saved without any, so a cleared role comes back
  (`CrashRecovers`, `RolesMadeUp`); a rename is not logged, so two nodes can come back with
  one name (`RecoveredNamesExactly`, `NameComesBackTwice`); an old registration in the log
  can take the key of a node the snapshot already has, so a live node is not found by its
  own key (`RecoveredKeysExactly`, `LiveNodeNotFound`); a node that is only in the log comes
  back without its relay-only flag (`RecoveredDetails`); what is recorded between a flush's copy and its
  truncation is lost (`WindowIsLost`).
- Replay stops at the first entry that fails, although the comment on it says it goes on
  (`SkipsExactly`, `GoodEntryLost`); entries over 1 MiB can be appended but end the replay
  (`ReadsAllExactly`), and a torn record left in the file hides what is appended behind it
  (`DoneSinceIsLost`).
- The encoding cache may serve a list that is not held: whether it does is decided by the
  parity of the changes to each pair (`HitExactly`), not by revisions
  (`RevisionDoesNotDecide`), and overlapping calls can be served a list that never was
  (`OverlapServesTornScan`).
- An open breaker reports success without saving (`BreakerLosesExactly`), and a flush on
  demand can write an older copy over the loop's snapshot (`OldCopyOverwrites`).
- `Since` answers nil one number too early (`NeedlessResync`). A restart drops
  authorisations whose request was polled and restores ones that were spent
  (`RestoreExactly`, `ApprovedTwiceExactly`).

What the model takes for granted: a handler that takes several locks in turn is one step,
and signature, token and role checks made before the lock are boolean arguments. The order
in which a map is ranged over is arbitrary. Nodes and networks, which the server shares by
reference, are map values. Times are integers in the registry and reals in the limiter.

## Model

| member | source | states |
|---|---|---|
| `RegistryRuns.StepKeepsInv` | directory/directory.go:825-1108 | Every locked handler (registration on all its paths, directory, membership, role and admin operations) keeps the whole invariant: a live node's networks exist and list it, without duplicates; every id in a map, list, role table or index was allocated; the hostname index is the exact inverse of live hostnames; no network has two owners and role keys are members off the backbone. The converse of agreement and duplicate-free member lists survive too unless an owner-based reclaim cuts a node off. |
| `RegistryRuns.RunKeepsInv` | membership/membership.go:235-600 | The same over every run of enabled steps from any state that satisfies it. |
| `RegistryRuns.InitialInv` | server_lifecycle.go:1288-1298 | The state of a fresh server satisfies the invariant and the converse half. |
| `RegistryRuns.StepTightExactly` | directory/directory.go:998-1055 | From a state where listed live nodes point back, a step loses that exactly when it is an owner-based reclaim of an id some non-backbone network still lists; a guard that can be read off the state before the call. |
| `RegistryInvariants.OwnerReclaimTightExactly` | directory/directory.go:1021-1054 | The reclaim by owner keeps the converse half if and only if no network but the backbone lists the reclaimed id. |
| `RegistryLimits.ReapedIsReachable` | server_lifecycle.go:572-600 | The witness state below is reached from a fresh server by a registration, a network creation and a reap. |
| `RegistryLimits.OwnerReclaimCutsOff` | directory/directory.go:1021-1054 | In that reachable state a reclaim by owner with a new key leaves a live node that a network lists and that does not point back. |
| `RegistryInvariants.RegisterKeeps` | directory/directory.go:825-1108 | Each branch of registration (ratchet rejection, refresh, reclaim by key, reclaim by owner, allocation) keeps the invariant. |
| `RegistryInvariants.KeyReclaimKeeps` | directory/directory.go:951-996 | A reclaim by key rebuilds the node's network list from the scan so that agreement holds in both directions. |
| `RegistryInvariants.AssignRolesKeeps` | membership/membership.go:678-695 | The loop that hands out roles leaves at most one owner, gives only members a role and every member one. |
| `RegistrySteps.DeregisterKeeps` | directory/directory.go:1936-1990 | Deregistration keeps the invariant and the converse half. |
| `RegistrySteps.ReapKeeps` | server_lifecycle.go:572-600 | A reap (scan and deletion as one step) keeps the invariant although it leaves the other memberships and both identity indices. |
| `RegistrySteps.CreateKeeps` | membership/membership.go:235-356 | Creation keeps the invariant; the new id is one no network had. |
| `RegistrySteps.JoinKeeps` | membership/membership.go:359-450 | Joining keeps the invariant in both directions. |
| `RegistrySteps.LeaveKeeps` | membership/membership.go:453-545 | Leaving keeps the invariant in both directions. |
| `RegistrySteps.DeleteKeeps` | membership/membership.go:548-600 | After an allowed deletion the network is gone and no live node points at it, and the invariant holds. |
| `RegistrySteps.SetEnterpriseKeeps` | membership/membership.go:648-708 | Turning the enterprise flag on or off keeps the invariant, single ownership included. |
| `RegistrySteps.InviteKeeps` | membership/membership.go:786-902 | Storing an invite keeps the invariant. |
| `RegistrySteps.RespondKeeps` | membership/membership.go:955-1050 | Accepting or declining an invite keeps the invariant. |
| `RegistrySteps.KickKeeps` | membership/membership.go:1053-1146 | Kicking keeps the invariant, and its two removals commute with those of leaving. |
| `RegistrySteps.ChangeRoleKeeps` | membership/membership.go:1149-1246 | Promotion and demotion keep the invariant. |
| `RegistrySteps.TransferKeeps` | membership/membership.go:1249-1311 | Transfer keeps at most one owner whichever owner the map range stopped at. |
| `RegistrySteps.AdminKickKeeps` | server_membership_admin.go:92-154 | The administrator's kick, which filters every occurrence, keeps the invariant. |
| `RegistrySteps.AdminSetRoleKeeps` | server_membership_admin.go:165-224 | The administrator's role change keeps the invariant. |
| `RegistrySteps.RotateKeyKeeps` | server_api.go:379-401 | Both key rotations keep the invariant. |
| `RegistrySteps.IndexRotationKeeps` | server_lifecycle.go:756-761 | Re-indexing a rotated key keeps the invariant when the id was allocated. |
| `RegistryLimits.RanksListedExactly` | server_lifecycle.go:582-591 | Role keys are members on every network, backbone included, after a step if and only if the step is not the reap of a node holding a backbone role; needs only that the backbone lists nobody twice. |
| `RegistryLimits.RunRanksListed` | server_membership_admin.go:165-224 | So over every run without such a reap only members hold roles, on the backbone too. |
| `RegistryLimits.StepOnce` | server_lifecycle.go:582-591 | Every step keeps the backbone free of duplicates. |
| `RegistryLimits.RankOutlivesMember` | server_membership_admin.go:165-224 | A registration, the administrator's role change on the backbone and a reap reach a state with a role and no member. |
| `RegistryLimits.ReapSeenExactly` | server_lifecycle.go:576-598 | The deletion phase unindexes the hostname its scan saw; the index stays the inverse of live hostnames if and only if that is the node's current hostname, or the node has none and nobody holds the name. |
| `RegistryLimits.RenamedIsReachable` | directory/directory.go:1806-1822 | A renamed node's state is reached from a fresh server by a registration and a hostname change. |
| `RegistryLimits.RenameOutrunsReaper` | server_lifecycle.go:594-598 | There, a rename between the reaper's scan and its deletion leaves an index entry for a dead node. |
| `RegistryRuns.FastPathRefinesSlow` | directory/directory.go:856-949 | Whenever the fast path is taken it leaves exactly the state the slow path would have left. |
| `RegistryRuns.KeyIsSticky` | directory/directory.go:856-996 | Over any run in which a key is not rotated away, it stays bound to the same id and a registration with it is refused or answered with that id. |
| `RegistryRuns.KeySurvivesDeparture` | server_lifecycle.go:592-593 | After a deregistration or a reap the same key reclaims the same id. |
| `RegistryRuns.NeverReused` | directory/directory.go:1057-1070 | An allocated id is one that no node, member list, role table or index held at any earlier point of the run, and nothing is allocated once the counter has wrapped. |
| `RegistryRuns.StepKeepsOwner` | membership/membership.go:1249-1311 | An enterprise network with exactly one owner keeps exactly one through every step but that owner's deregistration, the removal of the flag and the deletion of the network. |
| `RegistryRuns.RunKeepsOwner` | membership/membership.go:1053-1311 | The same over whole runs. |
| `RegistryIdentity.RunGrows` | directory/directory.go:912-949 | As long as a node stays live, the owner it was bound to and its verified signature stay, whatever else runs. |
| `RegistryIdentity.RatchetHolds` | directory/directory.go:838-854 | After any run in which the node of a signature-verified key stays live and the key is not rotated away, an unsigned registration with that key is refused and changes nothing. |
| `RegistryIdentity.StepKeepsOwnerExactly` | directory/directory.go:912-996 | A step keeps the node the index names for an owner if and only if it is not a registration of another known key in the owner's name that takes the owner over. |
| `RegistryIdentity.OwnerIsSticky` | directory/directory.go:912-1019 | So over every run without such a registration the owner stays with the same node. |
| `RegistryIdentity.OwnerHolds` | directory/directory.go:998-1019 | After any such run in which the owner's node stays live, a registration in the owner's name with an unknown key is refused and changes nothing. |
| `RegisterLaws.AnswerExactly` | directory/directory.go:825-1108 | A registration is refused exactly for an undecodable key, an unsigned request for a live key that has signed, an unknown key in the name of a live node's owner, or a full or exhausted registry, and then changes nothing; otherwise it is answered the id of the key's node, of the owner's gone node, or the next id. |
| `RegisterLaws.AnsweredIsStored` | directory/directory.go:856-1108 | The answered id is live, its node last seen now and as requested (a live one keeps its key, owner and proof), key and owner lead to it, and no other node changes. |
| `RegisterLaws.AskedAgain` | directory/directory.go:856-949 | The same key, with proof of possession, is answered the same id again. |
| `RegisterLaws.NewcomerIsAnswered` | directory/directory.go:1057-1108 | An unknown key with a free owner is answered the next id as long as there is room. |
| `NodeLaws.NodesExactly` | directory/directory.go:2043-2095 | After any step, who is live, and the hostname, key, owner, last-seen time, endpoint and signature flag of every node, from the request and the state before: only an answered registration, a heartbeat and a rotation move the last-seen time, and only the first stores an endpoint. |
| `NodeLaws.KeyIndexExactly` | server_lifecycle.go:756-761 | The whole key index after any step: an answered registration adds its key, a rotation replaces one, departures leave it alone. |
| `NodeLaws.OwnerIndexExactly` | directory/directory.go:912-1108 | The whole owner index after any step: only an answered registration for a node without an owner adds to it. |
| `NodeLaws.NodeCounterExactly` | directory/directory.go:1057-1070 | The node counter moves by one, modulo 2^32, exactly when an unknown key is given a new id. |
| `NodeLaws.RunKeepsKeys` | directory/directory.go:825-1108 | Over every run without rotations, every live node's key leads to that node. |
| `NodeLaws.RotationKeepsExactly` | server_lifecycle.go:756-761 | A rotation keeps that if and only if no other live node holds the new key. |
| `NodeLaws.KeyFindsNode` | directory/directory.go:856-949 | With it, a signed registration under a live node's key refreshes that node and is answered its id. |
| `MembershipLaws.ListedExactly` | membership/membership.go:359-450 | After any step a network lists exactly those it listed who did not exit and those who entered: by founding it, by an authorised join of an open network or of a token network with its token, by accepting an invite at most thirty days old that waited for them, each with room, or, on the backbone, by registering. Exits are leaving, being kicked (never the owner, an admin not by an admin), deletion, deregistration and, from the backbone, being reaped; a node listed twice loses one of the two. |
| `MembershipLaws.MembersEntered` | membership/membership.go:359-1050 | Over every run, whoever a network lists at the end and not at the beginning has entered it on the way. |
| `MembershipLaws.RunWithinLimit` | membership/membership.go:409-411 | Over every run no network grows beyond its positive member limit. |
| `MembershipLaws.GrowsWithRoom` | membership/membership.go:409-411 | A step lengthens a member list off the backbone by at most one, and only where there is room. |
| `MembershipLaws.RejoinedIsTwice` | membership/membership.go:413-426 | A node its owner's reclaim cut off from a network can join it again and is then listed twice. |
| `MembershipLaws.NetworksExactly` | membership/membership.go:235-356 | Which networks exist after any step and on what terms: a founded one has the name, rule, token and policy asked for and its founder as owner; the others keep name, rule, token and limit, and only the enterprise flag can change. |
| `MembershipLaws.NetworkCounterExactly` | membership/membership.go:307-335 | The network counter moves by one, modulo 2^16, exactly when a network is founded. |
| `RoleLaws.RolesExactly` | membership/membership.go:1053-1311 | The role of every node on every network after any step: founders own, joiners and accepted guests are members, promotion and demotion move between member and admin, a transfer leaves the former owner an admin, the flag hands out or clears roles, and leaving, a kick, deletion and deregistration end them while a reap does not. |
| `RoleLaws.AssignedAt` | membership/membership.go:678-695 | The role loop keeps every role, makes the first member without one the owner if there is none, and the others members. |
| `RegistryInvites.StepKeepsInvites` | membership/membership.go:786-1146 | Every step, polls included, keeps the inboxes in order: at most one hundred invites, one per network, each to a network that exists. |
| `RegistryInvites.RunKeepsInvites` | membership/membership.go:786-1146 | The same over every run. |
| `InviteLaws.InvitesExactly` | membership/membership.go:786-1146 | Which invites wait for whom after any step: one sent by an operator, owner or admin to a live node that is not on the network, has no invite to it and fewer than a hundred; less those a poll finds older than thirty days, an answer uses up, or a leave, kick, deregistration or deletion withdraws. |
| `InviteLaws.SentIsLast` | membership/membership.go:870-890 | A new invite waits behind those that were there. |
| `RegistryInvites.PollClears` | membership/membership.go:905-952 | A poll leaves exactly the invites that have not expired and changes nothing else. |
| `RegistryInvites.StepEmptiesExactly` | membership/membership.go:905-952 | From a state without empty inboxes, a step leaves an empty one if and only if it is an authorised poll of an inbox whose invites have all expired. |
| `RegistryInvites.LatePollEmpties` | membership/membership.go:905-952 | Two registrations, a network, an invite and a poll after its lifetime reach an empty inbox. |
| `RegistryInvites.LeaveClears` | membership/membership.go:508-535 | After leaving, the node holds no invite to the network and nobody holds one it sent for it. |
| `RegistryInvites.KickClears` | membership/membership.go:1107-1132 | The same after being kicked. |
| `RegistryInvites.DeregisterClears` | server_lifecycle.go:989-1004 | After deregistration the node's inbox and every invite it sent are gone. |
| `RegistryInvites.DeleteClears` | membership/membership.go:571-584 | After a deletion no invite to the network is left. |
| `RegistryInvites.RespondClears` | membership/membership.go:1025-1035 | An answered invite is gone, and declining changes nothing else. |
| `PreAssigned.JoinAssignedExactly` | identity.go:211-244 | A join followed, in the same locked section, by a role assigned in advance keeps the invariant if and only if it does not make an owner of the node while another node owns the network. |
| `PreAssigned.TwoOwners` | identity/provision.go:246-268 | Two registrations, a network and a join with the owner's role assigned in advance reach a network with two owners. |
| `PreAssigned.FirstMatchExactly` | identity.go:211-244 | The role is that of the first assignment to the external id; there is none exactly if the id is empty or nothing matches, and any name but owner and admin means member. |
| `PreAssigned.AssignedRole` | identity/provision.go:246-268 | Such a join does what the join does, with the assigned role in place of a plain member's. |
| `PreAssigned.SharedIsReachable` | membership/membership.go:235-356 | The state before that join is reached from a fresh server. |
| `RegistryServer.CutFirst` | server_lifecycle.go:892-909 | The search-and-cut loop removes exactly the first occurrence and says whether there was one. |
| `RegistryServer.FilterOut` | server_membership_admin.go:125-133 | The filter loop removes every occurrence. |
| `RegistryServer.FilterEvery` | membership/membership.go:522-535 | The loop over all inboxes keeps exactly the invites that pass and no empty inbox. |
| `RegistryServer.GiveRoles` | membership/membership.go:678-695 | The role loop gives the first unlisted member the owner's role only if nobody holds it. |
| `RegistryServer.Lookup` | membership/membership.go:977-990 | The search for an invite finds the first one to the network. |
| `RegistryServer.OwnerOf` | membership/membership.go:1272-1281 | The range over roles finds an owner, or reports zero only when node zero is the only owner there could be. |
| `RegistryServer.Server.constructor` | server_lifecycle.go:1288-1298 | A fresh server is the initial state and valid. |
| `RegistryServer.Server.RemoveNodeNetwork` | server_lifecycle.go:892-909 | The callback's loop has the specified effect and reports whether the network was listed. |
| `RegistryServer.Server.AddNodeToBackbone` | server_lifecycle.go:1017-1026 | Adds the node to the backbone once. |
| `RegistryServer.Server.ScanNetworkMemberships` | server_lifecycle.go:1027-1042 | Returns each non-backbone network listing the node exactly once, in whatever order the map is ranged. |
| `RegistryServer.Server.ClaimHostname` | directory/directory.go:334-352 | Sets the hostname unless it is empty or another node holds it, moving the index entry with it. |
| `RegistryServer.Server.HandleReRegister` | directory/directory.go:825-1108 | The answer is none exactly for the written-out reasons to refuse, and then nothing changes; otherwise it is the id of the key's node, of the owner's gone node or the next one, and that node is then live, as requested, and indexed under key and owner. The server stays valid. |
| `RegistryServer.Server.HandleSetHostname` | directory/directory.go:1774-1838 | The whole new state; on success the node bears the name, otherwise nothing changed. |
| `RegistryServer.Server.HandleHeartbeat` | directory/directory.go:2043-2089 | The whole new state: only the last-seen time of a known, authorised node moves. |
| `RegistryServer.Server.RemoveFromNetworks` | server_lifecycle.go:971-988 | The loop over the node's own list removes its entry and role from each existing network, in order. |
| `RegistryServer.Server.HandleDeregister` | directory/directory.go:1936-1990 | The whole new state: memberships, roles, invites sent and received, hostname entry and node are gone; identity indices stay. |
| `RegistryServer.Server.DeleteStale` | server_lifecycle.go:577-602 | One deletion re-checks staleness, cuts only the backbone entry and unindexes the hostname the scan saw. |
| `RegistryServer.Server.DeleteCandidates` | server_lifecycle.go:567-607 | The deletion phase is the sequence of those deletions, whatever changed since the scan. |
| `RegistryServer.Server.UpdateNodeKey` | server_api.go:379-401 | Replaces the key only if the expected one is still there and returns the one replaced. |
| `RegistryServer.Server.OnKeyRotated` | server_lifecycle.go:756-761 | Moves the index entry from the replaced key to the new one. |
| `RegistryServer.Server.HandleCreateNetwork` | membership/membership.go:235-356 | The whole new state, including the refusals and the wrap of the 16-bit counter. |
| `RegistryServer.Server.HandleJoinNetwork` | membership/membership.go:359-450 | Succeeds exactly for an authorised join of an open network, or of a token network with its token, that has room and does not list the node; the node is then a member with the role assigned in advance, if any, and the server stays valid unless that makes a second owner. |
| `RegistryServer.Server.ApplyPreAssignment` | identity/provision.go:246-268 | The search applies the role of the first assignment to the node's external id, and nothing if there is none. |
| `RegistryServer.Server.HandleLeaveNetwork` | membership/membership.go:453-545 | Succeeds exactly when leaving is allowed; the whole new state with both invite clean-ups. |
| `RegistryServer.Server.HandleDeleteNetwork` | membership/membership.go:548-600 | Succeeds exactly for an authorised, existing, non-backbone network; the whole new state. |
| `RegistryServer.Server.HandleSetNetworkEnterprise` | membership/membership.go:648-708 | Clears all roles with the flag, or gives every member without one a role; nothing else changes and the server stays valid. |
| `RegistryServer.Server.HandleInviteToNetwork` | membership/membership.go:786-902 | The whole new state: one invite per network and target, at most one hundred per inbox. |
| `RegistryServer.Server.HandlePollInvites` | membership/membership.go:905-952 | The whole new state and the invites returned, which are those that have not expired, in order. |
| `RegistryServer.Server.HandleRespondInvite` | membership/membership.go:955-1050 | The whole new state; after success no invite to the network is left, otherwise nothing changed. |
| `RegistryServer.Server.HandleKickMember` | membership/membership.go:1053-1146 | The whole new state; the owner cannot be kicked and an admin not by an admin. |
| `RegistryServer.Server.ChangeMemberRole` | membership/membership.go:1149-1246 | Changes the role exactly when the expected one is held. |
| `RegistryServer.Server.HandleTransferOwnership` | membership/membership.go:1249-1311 | Whichever owner the range found becomes admin and the named member owner, or nothing changes; the server stays valid. |
| `RegistryServer.Server.AdminKickMember` | server_membership_admin.go:92-154 | Refuses the owner and non-members; otherwise the member entry, the role and every occurrence in the node's own list are gone and nothing else changes; the server stays valid. |
| `RegistryServer.Server.AdminSetMemberRole` | server_membership_admin.go:165-224 | Sets the role of a listed member that is not the owner and changes nothing else; the server stays valid. |
| `RegistryServer.Server.ApplyRegisterDelta` | apply_delta.go:152-216 | A known id is left alone; an unknown one becomes the node the entry describes, unsigned and not relay-only, and its key and owner lead to it. The counter never falls back. |
| `RegistryServer.Server.ApplyDeregisterDelta` | apply_delta.go:218-250 | The replayed deregistration, which unlike the live one also deletes the identity indices. |
| `RegistryServer.Server.ApplyCreateDelta` | apply_delta.go:252-302 | The replayed creation, which leaves an existing network alone. |
| `RegistryServer.Server.ApplyDeleteDelta` | apply_delta.go:304-331 | The replayed deletion with its nested removal loops. |
| `RegistryServer.Server.ApplyMembershipDelta` | apply_delta.go:333-392 | The replayed join and leave, each idempotent on its own. |
| `RegistryServer.Server.ApplyKeyRotationDelta` | apply_delta.go:394-434 | The replayed rotation. |
| `RegistryServer.Server.ApplyOne` | apply_delta.go:127-150 | Dispatch: fails exactly on an entry of a known type whose payload or key does not decode, or which lacks an id or a key, and then changes nothing; unknown types are skipped. |
| `RegistryServer.Server.ReplayLog` | apply_delta.go:109-120 | The loop has the effect the recovery theorems are about: the entries in order up to the first that fails. |
| `RegistryServer.Server.Load` | server_persist.go:784-920 | The loops over nodes and networks, in whatever order, build the loaded state: indices rebuilt from the nodes, roles made up for networks saved without any, saved key bindings in the gaps. |
| `SkippedEntries.SkipsExactly` | apply_delta.go:105-120 | Replay applies the entries that can be applied, as its comment promises, if and only if no such entry follows one that cannot. |
| `SkippedEntries.KeptWithout` | apply_delta.go:105-120 | Without such an entry the replayed state is that of all the good entries, from every state. |
| `SkippedEntries.GoodEntryLost` | apply_delta.go:152-163 | Any entry that fails, followed by a good registration: the good one is lost. |
| `Overlap.ReplayIdempotent` | apply_delta.go:127-434 | Replaying a whole recorded log on the state it led to changes nothing. |
| `Overlap.OverlapReplay` | apply_delta.go:127-434 | For every recorded log and every prefix, replaying the whole log on the state after the prefix gives the state after the log: nodes, keys, member and network sets, roles and counters. |
| `DeltaReplay.EntryCommutes` | apply_delta.go:152-434 | Applying an entry to the full state and then looking at the projection is the same as stepping the projection. |
| `DeltaReplay.LogCommutes` | apply_delta.go:109-150 | The same for a whole log. |
| `Recovery.StepRefines` | server_lifecycle.go:819-845 | Each live handler changes the projection exactly as the entry it records does, and not at all if it records nothing. |
| `Recovery.RecordedIsRecordable` | apply_delta.go:73-103 | What a live handler records is an entry the overlap theorem covers, in the state it was recorded in. |
| `Recovery.ProjectWellFormed` | server_persist.go:586-623 | The projection of a valid state is one the overlap theorem starts from. |
| `Recovery.DecodeEncode` | wal/wal.go:162-273 | Decoding the encoded entries gives them back, for any faithful codec. |
| `Loading.LoadedKeeps` | server_persist.go:784-920 | A snapshot of a valid state in which listed nodes point back loads into such a state, whatever the order of the range over nodes. |
| `Loading.LoadedHosts` | server_persist.go:845-853 | The hostname index comes back as it was. |
| `Loading.LoadedProjects` | server_persist.go:888-901 | Loading changes nodes, keys, memberships, roles and counters only by the roles it makes up. |
| `Loading.PaintReplay` | apply_delta.go:127-434 | Replay carries made-up roles through without looking at them. |
| `Recovery.EventKeepsMachine` | server_persist.go:586-623 | Operations, a flush in its three stages (copy, rename, truncation) with operations between them, and crashes with restart keep the relation between memory, snapshot and log. |
| `Recovery.CrashRecovers` | server_lifecycle.go:1264-1298 | A crash at any moment restarts into the live state up to made-up roles, and into exactly the live state if and only if no member whom the snapshot lists on a network without roles is still there without one. |
| `Recovery.TornAppendRecovers` | wal/wal.go:162-273 | A crash that tears the record being appended, at any byte, restarts as a crash before that operation would. |
| `Recovery.WindowIsLost` | server_persist.go:586-623 | Truncating although something was recorded since the copy loses exactly that. |
| `Recovery.RecoveryTheorem` | server_lifecycle.go:1264-1298 | All of it after every run of operations, flushes and earlier crashes from a loaded snapshot; the recovered state is again one the theorem starts from. |
| `TornRuns.TornRunsRecover` | wal/wal.go:211-273 | Runs that go on after a crash tore a record, with a flush between any two tears: once that flush has ended, a crash recovers the live state as ever; until then it recovers what the tear left, as long as replay does not reach beyond the torn record. |
| `TornRuns.HappeningKeeps` | server_persist.go:586-623 | Operations, flush stages, crashes and tears keep the relation between memory and disk; a completed flush restores it in full, whatever the log held. |
| `TornRuns.DoneSinceIsLost` | wal/wal.go:239-254 | Everything logged behind a torn record is lost in another crash while it is shorter than what that record announced. |
| `RecoveryLimits.RolesMadeUp` | server_persist.go:888-901 | Register, create a network, clear its enterprise flag, flush, crash: the member comes back as owner where it had no role. |
| `RecoveryLimits.LateNodeLost` | server_persist.go:618-623 | A node that registers between a flush's copy and its truncation is gone after a crash. |
| `RecoveredNames.RecoveredNamesExactly` | apply_delta.go:152-216 | After a restart the hostname index is the inverse of the hostnames if and only if no node that shared a name during the replay is still there. |
| `RecoveredNames.TwoNodesOneName` | apply_delta.go:152-216 | Renames are not logged: replaying the registration of a node under a name another gave up leaves two nodes of that name and a wrong index. |
| `RecoveryLimits.NameComesBackTwice` | apply_delta.go:152-216 | The same as one run of the server from a fresh start: registration, flush, rename, newcomer, crash; the live index is right and the one after the restart is not. |
| `ReplayLaws.EntryNodesExactly` | apply_delta.go:152-434 | Who is live after a replayed entry, every field of every node but its memberships, and where every key and owner then leads: a new node has the entry's key, owner, hostname, address and time, and no relay-only flag. |
| `ReplayLaws.EntryNetworksExactly` | apply_delta.go:252-331 | Which networks exist after a replayed entry, and their name, rule, token, policy and limit. |
| `RecoveredKeys.LoadedKeysExactly` | server_persist.go:846-925 | After loading, every live node's key leads to it if and only if no two share a key, whatever the order of the range. |
| `RecoveredKeys.LoadedOwnersExactly` | server_persist.go:846-850 | Owners likewise, among the nodes that have one. |
| `RecoveredKeys.EntryKeepsKeysExactly` | apply_delta.go:152-434 | A replayed entry keeps every live node findable by its key if and only if no other live node holds the key the entry brings. |
| `RecoveredKeys.RecoveredKeysExactly` | apply_delta.go:152-434 | After a restart every live node is found by its key if and only if the replay loses none: a node is lost when another node with its key is registered, rotated or deregistered, and found again when it is rotated itself. |
| `RecoveredKeys.RecoveredNodeAnswers` | directory/directory.go:856-949 | After a restart a registration with a recovered node's key refreshes that node and is answered its id, signed or not, if and only if the replay has not lost it. |
| `RecoveredKeys.UnsharedKeysRecover` | apply_delta.go:152-434 | If no key in the log is another node's, in the snapshot or the log, every recovered node is found by its key. |
| `RecoveredKeys.RecoveredOwnersExactly` | apply_delta.go:152-250 | After a restart every owner is found if and only if the replay loses none, and an indexed owner is always a live node's: that of a reaped node is forgotten. |
| `RecoveredKeys.RecoveredOwnerRefuses` | directory/directory.go:998-1055 | So after a restart an unknown key in a recovered owner's name is refused unless that node was lost, and no id is reclaimed by owner. |
| `LostKey.LiveNodeNotFound` | apply_delta.go:394-434 | One run of the server from a fresh start: a node rotates its key away, another registers with it, the first leaves, a snapshot is saved, and a crash comes before the log is truncated. The live index is right; after the restart the second node is live and its own key does not find it. |
| `RecoveredTerms.RecoveredNetworks` | apply_delta.go:252-331 | After any run, flushes and crashes included, a restart brings back exactly the live networks, each with the name, join rule, token, policy and limit it has. |
| `RecoveredTerms.RecoveredDetails` | apply_delta.go:152-216 | A live node comes back with the owner, hostname, last-seen time and endpoint the snapshot has of it, or, if it has none, those of its logged registration, never relay-only; unsigned either way. |
| `RecoveredTerms.RecoveredInvites` | apply_delta.go:127-150 | Invites come back as the snapshot has them; nothing in the log sends, answers or withdraws any. |
| `RecoveredNames.NewcomerAccepted` | directory/directory.go:1057-1108 | The live server accepts and records that registration. |
| `FreshStart.FreshRestartExactly` | server_lifecycle.go:1264-1298 | A crash before the first flush: the log is replayed without a backbone and an empty one is created afterwards, so what comes back is the live state without the backbone's member list; it is the live state if and only if the backbone lists nobody. |
| `FreshStart.FreshRestartCutsOff` | server_lifecycle.go:1288-1298 | Every node that was on the backbone then points at a network that does not list it, and the invariant is broken. |
| `FreshStart.FirstNodeCutOff` | server_lifecycle.go:1278-1298 | One registration and a crash are enough. |
| `FreshStart.LogSans` | apply_delta.go:127-434 | Replaying recorded entries commutes with taking the backbone away. |
| `WalFile.Uint32RoundTrip` | wal/wal.go:189-193 | The little-endian length prefix is read back. |
| `WalFile.ReadRecords` | wal/wal.go:211-273 | Complete records are read back in order and reading goes on with what follows them. |
| `WalFile.ReadCut` | wal/wal.go:211-273 | Cut the file at any byte: replay delivers exactly the entries whose whole record lies before the cut, in order, without an error. |
| `WalFile.CutHasCount` | wal/wal.go:211-273 | Every cut has such a number of whole records. |
| `WalFile.ReadsAllExactly` | wal/wal.go:234-237 | Everything appended is read back if and only if no entry is over 1 MiB; Append has no such limit. |
| `WalFile.TornTailHidesAppends` | wal/wal.go:239-254 | Bytes appended behind a torn record: none is delivered while they do not fill up what it announced; once they do, the torn bytes and theirs are delivered as one entry and reading goes on in their middle. |
| `WalFile.WAL.Append` | wal/wal.go:162-207 | Refused exactly when the counted bytes would pass 256 MiB; otherwise the file grows by one record, or by the part of it the write accepted, which the counter does not see; the cap holds up to such bytes. |
| `WalFile.WAL.Replay` | wal/wal.go:211-273 | The read loop delivers exactly what the reference reading of the file does. |
| `WalFile.WAL.Truncate` | wal/wal.go:277-298 | The file and its counters are empty. |
| `WalFile.AppendExtends` | wal/wal.go:162-207 | An append extends the file of a list of entries to that of the list with one more. |
| `Json.ReadPrint` | wal/snapshot_nodes.go:58-109 | Reading the text of any value, whatever its strings contain, gives the value and leaves what follows. |
| `Json.ParsePrint` | wal/snapshot_nodes.go:58-109 | The same for a whole text. |
| `Json.PlainQuote` | wal/snapshot_nodes.go:58-81 | Copying a printable ASCII string without quotes and backslashes between quotes is its standard encoding. |
| `Records.FillKept` | wal/snapshot_nodes.go:113-227 | Decoding by name the members a struct was encoded as gives every field back, the dropped ones absent. |
| `Records.KeptCanon` | server_persist.go:660-691 | Encoding what was decoded gives the same members. |
| `Records.EncodeStruct` | server_persist.go:674-678 | The standard encoder's walk over the tag table prints the fields kept. |
| `Printers.AppendJSONString` | wal/snapshot_nodes.go:58-81 | The fast path and the fallback both print the standard encoding of the string. |
| `Printers.AppendU16Slice` | wal/snapshot_nodes.go:83-95 | The loop prints the array, null for a nil slice. |
| `Printers.AppendStringSlice` | wal/snapshot_nodes.go:97-109 | The same for strings. |
| `Printers.Buffer.Key` | wal/snapshot_nodes.go:119-127 | With its shared flag, the text stays that of the members so far and one key. |
| `Printers.Buffer.Put` | wal/snapshot_nodes.go:128-227 | After any printer appended its value, the text is that of one member more. |
| `SortedKeys.OneListing` | wal/snapshot_nodes.go:33-52 | A set of keys has only one ascending listing, so the bytes cannot depend on the order of the map range. |
| `SortedKeys.SortKeys` | wal/snapshot_fast.go:155-171 | Whatever order keys are collected in, the result is that listing. |
| `SortedKeys.MapOfObjOf` | wal/snapshot_fast.go:155-171 | Decoding the object of a map gives the map. |
| `NodeRecord.NodeRoundTrip` | wal/snapshot.go:27-62 | A possibly nil node comes back from its record field by field, omitted fields at their zero value and empty optional slices nil. |
| `NodeRecord.NodeJsonTidy` | wal/snapshot.go:27-62 | The node that came back has the same record. |
| `NodeRecord.AppendSnapshotNode` | wal/snapshot_nodes.go:113-227 | The twenty-six hand-written blocks, each with its own guard, key and printer, print exactly the record the struct tags describe, null for a nil node. |
| `SnapshotCodec.SnapshotRoundTrip` | wal/snapshot.go:85-131 | Parsing the encoded snapshot gives it back, whatever its strings contain, with empty optional collections nil. |
| `SnapshotCodec.TidyEncodes` | server_persist.go:660-691 | Re-encoding the loaded snapshot gives the same bytes. |
| `SnapshotCodec.FileIsEncoding` | server_persist.go:586-607 | The hand-made trailer spells exactly the checksum member the encoder would have written. |
| `SnapshotCodec.SavedFileLoads` | server_persist.go:586-691 | For every hash whose digests are plain text, a saved file passes the loader's re-encode-and-hash check and loads what was saved. |
| `SnapshotCodec.AcceptedIsSaved` | server_persist.go:660-691 | If the hash has no collisions, a file accepted with the checksum of a snapshot holds that snapshot. |
| `SnapshotEncoder.AppendNodes` | wal/snapshot_nodes.go:33-52 | The sorted-key loop prints the object of the node map, null for a nil map. |
| `SnapshotEncoder.AppendPubKeyIdx` | wal/snapshot_fast.go:155-171 | The same for the key index. |
| `SnapshotEncoder.AppendSnapshot` | wal/snapshot_fast.go:22-151 | The thirty-one hand-written blocks print exactly the encoding the struct tags describe. |
| `SnapshotEncoder.EncodeStd` | server_persist.go:674-682 | So does the standard encoder over the tag table, in which the node map marshals itself: the two agree byte for byte on every snapshot. |
| `SnapshotEncoder.SaveFile` | server_persist.go:586-607 | The hand-written body and the trailer are the file the theorems are about. |
| `SnapshotEncoder.LoadFile` | server_persist.go:644-691 | The loader, which re-encodes with the standard encoder, decides as the theorems say. |
| `RateLimiter.AdmissionBound` | accept/accept.go:252-308 | Over any interval of any run one address is admitted at most rate + rate·(t1−t0)/window times, written out, across eviction and re-creation of its bucket. |
| `RateLaws.AdmittedExactly` | accept/accept.go:252-308 | After any history, a request the table has room for is admitted if and only if, over every earlier interval that ends with it, the admissions of its address stay within the rate plus the rate's share of the time passed; stated by counting admissions. |
| `RateLaws.DeniedTableIsFull` | accept/accept.go:262-281 | A request is turned away for a full table only if its address is not whitelisted and at least as many others as the table holds sent requests within two windows. |
| `RateLaws.IdleIsAdmitted` | accept/accept.go:288-300 | After any history, an address that has been quiet for a window divided by its rate is not refused for its rate. |
| `RateLaws.FreshBurst` | accept/accept.go:262-308 | On a new limiter a burst of as many requests as the rate is admitted in full, and one more is not. |
| `RateLaws.GlobalIdleIsAdmitted` | accept/accept.go:137-151 | The global bucket admits a request after a pause of one over its rate. |
| `RateLaws.GlobalFreshBurst` | accept/accept.go:137-151 | A new global bucket admits at once as many requests as its rate has whole tokens, and not one more. |
| `RateLimiter.EvictionUnobservable` | accept/accept.go:252-403 | As long as no request is denied for a full table, the limiter decides every request as one that never drops a bucket. |
| `RateLimiter.RunBounded` | accept/accept.go:262-281 | Buckets of addresses that are not whitelisted never exceed the table's limit. |
| `RateLimiter.GlobalBound` | accept/accept.go:137-151 | Over any interval of any run the global bucket admits at most rate + rate·(t1−t0) requests. |
| `RateLimiter.Limiter.constructor` | accept/accept.go:201-209 | A new limiter has no buckets. |
| `RateLimiter.Limiter.Request` | accept/accept.go:252-308 | The decision and the new table are those of the limiter the bounds are about: `AdmittedExactly`, `DeniedTableIsFull` and `AdmissionBound` say which requests that admits. |
| `RateLimiter.Limiter.Sweep` | accept/accept.go:394-403 | Drops exactly the buckets last filled more than two windows ago, written out, and keeps the others as they are. |
| `RateLimiter.GlobalBucket.Request` | accept/accept.go:137-151 | The decision and the new bucket are those `GlobalBound`, `GlobalFreshBurst` and `GlobalIdleIsAdmitted` are about. |
| `TrustPairs.PairKeyInjective` | trust/trust.go:485-490 | Two pairs have the same key if and only if they are the same unordered pair. |
| `TrustPairs.ShardIndex` | trust/pairset.go:17-40 | The hash loop computes the specified shard. |
| `TrustPairs.TrustPairSet.constructor` | trust/pairset.go:42-48 | The empty set at revision zero. |
| `TrustPairs.TrustPairSet.Has` | trust/pairset.go:50-55 | Membership agrees with the plain set whatever the hash. |
| `TrustPairs.TrustPairSet.Add` | trust/pairset.go:57-65 | Adds to the plain set and moves the revision exactly if it changed. |
| `TrustPairs.TrustPairSet.Remove` | trust/pairset.go:68-78 | Removes from the plain set, reports whether it was there and moves the revision exactly if so. |
| `TrustPairs.TrustPairSet.Count` | trust/pairset.go:80-89 | The sum over the shards is the size of the plain set. |
| `TrustPairs.TrustPairSet.Keys` | trust/pairset.go:91-102 | Lists each member of the plain set exactly once. |
| `TrustPairs.SameRevisionSameSet` | trust/pairset.go:57-78 | Over any changes, an unchanged revision means an unchanged set. |
| `TrustPairs.TrustIsLastChange` | trust/trust.go:118-136 | Two nodes are trusted, in either order, exactly as the last report or revocation naming the pair says. |
| `TrustPairs.TwoShards` | trust/pairset.go:17-25 | There are pairs whose keys live in different shards. |
| `EncodeCache.HitIsExact` | server_persist.go:64-91 | Over every interleaving, a hit returns exactly the set held at the hit, unless the revision has moved since the call read it. |
| `EncodeCache.SerialHitIsExact` | server_persist.go:64-91 | If calls do not overlap, every hit returns exactly the set held when the call read the revision. |
| `EncodeCache.QuietStarts` | trust/pairset.go:42-48 | A server without pairs meets what these theorems start from. |
| `EncodeCache.ScanShards` | trust/pairset.go:91-102 | The scan returns the union of what it found in the shards. |
| `EncodeCache.TrustPairsCache.Encode` | server_persist.go:64-91 | A cached list under the same revision and younger than the lifetime is returned as it is; otherwise the union of what the shards gave is returned and stored with revision and time. Either way the call is a legal run of the machine the theorems are about. |
| `StaleHits.HitExactly` | server_persist.go:64-91 | Over every interleaving, a hit returns the set held at the hit if and only if every pair was changed an even number of times since its shard was scanned for the cached encoding. |
| `StaleHits.SerialHitExactly` | server_persist.go:64-91 | If calls do not overlap: if and only if every pair was changed an even number of times since the call read the revision. |
| `StaleHits.OddTicksAreStale` | server_persist.go:64-91 | Then a hit after the revision moved by an odd number is always stale. |
| `StaleHits.OnceEachExactly` | server_persist.go:64-91 | And if no pair changed twice since the read, a hit is exact if and only if the revision has not moved. |
| `StaleHits.DiffParity` | trust/pairset.go:57-78 | The sets before and after a run differ in as many pairs, modulo two, as the revision moved. |
| `StaleRuns.StaleHit` | server_persist.go:64-91 | A run from the empty server, one call at a time, whose last check serves a list without a pair that is held. |
| `StaleRuns.RevisionDoesNotDecide` | server_persist.go:64-91 | Two such runs with the same revisions, cache and calls at the end: one hit is exact, the other stale. So no condition on revisions decides. |
| `StaleRuns.OverlapServesTornScan` | server_persist.go:64-91 | With two overlapping calls a hit can return a set that was held at no moment of the run. |
| `Handshake.RequestsConserved` | trust/handshake_shard.go:53-90 | What was waiting plus what was relayed is what polls returned followed by what is still waiting, in order. |
| `Handshake.ResponsesConserved` | trust/handshake_shard.go:81-115 | The same for responses. |
| `Handshake.AuthorisationsConserved` | trust/handshake_shard.go:55-167 | Over every run, restarts included: approvals, the authorisation still open, those renewed and those a restart dropped are the requests relayed, those a restart brought back and the one open at the start. |
| `Handshake.ApprovalsBounded` | trust/trust.go:451-473 | Without a restart, approvals by a node for a peer never exceed that peer's successful relays to it. |
| `Handshake.ApprovalsBoundedExactly` | trust/handshake_shard.go:145-167 | With restarts, if and only if they bring back no more authorisations than were renewed, dropped or left open. |
| `Handshake.ApprovedTwice` | trust/handshake_shard.go:145-167 | Relay, approve before the poll, restart, approve again: one request, two approvals. |
| `Handshake.ApprovedTwiceExactly` | trust/handshake_shard.go:94-167 | Over every history, a request is approved twice if and only if a restart comes while it waits already approved and an approval follows before the next delivery. |
| `Handshake.RunDisciplined` | trust/handshake_shard.go:55-78 | Over every run an inbox holds at most one hundred requests from distinct senders, and no authorisation set is kept empty. |
| `RelayLaws.InboxIsFirstAsks` | trust/handshake_shard.go:55-90 | After any history from the empty store, the inbox of a node is the first request of each peer that asked since the node's last poll, in the order they came, up to one hundred; stated by counting events. |
| `RelayLaws.NoneTurnedAway` | trust/handshake_shard.go:55-78 | If at most one hundred peers asked since the last poll, the inbox holds the first request of every one of them. |
| `RelayLaws.RefusedExactly` | trust/handshake_shard.go:55-78 | After any history a request is refused exactly when its sender has asked since the last poll or one hundred peers have, and called full exactly in the second case. |
| `RelayLaws.DeliveredExactly` | trust/handshake_shard.go:55-78 | A request that is not refused is the last one in the inbox afterwards; one that is refused changes nothing. |
| `Handshake.HistoryReflects` | trust/handshake_shard.go:55-107 | Whether a request waits and whether it is authorised are functions of what happened since the peer's last delivered request. |
| `Handshake.WaitingIsAuthorised` | trust/handshake_shard.go:55-107 | A waiting sender is authorised, or was approved since its request was relayed. |
| `Handshake.RestoreExactly` | trust/handshake_shard.go:119-167 | After any history a restart keeps inboxes and responses, and the authorisations of a node if and only if each peer's last delivered request was polled exactly when it was approved. |
| `Handshake.PolledAuthorisationLost` | trust/handshake_shard.go:145-167 | A relay, a poll and a restart: the authorisation is gone. |
| `Handshake.HandshakeState.RelayRequest` | trust/handshake_shard.go:55-78 | Full exactly at one hundred waiting requests, already pending exactly if the sender's waits among fewer, else stored at the end and authorised; `RefusedExactly` and `InboxIsFirstAsks` are the law over histories. |
| `Handshake.HandshakeState.PopAll` | trust/handshake_shard.go:81-90 | Returns and empties both queues of the node. |
| `Handshake.HandshakeState.Take` | trust/handshake_shard.go:94-107 | Consumes the authorisation exactly if there was one. |
| `Handshake.HandshakeState.Queue` | trust/handshake_shard.go:110-115 | Appends the response. |
| `Handshake.HandshakeState.RestoreFrom` | trust/handshake_shard.go:145-167 | The nested loops rebuild the store the restart theorems are about. |
| `DeltaLog.Log.Append` | delta.go:60-83 | The retained entries are the last ten thousand of the whole history, numbered consecutively. |
| `DeltaLog.Log.EntriesSince` | delta.go:88-115 | An answer is given exactly if the history is not empty and the number is one of its last ten thousand or beyond, and is then the rest of the history, in order. |
| `DeltaLog.Log.CurrentSeq` | delta.go:118-125 | The number of the last entry of the history. |
| `DeltaLog.SinceIsHistory` | delta.go:88-115 | A non-nil answer is exactly the history after the number, and the answer is nil exactly when the log is empty, the number is zero or ten thousand entries or more came after it. |
| `DeltaLog.NeedlessResync` | delta.go:88-115 | Nil is given although nothing is missing exactly for the number just below the oldest retained one, for zero while nothing was dropped, and on an empty log. |
| `DeltaLog.FollowerInStep` | delta.go:88-125 | A follower polling with its last number has, after any interleaving, applied exactly the history up to that number: no gap, no repeat. |
| `SaveLoop.NoLostSave` | wal/wal.go:428-531 | Over every interleaving, with flushes on demand beside the loop, a mutation missing from the snapshot on disk has dirty set, a token waiting or its trigger to come; a clean shutdown covers every mutation triggered before the drain. Only a refused flush and a flush on demand that ends after the loop wrote a later snapshot are excluded. |
| `SaveLoop.BreakerLosesExactly` | server_persist.go:183-188 | A flush an open breaker turns away keeps that promise if and only if a token waits or nothing triggered is unsaved. |
| `SaveLoop.BreakerLosesSave` | server_persist.go:183-188 | A mutation, its signal and a tick with the breaker open reach a state in which nothing will save it. |
| `SaveLoop.OnDemandLosesExactly` | wal/wal.go:441-446 | A flush on demand that ends late keeps the promise if and only if the loop is dirty, a token waits or its copy holds everything triggered. |
| `SaveLoop.OldCopyOverwrites` | wal/wal.go:441-446 | A run without a breaker in which the older copy is written over the loop's snapshot and a saved mutation is lost. |
| `SaveLoop.FailedFlushRetries` | wal/wal.go:493-531 | A failed flush changes nothing and stays dirty. |
| `SaveLoop.SaveFollows` | wal/wal.go:493-531 | From any waiting state, a triggered mutation is in the snapshot after one receive, one tick and one successful flush. |
| `SaveLoop.Saver.TriggerSave` | wal/wal.go:428-437 | The non-blocking send is the machine's trigger step and keeps its invariant. |
| `SaveLoop.Saver.OnSignal` | wal/wal.go:499-501 | The receive branch is the machine's receive step and keeps its invariant. |
| `SaveLoop.Saver.OnTick` | wal/wal.go:502-503 | The tick branch is the machine's tick; if it does not flush and no token waits, everything triggered is on disk. |
| `SaveLoop.Saver.OnReturn` | wal/wal.go:504-512 | The loop sees only the error: after a refused flush nothing is lost if and only if a token waits or everything triggered is on disk; after any other the invariant holds. |
| `SaveLoop.Saver.TickBranch` | wal/wal.go:502-512 | The whole branch around one flush: the machine's tick, copy and finish, or its refusal; after a flush neither refused nor failed, everything triggered is on disk or a signal waits. |
| `SaveLoop.Saver.DrainAndStop` | wal/wal.go:513-527 | The shutdown branch is the machine's; if it does not flush, everything triggered before the drain is on disk. |
| `Reaper.ScanChunk` | server_lifecycle.go:512-613 | The scan examines the first chunk of the ids in circular order from the cursor and leaves the cursor after the last one, or at zero when it saw all. |
| `Reaper.ReaperProgress` | server_lifecycle.go:512-613 | Without new registrations every id that stays is examined within as many ticks as chunks cover the ids at the start, whatever is deleted meanwhile. |
| `Reaper.HeardSurvives` | server_lifecycle.go:572-581 | A node heard from since the threshold is still there after any run of reaps with that threshold and other steps that do not deregister it. |

## Left out

- HTTP dashboard, metrics, probes, webhooks, audit export and log sampling: input, output and formatting.
- The accept loop, TLS, wire framing and every cryptographic check: outcomes are boolean arguments.
- Directory sync and blueprint provisioning: further callers of the same updates.
- Renaming a network, tags, policies, rules, badges and key expiry: fields no modelled handler branches on.
- RegistryServer.Server.UpdateNodeKey: does not model the rotation time, the rotation count and the clearing of the badge, which no modelled handler reads.
- RegistryServer.Server.ApplyKeyRotationDelta: does not model the rotation time, the rotation count and the clearing of the badge, which no modelled handler reads.
- RegistryRuns.RunKeepsInv: runs join without a role assigned in advance, because such a join can break the invariant; `PreAssigned` says exactly when.
- The state between two lock acquisitions of one handler, and the binary heartbeat's frame format.
- Responses beyond id and success: the fast path also returns a stored hostname, which the slow path does not.
- Registration branches are distinguished by whether the key decodes; key decoding itself is not modelled.
- Recovery.RecoveryTheorem: covers recorded and silent operations on nodes, keys, memberships, roles and counters, with the log not full, ids below the maximum, entries of at most 1 MiB, non-empty keys, the log truncated only if nothing was recorded since the copy (`WindowIsLost` is the other case), and a rotation logged atomically; kicks, invite acceptance, role changes, reclaims and reaps are not logged by the server. The key and owner indices differ between live and replayed deregistration; `RecoveredKeys` says what they are after a restart.
- RecoveredTerms.RecoveredNetworks: the renaming of a network, which is not logged, is not modelled.
- MembershipLaws.NetworksExactly: the renaming of a network is not modelled.
- TornRuns.TornRunsRecover: a second tear before the next flush, and a crash after replay has reached bytes behind the torn record, are outside; `TornTailHidesAppends` says what is then read.
- Recovery.DecodeEncode: the JSON and base64 encoding of an entry is any pair of functions that undo each other.
- SaveLoop.NoLostSave: two flushes at once write through one lock at the end, so their writes are single steps.
- Json.ReadPrint: strings are sequences of Unicode scalar values, so invalid UTF-8 and escaped surrogate pairs are not modelled.
- SnapshotCodec.SnapshotRoundTrip: the fields left to the standard encoder are arbitrary JSON values without fractions, and that encoder is taken to print them compactly with sorted keys.
- SnapshotEncoder.LoadFile: a member of the wrong kind reads as zero where the Go decoder reports an error.
- EncodeCache.TrustPairsCache.Encode: the returned bytes are a value; reuse of the buffer is not modelled.
- RateLimiter.AdmissionBound: arithmetic is on reals, so rounding is not modelled; the whitelist is fixed.
- RateLimiter.EvictionUnobservable: for a configured rate of at least one and a clock that does not go back.
- DeltaLog.Log.Append: sequence numbers, like the trust revision, are unbounded where the server's wrap at 64 bits.
- Reaper.ReaperProgress: says nothing when ids are registered during the sweep.
- Standby replication, replica push and the audit hash chain.
