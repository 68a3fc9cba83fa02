# Sisques Account: verified models

Dafny models of the parts of Sisques Account whose correctness depends on order
and interleaving, with proofs over every run. `dafny verify dfyconfig.toml`
checks the whole project.

## What is modelled

**Refresh-token rotation** (`Session*.dfy`), the scheme of section 4.14.2 of
RFC 9700. `SessionProtocol` is a step machine in which any number of logins and
refreshes interleave: a row is locked by token hash, the callback decides
(revoked, then expired, then rotate), the successor is inserted, the predecessor
updated, the transaction committed; a replay takes the snapshot of its bulk
revoke, locks row after row on a connection of its own, commits, and only then
throws and rolls its own transaction back. `SessionInvariant` is the inductive
invariant; `SessionSafety`, `SessionChains`, `SessionReplay`, `SessionLists` and
`SessionKnots` are the theorems over whole runs; `SessionWitness` holds runs that
mark their limits.
`SessionSerial` has the repository and the handlers as a class, with one request
at a time, and connects it to the machine; `SessionAnswers` says what clients are told. `SessionModel` has the aggregate, the
shared builder and the mapper, and ties the callback to the machine's rows.

**Tenancy** (`Tenancy*.dfy`). Create, update, delete and add-member open no
transaction: each repository call is a step, checks come first and writes later,
and the schema's constraints reject what slipped in between. `TenancySafety` has what
every interleaving keeps, `TenancyHistory` which earlier moments a write relies on (an
update can write back what another one has just replaced), `TenancySerial` what each
handler does alone, `TenancyWitness` runs that mark the limits.

**Registration** (`Registration.dfy`) against an external identity provider;
**platform-admin reconciliation** (`PlatformAdmin.dfy`) from the raw environment
variable to the stored flag and the signed claim; the **event logs** of the user,
tenant and membership aggregates (`AggregateLog.dfy`); the **topic-map generator**
(`TopicMap.dfy`); the two **migrations** of the session table (`Migration.dfy`).

## Assumptions

- Identifiers and raw tokens are fresh; SHA-256 is injective.
- PostgreSQL runs READ COMMITTED. `SELECT ... FOR UPDATE` is exclusive and reads
  the latest committed row. An `UPDATE` works from a snapshot taken when it starts
  and re-checks each row when it locks it. Commits are atomic.
- TypeORM's `save` selects by id and then inserts or updates the columns that
  differ.
- The identity provider keeps at most one identity per email, answers a second
  registration with a conflict, and never hands out an external id twice.
- Value objects hold values that are already valid.

## Where code and documentation disagree

The model follows the code in each case.

- The refresh handler (`refresh-session.handler.ts:65-67`) and the rotation
  requirements it cites promise that reuse invalidates the whole chain. The bulk
  revoke does not see a successor that is committed after its snapshot, and no lock
  keeps a rotation of the same user from starting then.
  `SessionLists.ReplayInvalidatesListsIff` gives the exact condition for the rows of
  the lists to be revoked, then and for good: every rotation committed since the
  snapshot was overtaken by another replay of the user. `LoneReplayInvalidatesListsIff`
  is the case without another replay, and `SessionWitness.LateRotationEscapes` a run in
  which the promise fails. It is not enough that no rotation is in flight at the
  snapshot: the run has none.
- A detected replay may never be answered. One bulk revoke waits for a row that
  another replay's transaction holds, and that transaction waits, in the application,
  for its own bulk revoke: the database sees no cycle. `SessionKnots` gives the exact
  condition (`AnsweredIffInNoKnot`), up to requests being cut off; a deadlock among
  bulk revokes alone, which the database does see and breaks by aborting one of them,
  counts as cutting that one off. A request belongs to a knot before it has begun its
  bulk revoke, if the rows it is bound to want are held
  (`SessionWitness.ReplaysCanBlockEachOther`). Refreshes that have not met reuse hang
  with it exactly if they wait for a row that a member holds
  (`ProceedsIffNotHeldInKnot`).
- The comment at `delete-tenant.handler.ts:44` and the tenancy README (lines
  170-174) say that no foreign key cascades from tenant to membership. The
  migration declares one (`1788165600000-CreateIdentityAndTenancy.ts:82-83`), and
  `TenancyWitness.CascadeIsNeeded` is a run that needs it.
- The tenancy README (lines 141-144) says that every tenant has an owner, never
  violated even transiently. It is violated between the two saves of a create, and
  for good when the second one fails or when an update saves a tenant that was
  deleted after it was loaded. `TenancySafety.OwnerlessIff` says exactly when, over
  every run, and `TenancySerial.OwnersAtBoundaries` exactly when at the boundaries of
  serial handlers.
- The comment at `register-user.handler.ts:37` says that the first check avoids
  orphaned identities. It keeps a taken email from the provider only when no other
  registration of it is saved between the check and the call
  (`Registration.TakenEmailReachesProviderIff`); even then nothing is orphaned.
  Identities are orphaned by a stop after the provider's answer
  (`Registration.OrphanedIff`), and nothing repairs that.

## Model

| member | source | states |
|---|---|---|
| `SessionInvariant.StepKept` | src/contexts/auth/infrastructure/persistence/typeorm/repositories/session-typeorm-write.repository.ts:62-108 | Every statement of every rotation, replay, login and rollback keeps one inductive invariant over rows, locks, requests and per-row histories |
| `SessionInvariant.RunKept` | src/contexts/auth/infrastructure/persistence/typeorm/repositories/session-typeorm-write.repository.ts:62-108 | The invariant holds after every run, whatever the interleaving |
| `SessionInvariant.CommitFacts` | src/contexts/auth/infrastructure/persistence/typeorm/repositories/session-typeorm-write.repository.ts:66-97 | When a rotation commits, the locked row is still exactly as it was read, the successor id is new, and the row's history so far does not revoke it |
| `SessionSafety.StepPreserves` | src/contexts/auth/infrastructure/persistence/typeorm/repositories/session-typeorm-write.repository.ts:84-108 | A stored row changes only at the commit of the rotation that holds it (to its revoked, linked image) or at the commit of a bulk revoke (which sets the time and no link) |
| `SessionSafety.RevokedRowsAreFrozen` | src/contexts/auth/infrastructure/persistence/typeorm/repositories/session-typeorm-write.repository.ts:84-108 | revoked_at and replaced_by_session_id are write-once over any run; no row disappears and identity columns never change |
| `SessionSafety.TokenNamesOneRow` | src/database/migrations/1788181125000-SplitUserAndAuthSession.ts:26-32 | A token hash belongs to one row |
| `SessionSafety.AtMostOneSuccess` | src/contexts/auth/application/commands/refresh-session/refresh-session.handler.ts:61-105 | In every interleaving one refresh token has at most one committed rotation |
| `SessionSafety.TicketsFollowLockOrder` | src/contexts/auth/infrastructure/persistence/typeorm/repositories/session-typeorm-write.repository.ts:67-71 | Whoever locked a row before is finished when the next request locks it, so tickets number the lock acquisitions |
| `SessionSafety.OutcomesAreSerial` | src/contexts/auth/application/commands/refresh-session/refresh-session.handler.ts:64-95 | A request that is not cut short gets the answer it would get alone after the requests and bulk revokes that had the row before it |
| `SessionSafety.RevokedAfterIff` | src/contexts/auth/domain/aggregates/session.aggregate.ts:40-48 | A row is revoked after a history exactly when some turn of it rotated or bulk-revoked the row |
| `SessionSafety.ExactlyOneWinner` | src/contexts/auth/application/commands/refresh-session/refresh-session.handler.ts:64-95 | Among the turns on a row one rotates it exactly when some turn came unexpired, unrevoked in bulk and uncut; never do two |
| `SessionSafety.LinkedIffContended` | src/contexts/auth/application/commands/refresh-session/refresh-session.handler.ts:68-94 | In every reachable state a row has a successor exactly when such a contender exists |
| `SessionSafety.AfterTheWinnerOnlyReuse` | src/contexts/auth/application/commands/refresh-session/refresh-session.handler.ts:65-74 | Every request that locks a row after its rotation is answered as reuse or is cut short |
| `SessionSafety.LinkFacts` | src/contexts/auth/domain/aggregates/session.aggregate.ts:40-44 | A link runs from a revoked row to an existing later row of the same user, the one its own consumer issued |
| `SessionSafety.StatementsNeverFail` | src/contexts/auth/infrastructure/persistence/typeorm/repositories/session-typeorm-write.repository.ts:84-91 | After every statement of every rotation the self foreign key and the unique hash hold in the table as the transaction sees it, and the inserted key is new |
| `SessionSafety.PredecessorFirstAlwaysFails` | src/contexts/auth/infrastructure/persistence/typeorm/repositories/session-typeorm-write.repository.ts:53-61 | With the two writes swapped the foreign key would break in every rotation, not only in some |
| `SessionChains.PredecessorFacts` | src/contexts/auth/application/commands/refresh-session/refresh-session.handler.ts:80-94 | A row no login made has a predecessor: the earlier row its rotation consumed, linked to it |
| `SessionChains.RootIffLogin` | src/contexts/auth/application/commands/login-user/login-user.handler.ts:113-130 | A row has no predecessor exactly when a login made it |
| `SessionChains.LinkInjective` | src/contexts/auth/domain/aggregates/session.aggregate.ts:40-44 | Two rows never share a successor |
| `SessionChains.ChainShape` | src/contexts/auth/domain/aggregates/session.aggregate.ts:40-48 | Following links gives a finite list without repetition, of one user, whose rows but the last are revoked |
| `SessionChains.RootReaches` | src/contexts/auth/application/commands/login-user/login-user.handler.ts:113-130 | Every row lies on the list of some login |
| `SessionChains.OnlyRootReaches` | src/contexts/auth/application/commands/login-user/login-user.handler.ts:113-130 | No row lies on the list of a second login |
| `SessionChains.ListsPartitionRows` | src/contexts/auth/application/commands/login-user/login-user.handler.ts:113-130 | In every reachable table the lists of the logins partition the rows |
| `SessionReplay.RunAdvances` | src/contexts/auth/application/commands/refresh-session/refresh-session.handler.ts:64-105 | Over any run a consumption stays, and a replay keeps the scope of its snapshot |
| `SessionReplay.RevokedRowNeverConsumed` | src/contexts/auth/application/commands/refresh-session/refresh-session.handler.ts:68-74 | Once a row is revoked no request consumes it that had not before |
| `SessionReplay.ReplayCoversSnapshot` | src/contexts/auth/infrastructure/persistence/typeorm/repositories/session-typeorm-write.repository.ts:100-108 | Once a replay's bulk revoke is committed, although its own transaction rolls back, every row of the user committed before the statement's snapshot is revoked, stays as it is in every continuation, and is consumed by nobody new |
| `SessionReplay.LoserReachesWinnersSuccessor` | src/contexts/auth/application/commands/refresh-session/refresh-session.handler.ts:64-74 | Once the loser of a race is answered, the winner's successor is revoked or consumed |
| `SessionReplay.ReplayNeverWaitsForItself` | src/contexts/auth/infrastructure/persistence/typeorm/repositories/session-typeorm-write.repository.ts:100-107 | The bulk revoke, on its own connection, never waits for the transaction that issued it |
| `SessionReplay.RotationNeverWaits` | src/contexts/auth/infrastructure/persistence/typeorm/repositories/session-typeorm-write.repository.ts:66-97 | Once a rotation holds its lock it can always take its next step |
| `SessionLists.BulkIff` | src/contexts/auth/infrastructure/persistence/typeorm/repositories/session-typeorm-write.repository.ts:100-108 | A row ends a run revoked and without a successor exactly if it began so or a bulk revoke of the run revoked it |
| `SessionLists.LinkIff` | src/contexts/auth/infrastructure/persistence/typeorm/repositories/session-typeorm-write.repository.ts:84-91 | A row ends a run linked to a successor exactly if it began so or a rotation of the run linked it |
| `SessionLists.NewStaysNew` | src/contexts/auth/application/commands/refresh-session/refresh-session.handler.ts:80-94 | Lists grow at their ends: behind a row made in a run every row was made in it |
| `SessionLists.RevokedListWasSwept` | src/contexts/auth/infrastructure/persistence/typeorm/repositories/session-typeorm-write.repository.ts:100-108 | A list part made in a run and revoked from end to end was ended by a bulk revoke of the run |
| `SessionLists.SweptListIsRevoked` | src/contexts/auth/infrastructure/persistence/typeorm/repositories/session-typeorm-write.repository.ts:100-108 | A list that a bulk revoke of the run reached is revoked from end to end |
| `SessionLists.InvalidatedForGood` | src/contexts/auth/application/commands/refresh-session/refresh-session.handler.ts:65-74 | Lists whose rows are all revoked are the same lists in every continuation, still revoked, and no refresh consumes a row of them anew |
| `SessionLists.ReplayInvalidatesListsIff` | src/contexts/auth/application/commands/refresh-session/refresh-session.handler.ts:65-74 | The exact boundary of "the whole chain is invalidated": once a replay's bulk revoke is committed, every row on the lists of the user's rows is revoked if and only if each rotation of one of the snapshot's rows that committed since the snapshot was overtaken by another bulk revoke; and then for good, in every continuation |
| `SessionLists.OvertakenByAnother` | src/contexts/auth/infrastructure/persistence/typeorm/repositories/session-typeorm-write.repository.ts:100-108 | Only another replay of the same user overtakes such a rotation |
| `SessionLists.LoneReplayInvalidatesListsIff` | src/contexts/auth/application/commands/refresh-session/refresh-session.handler.ts:65-74 | Without another replay of the user in the window, the lists are revoked if and only if no rotation of one of the rows commits in it |
| `SessionKnots.KnotLasts` | src/contexts/auth/infrastructure/persistence/typeorm/repositories/session-typeorm-write.repository.ts:100-108 | No step of anyone unties a knot of requests that wait for each other, short of cutting a member off |
| `SessionKnots.KnotIsForever` | src/contexts/auth/infrastructure/persistence/typeorm/repositories/session-typeorm-write.repository.ts:100-108 | No run in which no member is cut off unties a knot |
| `SessionKnots.RunToEnd` | src/contexts/auth/application/commands/refresh-session/refresh-session.handler.ts:64-95 | An open transaction that waits for nobody can be run to its end alone, and one that met reuse ends answered as reuse |
| `SessionKnots.KnotWasThere` | src/contexts/auth/infrastructure/persistence/typeorm/repositories/session-typeorm-write.repository.ts:62-108 | Ending a transaction ties no knot |
| `SessionKnots.WaitsForAnother` | src/contexts/auth/infrastructure/persistence/typeorm/repositories/session-typeorm-write.repository.ts:100-108 | Who waits in a knot waits for another request of the same user that has met reuse |
| `SessionKnots.AnsweredIffInNoKnot` | src/contexts/auth/application/commands/refresh-session/refresh-session.handler.ts:68-74 | A request that has met reuse can still be answered, without anybody being cut off, if and only if it is in no knot |
| `SessionKnots.LoneReplayIsAnswered` | src/contexts/auth/application/commands/refresh-session/refresh-session.handler.ts:68-74 | It can be answered if no other request of the user has met reuse |
| `SessionKnots.ProceedsIffNotHeldInKnot` | src/contexts/auth/infrastructure/persistence/typeorm/repositories/session-typeorm-write.repository.ts:67-71 | A refresh that waits for its row gets the lock, without anybody being cut off, if and only if no member of a knot holds the row |
| `SessionKnots.ReplayJoinsKnot` | src/contexts/auth/application/commands/refresh-session/refresh-session.handler.ts:64-74 | A refresh that locks a revoked row, while a member of a knot holds a live row of the same user, joins the knot |
| `SessionWitness.LateRotationEscapes` | src/contexts/auth/infrastructure/persistence/typeorm/repositories/session-typeorm-write.repository.ts:100-108 | A run in which no other transaction is open at the snapshot, yet a rotation that starts after it leaves the replayed list alive, not all of it revoked, and a later refresh succeeds |
| `SessionWitness.RotationCanBeOvertaken` | src/contexts/auth/infrastructure/persistence/typeorm/repositories/session-typeorm-write.repository.ts:100-108 | A run in which a rotation commits after the snapshot and the lists are revoked all the same, because another replay overtook it |
| `SessionWitness.ReplaysCanBlockEachOther` | src/contexts/auth/application/commands/refresh-session/refresh-session.handler.ts:68-74 | A reachable state with two replays of one user of which neither can be answered any more, although one has not begun its bulk revoke |
| `SessionSerial.SessionRepository.LockByRefreshTokenHash` | src/contexts/auth/infrastructure/persistence/typeorm/repositories/session-typeorm-write.repository.ts:67-71 | Finds a row of this hash, and none exactly when there is none |
| `SessionSerial.SessionRepository.RevokeAllByUserId` | src/contexts/auth/infrastructure/persistence/typeorm/repositories/session-typeorm-write.repository.ts:100-108 | Sets the time on exactly the user's unrevoked rows |
| `SessionSerial.SessionRepository.Login` | src/contexts/auth/application/commands/login-user/login-user.handler.ts:119-130 | Refuses who is not a user; else adds one unrevoked row without a link and changes nothing else |
| `SessionSerial.SessionRepository.Refresh` | src/contexts/auth/application/commands/refresh-session/refresh-session.handler.ts:61-121 | Answers reuse, expiry, rotation or unknown in that order of precedence, leaves exactly the table that answer calls for, and hands out the new token exactly if the user is found and the access token signed after the rotation |
| `SessionSerial.AloneIsSerial` | src/contexts/auth/application/commands/refresh-session/refresh-session.handler.ts:61-121 | The interleaved machine, run with one request at a time, gives the same answer and table; the new pair is given exactly if the user is found and the token signed |
| `SessionSerial.FittingReplyHasSerialVerdict` | src/contexts/auth/application/commands/refresh-session/refresh-session.handler.ts:64-95 | A reply fits a row exactly when its verdict is the one that the histories of interleaved runs call serial |
| `SessionSerial.RotationConserves` | src/contexts/auth/application/commands/refresh-session/refresh-session.handler.ts:80-94 | A rotation leaves the number of the user's unrevoked rows as it was |
| `SessionSerial.EventCounts` | src/contexts/auth/application/commands/refresh-session/refresh-session.handler.ts:68-94 | A login adds one unrevoked row of its user, a rotation none, a detected reuse leaves none |
| `SessionSerial.LiveRowsAreLoginsSinceReuse` | src/contexts/auth/application/commands/login-user/login-user.handler.ts:113-130 | After any serial history a user's unrevoked rows are as many as the user's logins since the last reuse event |
| `SessionAnswers.UserIsFound` | src/contexts/auth/application/commands/refresh-session/refresh-session.handler.ts:102-105 | The user of a committed rotation is always found: the error for a missing user never arises |
| `SessionAnswers.RefreshedIffSigned` | src/contexts/auth/application/commands/refresh-session/refresh-session.handler.ts:98-121 | Over every run a client has its new pair exactly if the access token was signed after the commit, and an error although the rotation is durable exactly if it was not |
| `SessionAnswers.KnownTokenIsFound` | src/contexts/auth/application/commands/refresh-session/refresh-session.handler.ts:98 | A token that is in the table when its request arrives is never answered as unknown, whatever happens meanwhile; the request locks that row |
| `SessionAnswers.UnknownTokenIsRefused` | src/contexts/auth/application/commands/refresh-session/refresh-session.handler.ts:98 | A token that is in no row gets no other answer |
| `SessionAnswers.LoginIsSerial` | src/contexts/auth/application/commands/login-user/login-user.handler.ts:113-130 | A login in an interleaved run does to the table what it does alone |
| `SessionAnswers.ExpiredTokenNeverRotates` | src/contexts/auth/application/commands/refresh-session/refresh-session.handler.ts:76-80 | A request that has not decided when its token expires never rotates, however early it arrived or took its lock |
| `SessionAnswers.UnusedTokenExpires` | src/contexts/auth/application/commands/refresh-session/refresh-session.handler.ts:76-78 | A token left alone until its time has passed is refused, and the table stays as it is |
| `SessionModel.RefreshSessionHandler.Callback` | src/contexts/auth/application/commands/refresh-session/refresh-session.handler.ts:64-95 | On the aggregate of a row the callback decides as the protocol decides on the row, and a rotation leaves the aggregates of exactly the two rows the protocol commits |
| `SessionModel.SessionAggregate.Revoke` | src/contexts/auth/domain/aggregates/session.aggregate.ts:40-44 | Sets the revocation time, the link and the update time, and nothing else |
| `SessionModel.SessionAggregate.MarkReuseDetected` | src/contexts/auth/domain/aggregates/session.aggregate.ts:55-57 | Touches the session only: the revocation and the link stay |
| `SessionModel.SessionBuilder.Build` | src/contexts/auth/domain/builders/session.builder.ts:48-71 | Fails exactly on the first missing field; an empty link is read as no link |
| `SessionModel.SessionMapper.ToAggregate` | src/contexts/auth/infrastructure/persistence/typeorm/mappers/session-typeorm.mapper.ts:10-21 | Whatever the shared builder held, the aggregate is a function of the entity alone |
| `SessionModel.SessionMapper.ToEntity` | src/contexts/auth/infrastructure/persistence/typeorm/mappers/session-typeorm.mapper.ts:23-35 | The entity has the aggregate's primitives |
| `SessionModel.SessionMapper.SaveAndLoad` | src/contexts/auth/infrastructure/persistence/typeorm/mappers/session-typeorm.mapper.ts:10-35 | From any leftover builder state, to the table and back preserves all primitives |
| `SessionModel.SessionMapper.NewSession` | src/contexts/auth/application/commands/refresh-session/refresh-session.handler.ts:80-90 | The build of a new session depends on its arguments only |
| `SessionModel.ReverseRoundTrip` | src/contexts/auth/infrastructure/persistence/typeorm/mappers/session-typeorm.mapper.ts:10-35 | Entity to aggregate and back is the identity exactly when the link is not the empty string |
| `TenancySafety.AdvanceConsistent` | src/database/migrations/1788165600000-CreateIdentityAndTenancy.ts:54-86 | No repository call of any handler breaks unique slugs per app, unique memberships or the foreign keys |
| `TenancySafety.AlwaysConsistent` | src/database/migrations/1788165600000-CreateIdentityAndTenancy.ts:54-86 | In every interleaving of the four handlers these hold |
| `TenancySafety.RejectedStepChangesNothing` | src/database/migrations/1788165600000-CreateIdentityAndTenancy.ts:54-86 | A check that fails or a save that a constraint rejects leaves the tables as they were |
| `TenancySafety.CreateSavesIff` | src/contexts/tenancy/application/commands/create-tenant/create-tenant.handler.ts:51-62 | A create past its check saves exactly these columns, and does so exactly if the app is there, the id is new and no tenant of the app holds the slug at that moment; else it changes nothing |
| `TenancySafety.SlugLostIff` | src/contexts/tenancy/infrastructure/persistence/typeorm/repositories/tenant-typeorm-write.repository.ts:37-45 | A step takes its slug from a tenant if and only if it is the second delete of a delete or an update to another slug, taking effect |
| `TenancySafety.SecondSlugIsRejected` | src/contexts/tenancy/application/commands/create-tenant/create-tenant.handler.ts:49-62 | Of two creates past the check on one slug the second fails and changes nothing, unless a step between the two saves takes the slug from the first one's tenant |
| `TenancySafety.MemberSavesIff` | src/contexts/tenancy/application/commands/add-tenant-member/add-tenant-member.handler.ts:57-70 | An add-member past its check saves exactly tenant, user and the role asked for, and does so exactly if tenant and user are there, the id is new and the user is not a member at that moment; else it changes nothing |
| `TenancySafety.MemberLostIff` | src/contexts/tenancy/infrastructure/persistence/typeorm/repositories/tenant-membership-typeorm-write.repository.ts:45-51 | A step takes a membership if and only if it is one of the two deletes of a delete of its tenant |
| `TenancySafety.SecondMemberIsRejected` | src/contexts/tenancy/application/commands/add-tenant-member/add-tenant-member.handler.ts:57-70 | Of two add-members of one user past the check the second fails and changes nothing, unless a delete takes the memberships of the tenant between the two saves |
| `TenancyWitness.BothPassTheCheck` | src/contexts/tenancy/application/commands/create-tenant/create-tenant.handler.ts:48-62 | Two creates can both be past the check: the check alone does not make slugs unique |
| `TenancyWitness.BothPassTheMemberCheck` | src/contexts/tenancy/application/commands/add-tenant-member/add-tenant-member.handler.ts:57-70 | Two add-members of one user can both be past the check |
| `TenancySafety.CascadeIsNeededIff` | src/database/migrations/1788165600000-CreateIdentityAndTenancy.ts:82-83 | Deleting just the row of a tenant keeps the tables consistent exactly when no membership of it is left; with the cascade, always |
| `TenancyWitness.CascadeIsNeeded` | src/contexts/tenancy/application/commands/delete-tenant/delete-tenant.handler.ts:44-49 | A reachable state in which the second delete, without the cascade, would leave an orphan: a member joined between the two deletes |
| `TenancySafety.OwnerStays` | src/contexts/tenancy/infrastructure/persistence/typeorm/repositories/tenant-membership-typeorm-write.repository.ts:37-51 | A call of a handler that is not deleting the tenant keeps its owner |
| `TenancySafety.LosesOwnerIff` | src/contexts/tenancy/application/commands/create-tenant/create-tenant.handler.ts:61-77 | A step leaves a tenant without an owner if and only if it is the first save of a create, the first delete of a delete, or the insert of an update's save, taking effect |
| `TenancySafety.LackEndsIff` | src/contexts/tenancy/application/commands/delete-tenant/delete-tenant.handler.ts:44-49 | A step ends a lack of an owner if and only if it inserts an owner or is the second delete of a delete |
| `TenancySafety.OwnerlessIff` | src/contexts/tenancy/application/commands/create-tenant/create-tenant.handler.ts:61-77 | The exact form of "every tenant has an owner": after any run, crashes included, a tenant lacks one if and only if one of the three steps left it so and no later step inserted an owner or took its row |
| `TenancySafety.LastLossUnique` | src/contexts/tenancy/application/commands/update-tenant/update-tenant.handler.ts:33-40 | Exactly one step is that origin, so that each lack is explained by exactly one create, delete or update |
| `TenancySafety.SecondSaveOwns` | src/contexts/tenancy/application/commands/create-tenant/create-tenant.handler.ts:65-77 | The second save of a create gives the owner or fails |
| `TenancySafety.OwnerlessIsExplained` | src/contexts/tenancy/application/commands/create-tenant/create-tenant.handler.ts:61-77 | While a tenant lacks an owner some handler is, or stopped, between its two writes, or an update re-inserted the tenant |
| `TenancyWitness.TwoExplanationsAtOnce` | src/contexts/tenancy/application/commands/delete-tenant/delete-tenant.handler.ts:39-50 | A reachable state with two explanations of one lack, so that "exactly one" holds of the step but not of the state |
| `TenancyWitness.UpdateRevivesDeletedTenant` | src/contexts/tenancy/application/commands/update-tenant/update-tenant.handler.ts:33-40 | A run whose handlers all finish without an error and that ends with a tenant nobody owns |
| `TenancyHistory.EveryHandlerHasSeen` | src/contexts/tenancy/application/commands/delete-tenant/delete-tenant.handler.ts:39-46 | In every run each handler that is past a check has seen, at an earlier moment, what the check asks for |
| `TenancyHistory.OnlyAnOwnerDeletes` | src/contexts/tenancy/application/services/write/assert-tenant-owner/assert-tenant-owner.service.ts:24-31 | In every interleaving, whatever takes a tenant or a membership of it is a delete whose requester was an owner of the tenant at an earlier moment |
| `TenancyHistory.SavesAfterCheck` | src/contexts/tenancy/application/commands/create-tenant/create-tenant.handler.ts:48-62 | A create saves only after moments at which its app was there and its slug was free, an add-member only after ones at which its tenant was there and the user was not a member |
| `TenancyHistory.CutOffForGood` | src/contexts/tenancy/application/commands/create-tenant/create-tenant.handler.ts:61-77 | A handler that is cut off leaves the tables as they are and never writes again; what it leaves behind is a tenant without its owner or without its members, if it was between its two writes |
| `TenancyHistory.UpdateWrites` | src/contexts/tenancy/application/commands/update-tenant/update-tenant.handler.ts:33-40 | In every interleaving an update writes exactly the columns in which the row it loaded, with what the command gives, differs from the row that its save probed; it inserts that row if there was none to probe, and a slug that another tenant holds is rejected |
| `TenancyHistory.NameIsRevertedIff` | src/contexts/tenancy/application/commands/update-tenant/update-tenant.handler.ts:39-40 | Lost updates, exactly: an update that was given no name changes the stored name if and only if the name changed between its load and its probe and is not back |
| `TenancyWitness.NameIsLost` | src/contexts/tenancy/application/commands/update-tenant/update-tenant.handler.ts:33-40 | A run of two updates, one of the name and one of the slug, that both succeed and end with the old name |
| `TenancySerial.CreateDoes` | src/contexts/tenancy/application/commands/create-tenant/create-tenant.handler.ts:45-84 | Run alone, a create is refused for an unknown app or a slug held in the app; else it leaves the tenant with these columns, and its owner unless the creator is no user |
| `TenancySerial.UpdateDoes` | src/contexts/tenancy/domain/aggregates/tenant/tenant.aggregate.ts:33-50 | Run alone, an update is refused for an unknown tenant or a slug that another tenant of the app holds; else the tenant ends with the given name and slug, each as before if not given, and nothing else changes |
| `TenancySerial.DeleteDoes` | src/contexts/tenancy/application/services/write/assert-tenant-owner/assert-tenant-owner.service.ts:24-31 | Run alone, a delete takes the tenant and all its memberships and nothing else if the requester has a membership of it with the role OWNER; otherwise it is refused and changes nothing |
| `TenancySerial.AddMemberDoes` | src/contexts/tenancy/application/commands/add-tenant-member/add-tenant-member.handler.ts:46-83 | Run alone, an add-member is refused for an unknown tenant or user or for a member; else the user is a member with the role asked for |
| `TenancySerial.TenancyService.CreateTenant` | src/contexts/tenancy/application/commands/create-tenant/create-tenant.handler.ts:45-84 | The handler run alone does what the step machine does: what that is says `CreateDoes` |
| `TenancySerial.TenancyService.UpdateTenant` | src/contexts/tenancy/application/commands/update-tenant/update-tenant.handler.ts:30-46 | The handler run alone does what the step machine does: what that is says `UpdateDoes` |
| `TenancySerial.TenancyService.DeleteTenant` | src/contexts/tenancy/application/commands/delete-tenant/delete-tenant.handler.ts:36-53 | The handler run alone does what the step machine does: what that is says `DeleteDoes` |
| `TenancySerial.TenancyService.AddTenantMember` | src/contexts/tenancy/application/commands/add-tenant-member/add-tenant-member.handler.ts:46-83 | The handler run alone does what the step machine does: what that is says `AddMemberDoes` |
| `TenancySerial.OwnersAtBoundaries` | src/contexts/tenancy/README.md:141-144 | One at a time and uncut, a handler leaves every tenant owned exactly when it is not a create past its checks for a creator who is not a user |
| `TenancySerial.ConsistentToEnd` | src/database/migrations/1788165600000-CreateIdentityAndTenancy.ts:54-86 | Run alone, every handler leaves the tables consistent |
| `TenancySerial.SerialHistoryKeepsOwners` | src/contexts/tenancy/README.md:141-144 | After any serial history without such a create every tenant has an owner |
| `AggregateLog.UserAggregate.Update` | src/contexts/user/domain/aggregates/user.aggregate.ts:38-62 | The given fields end with the given values and the others as they were; logs one event per real change and one closing event |
| `AggregateLog.UserAggregate.UpdateAll` | src/contexts/user/domain/aggregates/user.aggregate.ts:38-62 | A sequence of updates leaves the state and the log that the theorems about sequences speak of |
| `AggregateLog.TenantAggregate.Update` | src/contexts/tenancy/domain/aggregates/tenant/tenant.aggregate.ts:33-50 | The given fields end with the given values and the others as they were; logs one event per real change and one closing event |
| `AggregateLog.TenantMembershipAggregate.Update` | src/contexts/tenancy/domain/aggregates/tenant-membership/tenant-membership.aggregate.ts:31-47 | The role ends as given, or as it was; logs an event for a real change and one closing event |
| `AggregateLog.UserUpdateMeaning` | src/contexts/user/domain/aggregates/user.aggregate.ts:38-62 | The fields and the events after an update of a user, in terms of its arguments alone |
| `AggregateLog.TenantUpdateMeaning` | src/contexts/tenancy/domain/aggregates/tenant/tenant.aggregate.ts:33-50 | The same for a tenant |
| `AggregateLog.RoleUpdateMeaning` | src/contexts/tenancy/domain/aggregates/tenant-membership/tenant-membership.aggregate.ts:31-47 | The same for a membership |
| `AggregateLog.ReplayConcat` | src/contexts/user/domain/aggregates/user.aggregate.ts:38-62 | Two logs that fit together replay as one |
| `AggregateLog.EditsReplay` | src/contexts/user/domain/aggregates/user.aggregate.ts:73-141 | The field-changed events of one update replay to its result, each starting from the field's current value and changing it |
| `AggregateLog.LogReplays` | src/contexts/user/domain/aggregates/user.aggregate.ts:38-62 | For any sequence of updates the log replays to the final state, every event fits the state at its place, every closing event shows the state so far, and there is one per call |
| `AggregateLog.DisplayNameStaysSet` | src/contexts/user/domain/aggregates/user.aggregate.ts:48-50 | A display name once set is never null again |
| `TopicMap.CollectAggregateFiles` | scripts/generate-aggregate-module-map.ts:43-67 | The recursive loop yields the aggregate files in walking order |
| `TopicMap.WalkFinds` | scripts/generate-aggregate-module-map.ts:51-66 | The walk finds exactly the aggregate files below the directory, at any depth |
| `TopicMap.SpecSuffixExcludesNothing` | scripts/generate-aggregate-module-map.ts:60-61 | The second suffix test never excludes a file the first lets through |
| `TopicMap.RegisterAggregateFile` | scripts/generate-aggregate-module-map.ts:69-86 | Fails exactly when a class of the file is registered under another module, and names the class and both modules; otherwise adds exactly the file's pairs |
| `TopicMap.RegisterModule` | scripts/generate-aggregate-module-map.ts:117-119 | A failure names a class and two modules that have it; otherwise exactly the module's pairs are added |
| `TopicMap.PairsMeaning` | scripts/generate-aggregate-module-map.ts:107-120 | The scanned pairs are the exported classes of the aggregate files with the module they lie in |
| `TopicMap.AggregateFileIff` | scripts/generate-aggregate-module-map.ts:58-62 | The aggregate files are the files whose names end in .aggregate.ts |
| `TopicMap.FilesOfIff` | scripts/generate-aggregate-module-map.ts:110-117 | The files of a module are the aggregate files, at any depth, below a directory aggregates in its directory domain |
| `TopicMap.PairsAreExports` | scripts/generate-aggregate-module-map.ts:107-120 | The scanned pairs in terms of the names of files and directories alone |
| `TopicMap.LessIsBefore` | scripts/generate-aggregate-module-map.ts:124 | The comparison is dictionary order: at the first difference the smaller character, or the end, comes first |
| `TopicMap.CollectMappings` | scripts/generate-aggregate-module-map.ts:93-125 | Fails exactly when some class is exported in two modules, and names them; else yields every exported class with its module, and nothing else, in strictly ascending dictionary order |
| `TopicMap.SortedAscends` | scripts/generate-aggregate-module-map.ts:122-124 | The sort yields the same pairs in strictly ascending dictionary order |
| `TopicMap.AscendingUnique` | scripts/generate-aggregate-module-map.ts:122-124 | A strictly ascending list is determined by its elements |
| `TopicMap.PermutationIsSame` | scripts/generate-aggregate-module-map.ts:98-120 | A reordering of a directory is the same listing |
| `TopicMap.OrderDoesNotMatter` | scripts/generate-aggregate-module-map.ts:88-92 | Whatever order any directory at any depth lists its entries in, the generator fails alike or yields the same list |
| `Registration.UsersAndIdentitiesAgree` | src/contexts/auth/application/commands/register-user/register-user.handler.ts:37-52 | In every interleaving each local user has the identity the provider registered for that email, and emails and external ids are unique |
| `Registration.AcceptedIsNeverRejected` | src/contexts/user/application/commands/create-user/create-user.handler.ts:33-51 | A request that the provider accepted is never refused for its email: the second look and the unique constraints never fire; its save writes the provider's id |
| `Registration.TakenEmailIsAConflict` | src/contexts/auth/infrastructure/adapters/keycloak-identity-provider.adapter.ts:62-66 | A locally taken email never gets a new identity; the provider answers with a conflict |
| `Registration.OneSuccessPerEmail` | src/contexts/auth/application/commands/register-user/register-user.handler.ts:37-52 | Of the registrations of one email at most one ever succeeds, and then no other is on its way |
| `Registration.OnlyKnownEmailsAreRefused` | src/contexts/auth/application/commands/register-user/register-user.handler.ts:37-52 | In every interleaving, failures of the provider included, a refused registration asked for an email that the provider has an identity for |
| `Registration.TakenIff` | src/database/migrations/1788165600000-CreateIdentityAndTenancy.ts:48-49 | An email is taken after a run exactly when it was before or the run saves it |
| `Registration.TakenEmailReachesProviderIff` | src/contexts/auth/application/commands/register-user/register-user.handler.ts:37-46 | A taken email reaches the provider exactly when it is saved between the check and the call |
| `Registration.TakenEmailCanReachProvider` | src/contexts/auth/application/commands/register-user/register-user.handler.ts:37-46 | A reachable state and a call to the provider with a taken email, which the provider refuses |
| `Registration.OrphanedIff` | src/contexts/auth/application/commands/register-user/register-user.handler.ts:37-52 | An identity without a user arises exactly when a request stops after the provider accepted it or the answer is lost |
| `Registration.OrphanIsForever` | src/contexts/auth/application/commands/register-user/register-user.handler.ts:37-52 | An orphaned identity stays orphaned in every continuation |
| `Registration.OrphanedEmailNeverRegisters` | src/contexts/auth/application/commands/register-user/register-user.handler.ts:37-52 | After an identity is orphaned no registration of its email ever succeeds |
| `Registration.RegisterUserHandler.CreateUser` | src/contexts/user/application/commands/create-user/create-user.handler.ts:30-57 | Refuses a taken email or external id, else adds a row that depends on the arguments only, whatever the shared builder was left with |
| `Registration.RegisterUserHandler.Register` | src/contexts/auth/application/commands/register-user/register-user.handler.ts:34-57 | One registration alone: refused locally, refused by the provider, or registered in both |
| `Registration.RegisteredIsAloneRun` | src/contexts/auth/application/commands/register-user/register-user.handler.ts:34-57 | The interleaved machine, with one request at a time, ends the same |
| `Registration.SerialRegistration` | src/contexts/auth/application/commands/register-user/register-user.handler.ts:37-52 | Serial and failure-free, local emails and identities stay the same set, and a registration succeeds exactly for a new email |
| `PlatformAdmin.SplitMeaning` | src/core/config/auth.config.ts:11-12 | The segments are exactly the maximal stretches without commas |
| `PlatformAdmin.JoinSplit` | src/core/config/auth.config.ts:11-12 | Joining them with commas gives the variable back |
| `PlatformAdmin.SplitJoin` | src/core/config/auth.config.ts:11-12 | Splitting segments joined with commas gives the segments back |
| `PlatformAdmin.TrimMeaning` | src/core/config/auth.config.ts:13 | Trimming cuts the white space and line terminators of ECMAScript off both ends and nothing else |
| `PlatformAdmin.TrimsToOne` | src/core/config/auth.config.ts:13 | There is one way to do so |
| `PlatformAdmin.NormaliseMeaning` | src/core/config/auth.config.ts:13 | What is normalised is what is left between the outer white space, the same up to letter case, and has no letter A to Z |
| `PlatformAdmin.SameNormaliseIff` | src/contexts/auth/application/services/write/reconcile-platform-admin/reconcile-platform-admin.service.ts:24-25 | Two texts are normalised to the same exactly if between their outer white space they are the same up to letter case |
| `PlatformAdmin.OuterWhiteSpace` | src/core/config/auth.config.ts:13 | White space around a text does not matter, and exactly 25 characters are white space |
| `PlatformAdmin.NormalisedTwice` | src/core/config/auth.config.ts:13 | Normalising twice is normalising once, so a listed email matches itself |
| `PlatformAdmin.ListMeaning` | src/core/config/auth.config.ts:8-15 | An email is on the parsed list exactly when some stretch between commas is the same email up to outer white space and case |
| `PlatformAdmin.ReconcileMeaning` | src/contexts/auth/application/services/write/reconcile-platform-admin/reconcile-platform-admin.service.ts:19-30 | The decision asks for a write exactly when the flag is not what the variable says, and then for the other value |
| `PlatformAdmin.FlagEventsMeaning` | src/contexts/user/application/commands/set-user-platform-admin/set-user-platform-admin.handler.ts:40-42 | A change publishes one flag event from the old value to the new and one closing event |
| `PlatformAdmin.PlatformAdminHandlers.SetPlatformAdmin` | src/contexts/user/application/commands/set-user-platform-admin/set-user-platform-admin.handler.ts:28-47 | An equal flag writes and publishes nothing; otherwise the flag alone changes, with one write |
| `PlatformAdmin.PlatformAdminHandlers.Login` | src/contexts/auth/application/commands/login-user/login-user.handler.ts:62-100 | The signed claim is what the variable says, and equals the stored flag afterwards; a refused login changes nothing |
| `PlatformAdmin.PlatformAdminHandlers.LoginAll` | src/contexts/auth/application/commands/login-user/login-user.handler.ts:62-100 | A sequence of logins leaves the flags and returns the claims that the theorems about sequences speak of |
| `PlatformAdmin.FlagsFollowTheVariable` | src/contexts/auth/application/commands/login-user/login-user.handler.ts:76-94 | After any logins a user's flag is what the variable said at the user's own last login that found it set, else as before |
| `PlatformAdmin.ClaimsFollowTheVariable` | src/contexts/auth/application/commands/login-user/login-user.handler.ts:92-100 | Every claim of a sequence of logins is the flag stored right after it, and what the variable said at the user's last login that found it set |
| `PlatformAdmin.FixedVariable` | src/contexts/auth/application/commands/login-user/login-user.handler.ts:76-100 | With the variable fixed, exactly the listed ones among those who logged in are admins, the others keep their flag, and every claim says whether its user is listed |
| `PlatformAdmin.UnsetVariable` | src/contexts/auth/application/services/write/reconcile-platform-admin/reconcile-platform-admin.service.ts:24 | With the variable unset no login changes any user |
| `PlatformAdmin.RepeatedLoginWritesNothing` | src/contexts/user/application/commands/set-user-platform-admin/set-user-platform-admin.handler.ts:33-38 | A repeated login asks for no write |
| `Migration.SplitUp` | src/database/migrations/1788181125000-SplitUserAndAuthSession.ts:14-37 | Every statement can run; the user table loses its token columns with their constraint, and an empty session table appears |
| `Migration.SplitDown` | src/database/migrations/1788181125000-SplitUserAndAuthSession.ts:39-47 | The session table is dropped, and every statement can run for any rows, the new unique constraint included |
| `Migration.SplitRoundTrip` | src/database/migrations/1788181125000-SplitUserAndAuthSession.ts:14-47 | Whatever sessions are made in between, down after up restores the set of tables and the user table's schema |
| `Migration.ChainUp` | src/database/migrations/1788200000000-SessionChainRotation.ts:23-47 | Every statement can run for any rows; no row, and so no earlier token, is left |
| `Migration.ChainDown` | src/database/migrations/1788200000000-SessionChainRotation.ts:49-69 | Every statement can run, with several live rows per user in the table |
| `Migration.ChainRoundTrip` | src/database/migrations/1788200000000-SessionChainRotation.ts:23-69 | Whatever sessions are made in between, down after up restores columns, constraints and indexes |
| `Migration.AdmittedIff` | src/database/migrations/1788200000000-SessionChainRotation.ts:31-35 | A row fits the earlier table exactly with six values, and the later one if of eight only the revocation time and the successor are missing |
| `Migration.MeetsIff` | src/database/migrations/1788181125000-SplitUserAndAuthSession.ts:23-35 | The constraints that the two schemas put on their rows, in full: which columns are unique, which refer, which may be null |
| `Migration.ReachableTableMeetsSchema` | src/database/migrations/1788200000000-SessionChainRotation.ts:31-46 | In every reachable state of the rotation protocol the session table meets every constraint that the migration leaves |
| `Migration.RowsAreInserted` | src/database/migrations/1788200000000-SessionChainRotation.ts:49-50 | A user's session rows are as many as the logins and rotations of the history: none is ever deleted |
| `Migration.UniqueUserIff` | src/database/migrations/1788200000000-SessionChainRotation.ts:65-68 | Why down deletes first: after a serial history the unique constraint could be added to the rows as they are if and only if no user logged in twice or ever refreshed |

## Left out

- OwnerlessIsExplained: one direction only, and a finished update that re-inserted a tenant counts as an explanation ever after; the exact form, in terms of the run, is OwnerlessIff.
- Expiry is any time: the length of a token's life and the configuration behind it.
- The failures possible after a rotation has committed (no tenants, no signature) are one outcome, `Lost`.
- Users that register while the rotation protocol runs: its set of users is all that are ever registered.
- A process that dies while PostgreSQL still works on its bulk revoke: a crash ends the statement with the request.
- The difference between the application's clock and the database's `NOW()`, and `updated_at` in the protocol.
- Deleting users and apps, and what the cascades from them take along: no handler does either.
- The session repository's `findLockedById`, `findByUserId` and `delete`: no handler calls them.
- Value-object validation and the base class of the builders (nestjs-kit is not part of this model); an id that the base class accepts is a precondition of the session builder.
- The created and deleted events of the aggregates, event metadata, and publishing them to Kafka or an event store.
- The order of publishing and saving inside a handler: events are counted where they matter, for the platform-admin flag.
- Letter case beyond A to Z: other letters are compared as they are.
- Platform-admin reconciliation under concurrent logins: logins are serial there.
- The session that a login creates is in the rotation protocol, the flag it sets in the platform-admin model; the two are not one machine.
- Identities that are deleted or renamed at the provider by hand.
- Keycloak's HTTP calls, JWT signing, keys and JWKS, password verification (a login is verified or not).
- How the generator finds exported classes in a file's text, and how it renders and compares the generated file: a file is the list of its exported classes.
- Column lengths and defaults in the migrations, and the rows of other tables.
- The `App` aggregate and its handlers: the tenant's pattern with fewer constraints.
- REST, GraphQL, MCP, cookies, logging, telemetry, dependency injection.
