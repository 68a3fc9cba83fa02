/**
 The session aggregate, the shared builder that makes it, and the mapper to the
 table entity. Identifiers are strings here because the builder treats an empty
 string as absent.
 */
module SessionModel {
  import opened Options
  import SessionProtocol

  type Time = SessionProtocol.Time

  datatype SessionPrimitives = SessionPrimitives(
    id: string, userId: string, refreshTokenHash: string, expiresAt: Time, revokedAt: Option<Time>,
    replacedBySessionId: Option<string>, createdAt: Time, updatedAt: Time)

  datatype SessionEntity = SessionEntity(
    id: string, userId: string, refreshTokenHash: string, refreshTokenExpiresAt: Time, revokedAt: Option<Time>,
    replacedBySessionId: Option<string>, createdAt: Time, updatedAt: Time)

  datatype BuildError = FieldIsRequired(field: string)

  class SessionAggregate {
    const id: string
    const userId: string
    const refreshTokenHash: string
    const expiresAt: Time
    var revokedAt: Option<Time>
    var replacedBySessionId: Option<string>
    const createdAt: Time
    var updatedAt: Time

    constructor (props: SessionPrimitives)
      ensures ToPrimitives() == props
      ensures id == props.id && userId == props.userId && refreshTokenHash == props.refreshTokenHash && expiresAt == props.expiresAt
      ensures revokedAt == props.revokedAt && replacedBySessionId == props.replacedBySessionId
      ensures createdAt == props.createdAt && updatedAt == props.updatedAt
    {
      id, userId, refreshTokenHash, expiresAt := props.id, props.userId, props.refreshTokenHash, props.expiresAt;
      revokedAt, replacedBySessionId := props.revokedAt, props.replacedBySessionId;
      createdAt, updatedAt := props.createdAt, props.updatedAt;
    }

    function ToPrimitives(): SessionPrimitives
      reads this
    {
      SessionPrimitives(id, userId, refreshTokenHash, expiresAt, revokedAt, replacedBySessionId, createdAt, updatedAt)
    }

    predicate IsExpired(now: Time) { expiresAt <= now }

    predicate IsRevoked()
      reads this
    {
      revokedAt.Some?
    }

    method Revoke(replacedBy: string, now: Time)
      modifies this
      ensures ToPrimitives() ==
              old(ToPrimitives()).(revokedAt := Some(now), replacedBySessionId := Some(replacedBy), updatedAt := now)
    {
      revokedAt := Some(now);
      replacedBySessionId := Some(replacedBy);
      updatedAt := now;
    }

    /** Touches the session and nothing else: it stays revoked, with its link. */
    method MarkReuseDetected(now: Time)
      modifies this
      ensures ToPrimitives() == old(ToPrimitives()).(updatedAt := now)
    {
      updatedAt := now;
    }
  }

  /** A shared mutable object: what one build leaves behind, the next one finds. */
  class SessionBuilder {
    var id: Option<string>
    var userId: Option<string>
    var refreshTokenHash: Option<string>
    var expiresAt: Option<Time>
    var revokedAt: Option<Time>
    var replacedBySessionId: Option<string>
    var createdAt: Option<Time>
    var updatedAt: Option<Time>

    constructor ()
      ensures id.None? && userId.None? && refreshTokenHash.None? && expiresAt.None?
      ensures revokedAt.None? && replacedBySessionId.None? && createdAt.None? && updatedAt.None?
    {
      id, userId, refreshTokenHash, expiresAt := None, None, None, None;
      revokedAt, replacedBySessionId, createdAt, updatedAt := None, None, None, None;
    }

    method WithId(value: string)
      modifies this`id
      ensures id == Some(value)
    {
      id := Some(value);
    }

    method WithUserId(value: string)
      modifies this`userId
      ensures userId == Some(value)
    {
      userId := Some(value);
    }

    method WithRefreshTokenHash(value: string)
      modifies this`refreshTokenHash
      ensures refreshTokenHash == Some(value)
    {
      refreshTokenHash := Some(value);
    }

    method WithExpiresAt(value: Time)
      modifies this`expiresAt
      ensures expiresAt == Some(value)
    {
      expiresAt := Some(value);
    }

    method WithRevokedAt(value: Option<Time>)
      modifies this`revokedAt
      ensures revokedAt == value
    {
      revokedAt := value;
    }

    method WithReplacedBySessionId(value: Option<string>)
      modifies this`replacedBySessionId
      ensures replacedBySessionId == value
    {
      replacedBySessionId := value;
    }

    method WithCreatedAt(value: Time)
      modifies this`createdAt
      ensures createdAt == Some(value)
    {
      createdAt := Some(value);
    }

    method WithUpdatedAt(value: Time)
      modifies this`updatedAt
      ensures updatedAt == Some(value)
    {
      updatedAt := Some(value);
    }

    /** build at time now. The base class is assumed to have accepted the id. */
    method Build(now: Time) returns (r: Result<SessionAggregate, BuildError>)
      requires id.Some?
      ensures r.Err? <==> Missing(userId) || Missing(refreshTokenHash) || expiresAt.None?
      ensures r.Ok? ==> fresh(r.value)
      ensures r.Ok? ==>
                r.value.ToPrimitives() ==
                SessionPrimitives(id.value, userId.value, refreshTokenHash.value, expiresAt.value, revokedAt,
                                  Present(replacedBySessionId), OrElse(createdAt, now), OrElse(updatedAt, now))
      ensures r.Err? ==> r.error == FieldIsRequired(
                if Missing(userId) then "userId"
                else if Missing(refreshTokenHash) then "refreshTokenHash" else "expiresAt")
    {
      if Missing(userId) { return Err(FieldIsRequired("userId")); }
      if Missing(refreshTokenHash) { return Err(FieldIsRequired("refreshTokenHash")); }
      if expiresAt.None? { return Err(FieldIsRequired("expiresAt")); }
      var link := if replacedBySessionId.Some? && replacedBySessionId.value != "" then replacedBySessionId else None;
      var created := if createdAt.Some? then createdAt.value else now;
      var updated := if updatedAt.Some? then updatedAt.value else now;
      var aggregate := new SessionAggregate(
        SessionPrimitives(id.value, userId.value, refreshTokenHash.value, expiresAt.value, revokedAt, link, created, updated));
      return Ok(aggregate);
    }
  }

  /** Undefined and the empty string are both falsy. */
  predicate Missing(value: Option<string>) { value.None? || value.value == "" }

  function Present(value: Option<string>): Option<string> {
    if Missing(value) then None else value
  }

  function OrElse(value: Option<Time>, default: Time): Time {
    if value.Some? then value.value else default
  }

  class SessionMapper {
    const sessionBuilder: SessionBuilder

    constructor (builder: SessionBuilder)
      ensures sessionBuilder == builder
    {
      sessionBuilder := builder;
    }

    /** Whatever the builder held, the result is a function of the entity alone. */
    method ToAggregate(entity: SessionEntity, now: Time) returns (r: Result<SessionAggregate, BuildError>)
      modifies sessionBuilder
      ensures r.Ok? <==> Mappable(entity)
      ensures r.Ok? ==> fresh(r.value) && r.value.ToPrimitives() == PrimitivesOf(entity)
      ensures r.Ok? ==> r.value.id == entity.id && r.value.userId == entity.userId && r.value.expiresAt == entity.refreshTokenExpiresAt
      ensures r.Ok? ==> r.value.createdAt == entity.createdAt && r.value.updatedAt == entity.updatedAt
      ensures r.Ok? ==> r.value.refreshTokenHash == entity.refreshTokenHash && r.value.revokedAt == entity.revokedAt
    {
      sessionBuilder.WithId(entity.id);
      sessionBuilder.WithUserId(entity.userId);
      sessionBuilder.WithRefreshTokenHash(entity.refreshTokenHash);
      sessionBuilder.WithExpiresAt(entity.refreshTokenExpiresAt);
      sessionBuilder.WithRevokedAt(entity.revokedAt);
      sessionBuilder.WithReplacedBySessionId(entity.replacedBySessionId);
      sessionBuilder.WithCreatedAt(entity.createdAt);
      sessionBuilder.WithUpdatedAt(entity.updatedAt);
      r := sessionBuilder.Build(now);
    }

    method ToEntity(aggregate: SessionAggregate) returns (entity: SessionEntity)
      ensures entity == EntityOf(aggregate.ToPrimitives())
      ensures entity == SessionEntity(aggregate.id, aggregate.userId, aggregate.refreshTokenHash, aggregate.expiresAt,
                                      aggregate.revokedAt, aggregate.replacedBySessionId, aggregate.createdAt, aggregate.updatedAt)
    {
      var p := aggregate.ToPrimitives();
      entity := SessionEntity(p.id, p.userId, p.refreshTokenHash, p.expiresAt, p.revokedAt, p.replacedBySessionId,
                              p.createdAt, p.updatedAt);
    }

    /** A session that the builder made survives the trip to the table and back, from
        any leftover builder state. */
    method SaveAndLoad(aggregate: SessionAggregate, now: Time) returns (loaded: Result<SessionAggregate, BuildError>)
      requires WellFormed(aggregate.ToPrimitives())
      modifies sessionBuilder
      ensures loaded.Ok? && loaded.value.ToPrimitives() == aggregate.ToPrimitives()
    {
      var entity := ToEntity(aggregate);
      RoundTrip(aggregate.ToPrimitives());
      loaded := ToAggregate(entity, now);
    }

    /** The build site shared by login and rotation: every field the build reads is set
        first, so the result depends on the arguments only. */
    method NewSession(id: string, userId: string, refreshTokenHash: string, expiresAt: Time, now: Time, later: Time)
        returns (r: Result<SessionAggregate, BuildError>)
      modifies sessionBuilder
      ensures r.Ok? <==> userId != "" && refreshTokenHash != ""
      ensures r.Ok? ==> fresh(r.value)
      ensures r.Ok? ==>
                r.value.ToPrimitives() ==
                SessionPrimitives(id, userId, refreshTokenHash, expiresAt, None, None, now, now)
    {
      sessionBuilder.WithId(id);
      sessionBuilder.WithUserId(userId);
      sessionBuilder.WithRefreshTokenHash(refreshTokenHash);
      sessionBuilder.WithExpiresAt(expiresAt);
      sessionBuilder.WithRevokedAt(None);
      sessionBuilder.WithReplacedBySessionId(None);
      sessionBuilder.WithCreatedAt(now);
      sessionBuilder.WithUpdatedAt(now);
      r := sessionBuilder.Build(later);
    }
  }

  // ----- The aggregate and the protocol's rows

  /** How the table's strings name what the protocol numbers. */
  datatype Names = Names(id: SessionProtocol.Id -> string, user: SessionProtocol.UserId -> string,
                         hash: SessionProtocol.Digest -> string)

  /** The aggregate holds row i of the protocol. */
  ghost predicate Represents(names: Names, p: SessionPrimitives, i: SessionProtocol.Id, row: SessionProtocol.Row) {
    && p.id == names.id(i) && p.userId == names.user(row.userId) && p.refreshTokenHash == names.hash(row.tokenHash)
    && p.expiresAt == row.expiresAt && p.revokedAt == row.revokedAt
    && p.replacedBySessionId == if row.replacedBy.Some? then Some(names.id(row.replacedBy.value)) else None
  }

  datatype Outcome = Reuse | Expired | Rotation(created: SessionAggregate)

  class RefreshSessionHandler {
    const sessionBuilder: SessionBuilder

    constructor (builder: SessionBuilder)
      ensures sessionBuilder == builder
    {
      sessionBuilder := builder;
    }

    /** The callback under the lock. On the aggregate of a row it decides as the protocol
        decides on the row; a rotation leaves the aggregates of the two rows that the
        protocol's commit publishes, whatever the builder held. */
    method Callback(current: SessionAggregate, id: string, refreshTokenHash: string, expiresAt: Time, now: Time,
                    ghost names: Names, ghost i: SessionProtocol.Id, ghost row: SessionProtocol.Row,
                    ghost next: SessionProtocol.Id, ghost newToken: SessionProtocol.Token)
        returns (outcome: Outcome)
      requires Represents(names, current.ToPrimitives(), i, row)
      requires id == names.id(next) && refreshTokenHash == names.hash(SessionProtocol.Sha256(newToken))
      requires current.userId != "" && refreshTokenHash != ""
      modifies current, sessionBuilder
      ensures SessionProtocol.Decision(row, now, next) ==
              match outcome {
                case Reuse => SessionProtocol.Replaying
                case Expired => SessionProtocol.Rejecting
                case Rotation(_) => SessionProtocol.Built(next)
              }
      ensures outcome.Rotation? ==> fresh(outcome.created)
      ensures outcome.Rotation? ==>
                Represents(names, outcome.created.ToPrimitives(), next,
                           SessionProtocol.Row(row.userId, SessionProtocol.Sha256(newToken), expiresAt, None, None))
      ensures Represents(names, current.ToPrimitives(), i, if outcome.Rotation? then row.Revoke(now, next) else row)
    {
      if current.IsRevoked() {
        current.MarkReuseDetected(now);
        return Reuse;
      }
      if current.IsExpired(now) {
        return Expired;
      }
      sessionBuilder.WithId(id);
      sessionBuilder.WithUserId(current.userId);
      sessionBuilder.WithRefreshTokenHash(refreshTokenHash);
      sessionBuilder.WithExpiresAt(expiresAt);
      sessionBuilder.WithRevokedAt(None);
      sessionBuilder.WithReplacedBySessionId(None);
      sessionBuilder.WithCreatedAt(now);
      sessionBuilder.WithUpdatedAt(now);
      var built := sessionBuilder.Build(now);
      current.Revoke(built.value.id, now);
      outcome := Rotation(built.value);
    }
  }

  predicate Mappable(entity: SessionEntity) { entity.userId != "" && entity.refreshTokenHash != "" }

  /** What every aggregate from the builder satisfies. */
  predicate WellFormed(p: SessionPrimitives) {
    p.userId != "" && p.refreshTokenHash != "" && p.replacedBySessionId != Some("")
  }

  function EntityOf(p: SessionPrimitives): SessionEntity {
    SessionEntity(p.id, p.userId, p.refreshTokenHash, p.expiresAt, p.revokedAt, p.replacedBySessionId, p.createdAt,
                  p.updatedAt)
  }

  function PrimitivesOf(e: SessionEntity): SessionPrimitives {
    SessionPrimitives(e.id, e.userId, e.refreshTokenHash, e.refreshTokenExpiresAt, e.revokedAt,
                      Present(e.replacedBySessionId), e.createdAt, e.updatedAt)
  }

  /** Aggregate to entity and back loses nothing exactly for well-formed links. */
  lemma RoundTrip(p: SessionPrimitives)
    ensures Mappable(EntityOf(p)) && PrimitivesOf(EntityOf(p)) == p <==> WellFormed(p)
  {
  }

  /** Entity to aggregate and back loses nothing exactly when the link is not an
      empty string, which the builder reads as no link. */
  lemma ReverseRoundTrip(e: SessionEntity)
    ensures EntityOf(PrimitivesOf(e)) == e <==> e.replacedBySessionId != Some("")
  {
    if e.replacedBySessionId == Some("") {
      assert EntityOf(PrimitivesOf(e)).replacedBySessionId.None?;
    }
  }
}
