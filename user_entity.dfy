/**
 * The request principal of apps/backend/src/users/entities/user.entity.ts
 * and its JWT object `{id, username}`.
 */
module UserEntities {
  import Identity

  datatype JwtPayload = JwtPayload(id: int, username: string)

  /** `new UserEntity(id, username)` keeps exactly these two fields. */
  datatype UserEntity = UserEntity(id: int, username: string) {

    /** `toJWTObject()`: the entity's id and username, and nothing lost: it converts back to this entity. */
    function ToJwtObject(): (p: JwtPayload)
      ensures p.id == id && p.username == username
      ensures FromJwtObject(p) == this
    {
      JwtPayload(id, username)
    }

    /** `fromJWTObject(payload)`: the entity whose JWT object is `payload`. */
    static function FromJwtObject(payload: JwtPayload): (e: UserEntity)
      ensures e.id == payload.id && e.username == payload.username
    {
      UserEntity(payload.id, payload.username)
    }

    /** `toEntity(user)`: keeps the id and username of the row, drops every other column. */
    static function ToEntity(user: Identity.User): (e: UserEntity)
      ensures e.id == user.id && e.username == user.username
    {
      UserEntity(user.id, user.username)
    }
  }

  /** Both round trips hold: entity to payload and back, payload to entity and back. */
  lemma RoundTrips(e: UserEntity, p: JwtPayload)
    ensures UserEntity.FromJwtObject(e.ToJwtObject()) == e
    ensures UserEntity.FromJwtObject(p).ToJwtObject() == p
  {
  }
}
