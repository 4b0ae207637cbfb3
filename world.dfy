/** The entity record the world registry holds: an id, the transform's
    translation, the displayed atlas and which of the game's components the
    entity carries. */
module World {
  import opened Geometry
  import opened AnimationPlugin

  /** The `Player` component (src/player.rs:13-16). */
  datatype Player = Player(speed: real)

  /** The `Enemy` component (src/enemy.rs:15-19). */
  datatype Enemy = Enemy(direction: Vec2, speed: real)

  /** `Scenery` stands for entities that carry neither component: the
      camera, the score text and the menu's widgets. */
  datatype Kind = PlayerKind(player: Player) | EnemyKind(enemy: Enemy) | Scenery

  datatype Entity = Entity(id: nat, translation: Vec3, atlas: AtlasId, kind: Kind)

  /** `With<Player>`. */
  predicate IsPlayer(e: Entity)
  {
    e.kind.PlayerKind?
  }

  /** `With<Enemy>`. */
  predicate IsEnemy(e: Entity)
  {
    e.kind.EnemyKind?
  }

  /** An actor: a player or an enemy. */
  predicate IsActor(e: Entity)
  {
    IsPlayer(e) || IsEnemy(e)
  }
}
