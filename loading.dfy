/** What the game rules take from the asset loader (src/loading.rs): the atlas
    handles of the player and the three enemy kinds, the random choice of an
    enemy skin, and the state the loader moves on to. Loading the images and
    building the atlases is not modelled. */
module LoadingPlugin {
  import opened Common
  import opened AnimationPlugin

  /** A value of `rand::random::<u8>()`. */
  type Byte = x: nat | x < 256

  /** `EnemyTextureAtlas` (src/loading.rs:90-94). */
  datatype EnemyTextureAtlas = EnemyTextureAtlas(fly: AtlasId, swim: AtlasId, walk: AtlasId)

  /** `PlayerTextureAtlas` (src/loading.rs:107-110). */
  datatype PlayerTextureAtlas = PlayerTextureAtlas(up: AtlasId, walk: AtlasId)

  predicate Distinct(assets: EnemyTextureAtlas)
  {
    assets.fly != assets.swim && assets.fly != assets.walk && assets.swim != assets.walk
  }

  /** `EnemyTextureAtlas::random` with the byte it draws (src/loading.rs:96-105). */
  function Random(assets: EnemyTextureAtlas, r: Byte): (a: AtlasId)
    ensures a == assets.fly || a == assets.swim || a == assets.walk
  {
    var i := r % 3;
    if i == 0 then assets.fly
    else if i == 1 then assets.swim
    else assets.walk
  }

  /** With three different atlases, the residue of the byte decides the skin:
      0 gives fly, 1 swim and 2 walk, and nothing else gives them. */
  lemma RandomByResidue(assets: EnemyTextureAtlas, r: Byte)
    requires Distinct(assets)
    ensures Random(assets, r) == assets.fly <==> r % 3 == 0
    ensures Random(assets, r) == assets.swim <==> r % 3 == 1
    ensures Random(assets, r) == assets.walk <==> r % 3 == 2
  {
  }

  /** How many of the bytes 0 .. n-1 choose `atlas`. */
  function CountChosen(assets: EnemyTextureAtlas, atlas: AtlasId, n: nat): nat
    requires n <= 256
  {
    if n == 0 then 0
    else CountChosen(assets, atlas, n - 1) + (if Random(assets, n - 1) == atlas then 1 else 0)
  }

  lemma {:induction false} ChoiceCounts(assets: EnemyTextureAtlas, n: nat)
    requires Distinct(assets) && n <= 256
    ensures CountChosen(assets, assets.fly, n) == (n + 2) / 3
    ensures CountChosen(assets, assets.swim, n) == (n + 1) / 3
    ensures CountChosen(assets, assets.walk, n) == n / 3
  {
    if n > 0 {
      ChoiceCounts(assets, n - 1);
      RandomByResidue(assets, n - 1);
    }
  }

  /** Over the 256 bytes fly is chosen 86 times and swim and walk 85 times
      each: the choice is slightly skewed toward fly. */
  lemma RandomIsSkewed(assets: EnemyTextureAtlas)
    requires Distinct(assets)
    ensures CountChosen(assets, assets.fly, 256) == 86
    ensures CountChosen(assets, assets.swim, 256) == 85
    ensures CountChosen(assets, assets.walk, 256) == 85
  {
    ChoiceCounts(assets, 256);
  }

  /** The state the loader continues to once every collection is loaded
      (src/loading.rs:25, 31). */
  const ContinueState: GameState := Menu

  /** The loader's transition out of Loading. */
  method FinishLoading(state: State)
    requires state.current == Loading
    modifies state
    ensures state.current == ContinueState && state.current != Playing
    ensures state.current == Next(old(state.current), AssetsLoaded)
  {
    state.Set(ContinueState);
  }
}
