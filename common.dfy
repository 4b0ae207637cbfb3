/** Game states, the transitions the plugins make between them, and the
    "despawn every entity carrying component T" helper shared by the
    plugins (src/common/mod.rs). */
module Common {

  datatype Option<T> = None | Some(value: T)

  /** The three modes of the game (src/common/mod.rs:13-20). */
  datatype GameState = Loading | Playing | Menu

  /** Bevy's `State<GameState>` resource: the one active state. */
  class State {
    var current: GameState

    constructor (initial: GameState)
      ensures current == initial
    {
      current := initial;
    }

    /** `state.set(next).unwrap()`: Bevy returns an error when `next` is already
        the active state, and the callers unwrap it, so they must not do that. */
    method Set(next: GameState)
      requires current != next
      modifies this
      ensures current == next
    {
      current := next;
    }
  }

  /** What moves the game from one state to the next: the loader finishing,
      a collision of the player, and the menu's start button (the menu,
      src/menu.rs, is not part of this model). */
  datatype Trigger = AssetsLoaded | PlayerHit | StartPressed

  /** The transitions the plugins make (src/loading.rs:31,
      src/player.rs:116); any other trigger leaves the state alone. */
  function Next(s: GameState, t: Trigger): (r: GameState)
    ensures r != s ==> (s == Loading && r == Menu) || (s == Playing && r == Menu) || (s == Menu && r == Playing)
    ensures r != s <==> (s, t) == (Loading, AssetsLoaded) || (s, t) == (Playing, PlayerHit) || (s, t) == (Menu, StartPressed)
  {
    match (s, t)
    case (Loading, AssetsLoaded) => Menu
    case (Playing, PlayerHit) => Menu
    case (Menu, StartPressed) => Playing
    case _ => s
  }

  function RunStates(s: GameState, ts: seq<Trigger>): GameState
    decreases |ts|
  {
    if ts == [] then s else RunStates(Next(s, ts[0]), ts[1..])
  }

  /** Once it has left Loading the game never returns to it. */
  lemma {:induction false} NeverBackToLoading(s: GameState, ts: seq<Trigger>)
    requires s != Loading
    ensures RunStates(s, ts) != Loading
    decreases |ts|
  {
    if ts != [] {
      NeverBackToLoading(Next(s, ts[0]), ts[1..]);
    }
  }

  /** The entities of `s` that do not carry the component `has` tests for,
      in their original order. */
  function Without<E(!new)>(s: seq<E>, has: E -> bool): (r: seq<E>)
    ensures |r| <= |s|
  {
    if s == [] then []
    else
      var init, last := s[..|s| - 1], s[|s| - 1];
      assert s == init + [last];
      Without(init, has) + (if has(last) then [] else [last])
  }

  /** The entities that stay are exactly the old world's untagged ones:
      none tagged remains. */
  lemma {:induction false} WithoutMembers<E(!new)>(s: seq<E>, has: E -> bool)
    ensures forall x :: x in Without(s, has) <==> x in s && !has(x)
  {
    if s != [] {
      var init, last := s[..|s| - 1], s[|s| - 1];
      assert s == init + [last];
      WithoutMembers(init, has);
    }
  }

  /** Appending one entity keeps it exactly when it is untagged. */
  lemma WithoutSnoc<E(!new)>(s: seq<E>, x: E, has: E -> bool)
    ensures Without(s + [x], has) == Without(s, has) + (if has(x) then [] else [x])
  {
    assert (s + [x])[..|s + [x]| - 1] == s;
  }

  /** Each entity without the component stays as many times as it was
      there; none with it stays. */
  lemma {:induction false} WithoutCounts<E(!new)>(s: seq<E>, has: E -> bool, x: E)
    ensures multiset(Without(s, has))[x] == if has(x) then 0 else multiset(s)[x]
  {
    if s != [] {
      var init, last := s[..|s| - 1], s[|s| - 1];
      assert s == init + [last];
      WithoutCounts(init, has, x);
    }
  }

  /** Removing tagged entities commutes with concatenation, so the relative
      order of the entities that stay is the order they had. */
  lemma {:induction false} WithoutAppend<E(!new)>(a: seq<E>, b: seq<E>, has: E -> bool)
    ensures Without(a + b, has) == Without(a, has) + Without(b, has)
    decreases |b|
  {
    if b == [] {
      assert a + b == a;
    } else {
      var init, last := b[..|b| - 1], b[|b| - 1];
      var tail := if has(last) then [] else [last];
      var front, rest := Without(a, has), Without(init, has);
      assert Without(a + b, has) == Without(a + init, has) + tail by {
        assert a + b == (a + init) + [last];
        WithoutSnoc(a + init, last, has);
      }
      assert Without(b, has) == rest + tail by {
        assert b == init + [last];
        WithoutSnoc(init, last, has);
      }
      WithoutAppend(a, init, has);
      assert (front + rest) + tail == front + (rest + tail);
    }
  }

  /** When no entity carries the component, clearing changes nothing. */
  lemma {:induction false} WithoutNoneTagged<E(!new)>(s: seq<E>, has: E -> bool)
    requires forall x :: x in s ==> !has(x)
    ensures Without(s, has) == s
  {
    if s != [] {
      var init, last := s[..|s| - 1], s[|s| - 1];
      assert s == init + [last];
      assert !has(last);
      forall x | x in init
        ensures !has(x)
      {
        assert x in s;
      }
      WithoutNoneTagged(init, has);
      assert Without(s, has) == Without(init, has) + [last];
    }
  }

  /** When every entity carries the component, clearing leaves nothing. */
  lemma {:induction false} WithoutAllTagged<E(!new)>(s: seq<E>, has: E -> bool)
    requires forall x :: x in s ==> has(x)
    ensures Without(s, has) == []
  {
    if s != [] {
      var init := s[..|s| - 1];
      assert forall x :: x in init ==> x in s;
      WithoutAllTagged(init, has);
    }
  }

  /** A second clear removes nothing. */
  lemma WithoutIdempotent<E(!new)>(s: seq<E>, has: E -> bool)
    ensures Without(Without(s, has), has) == Without(s, has)
  {
    WithoutMembers(s, has);
    WithoutNoneTagged(Without(s, has), has);
  }

  /** The world's entity store, flattened to the records of its entities.
      `spawned` counts the entities ever spawned and is the next entity id. */
  class Registry<E(!new)> {
    var entities: seq<E>
    var spawned: nat

    constructor ()
      ensures entities == [] && spawned == 0
    {
      entities, spawned := [], 0;
    }

    /** `commands.spawn_bundle(..)`: the new entity joins the store. */
    method Spawn(e: E)
      modifies this
      ensures entities == old(entities) + [e]
      ensures spawned == old(spawned) + 1
    {
      entities := entities + [e];
      spawned := spawned + 1;
    }

    /** `clear_entities::<T>` (src/common/mod.rs:22-25): one pass over the
        entities carrying T, despawning each one. */
    method ClearEntities(has: E -> bool)
      modifies this`entities
      ensures entities == Without(old(entities), has)
    {
      var kept: seq<E> := [];
      var i := 0;
      while i < |entities|
        invariant 0 <= i <= |entities|
        invariant kept == Without(entities[..i], has)
      {
        assert entities[..i + 1][..i] == entities[..i];
        if !has(entities[i]) {
          kept := kept + [entities[i]];
        }
        i := i + 1;
      }
      assert entities[..i] == entities;
      entities := kept;
    }
  }
}
