/** URevealLightComponent: a scene component that marks its owner as a reveal
    light, and the global list of such components that it registers itself in. */
module RevealLights {
  import opened Scene

  /** The static AllRevealLights array, held by one object so that its updates
      are in-place changes to a field. Entries are references, duplicates allowed. */
  class LightRegistry {
    var allRevealLights: seq<RevealLightComponent>

    constructor ()
      ensures allRevealLights == []
    {
      allRevealLights := [];
    }
  }

  class RevealLightComponent {
    /** GetComponentLocation / GetForwardVector: the world transform, moved by the engine. */
    var location: Vec3
    var forward: Vec3
    /** Fallback cone cosine, used when no sibling spot light was found. */
    var coneCosAngle: real
    /** When false the manager blanks this light's slot. */
    var isLightOn: bool
    /** The sibling spot light found at BeginPlay, or null. */
    var spotLightCache: SpotLightComponent?

    constructor (location: Vec3, forward: Vec3)
      ensures this.location == location && this.forward == forward
      ensures coneCosAngle == 0.8 && isLightOn && spotLightCache == null
    {
      this.location := location;
      this.forward := forward;
      coneCosAngle := 0.8;
      isLightOn := true;
      spotLightCache := null;
    }

    /** BeginPlay. `owner` is None when the component has no owning actor, and
        Some(s) when it has one, s being what FindComponentByClass returned. */
    method BeginPlay(registry: LightRegistry, owner: Option<SpotLightComponent?>)
      modifies this`spotLightCache, registry
      ensures spotLightCache == (if owner.Some? then owner.value else old(spotLightCache))
      ensures registry.allRevealLights == old(registry.allRevealLights) + [this]
    {
      if owner.Some? {
        spotLightCache := owner.value;
      }
      registry.allRevealLights := registry.allRevealLights + [this];
    }

    /** EndPlay: TArray::Remove drops every occurrence of this component. */
    method EndPlay(registry: LightRegistry)
      modifies registry
      ensures registry.allRevealLights == RemoveAll(old(registry.allRevealLights), this)
      ensures this !in registry.allRevealLights
    {
      registry.allRevealLights := RemoveAll(registry.allRevealLights, this);
    }
  }

  /** The list with every occurrence of x removed, the rest kept in order. */
  function RemoveAll<T(==)>(s: seq<T>, x: T): (r: seq<T>)
    ensures x !in r
    ensures multiset(r) == multiset(s)[x := 0]
    ensures |r| == |s| - multiset(s)[x]
  {
    if s == [] then []
    else if s[0] == x then
      assert s == [s[0]] + s[1..];
      RemoveAll(s[1..], x)
    else
      assert s == [s[0]] + s[1..];
      [s[0]] + RemoveAll(s[1..], x)
  }

  /** Removing from a concatenation removes from each part: the survivors keep
      their relative order. */
  lemma {:induction false} RemoveAllDistributes<T>(s: seq<T>, t: seq<T>, x: T)
    ensures RemoveAll(s + t, x) == RemoveAll(s, x) + RemoveAll(t, x)
  {
    if s != [] {
      assert (s + t)[1..] == s[1..] + t;
      RemoveAllDistributes(s[1..], t, x);
    } else {
      assert s + t == t;
    }
  }

  /** Removing a component that is not registered changes nothing. */
  lemma {:induction false} RemoveAllAbsent<T>(s: seq<T>, x: T)
    requires x !in s
    ensures RemoveAll(s, x) == s
  {
    if s != [] {
      RemoveAllAbsent(s[1..], x);
      assert s == [s[0]] + s[1..];
    }
  }

  /** BeginPlay then EndPlay, from a registry that does not hold the component,
      gives back the registry it started from. */
  lemma RegisterThenUnregister<T>(s: seq<T>, x: T)
    requires x !in s
    ensures RemoveAll(s + [x], x) == s
  {
    RemoveAllDistributes(s, [x], x);
    RemoveAllAbsent(s, x);
    assert RemoveAll([x], x) == [];
  }

  /** Removing twice is the same as removing once. */
  lemma RemoveAllIdempotent<T>(s: seq<T>, x: T)
    ensures RemoveAll(RemoveAll(s, x), x) == RemoveAll(s, x)
  {
    RemoveAllAbsent(RemoveAll(s, x), x);
  }

  /** Registering the same component twice (no duplicate check) still leaves
      no trace of it after one EndPlay. */
  lemma DoubleRegisterSingleUnregister<T>(s: seq<T>, x: T)
    requires x !in s
    ensures RemoveAll(s + [x] + [x], x) == s
  {
    RemoveAllDistributes(s + [x], [x], x);
    RegisterThenUnregister(s, x);
    assert RemoveAll([x], x) == [];
  }
}
