/** AFlashlight: an actor with a spot light that is either on or off, and that
    mirrors its state into two vector parameters of a parameter collection so
    that materials can react to it. */
module FlashlightActor {
  import opened Scene

  /** Default names of the two vector parameters the flashlight writes. */
  const DefaultPositionAndStateName: string := "FlashlightPositionAndState"
  const DefaultDirectionAndConeName: string := "FlashlightDirectionAndCone"

  /** Outer cone angle, in degrees, that the constructor gives the spot light. */
  const FlashlightConeAngle: real := 25.0

  /** The vector parameters after switching off: the position-and-state colour is
      read back and written again with alpha 0. When the collection holds no such
      parameter the read-back leaves the local colour as it was, `uninitialized`. */
  function SwitchedOff(m: map<string, LinearColor>, name: string, uninitialized: LinearColor): (r: map<string, LinearColor>)
    ensures r.Keys == m.Keys + {name}
    ensures r[name].a == 0.0
    ensures name in m ==> r[name].r == m[name].r && r[name].g == m[name].g && r[name].b == m[name].b
    ensures name !in m ==> r[name] == uninitialized.WithAlpha(0.0)
    ensures forall k :: k in m && k != name ==> r[k] == m[k]
  {
    var current := if name in m then m[name] else uninitialized;
    m[name := current.WithAlpha(0.0)]
  }

  /** The vector parameters after one update while on: the position with alpha 1
      (the "on" flag the material reads), then the direction with the cone
      cosine as alpha. Should both names be the same, the second write wins. */
  function Updated(m: map<string, LinearColor>, posName: string, dirName: string,
                   location: Vec3, forward: Vec3, cosHalfAngle: real): (r: map<string, LinearColor>)
    ensures r.Keys == m.Keys + {posName, dirName}
    ensures r[dirName] == LinearColor(forward.x, forward.y, forward.z, cosHalfAngle)
    ensures posName != dirName ==> r[posName] == LinearColor(location.x, location.y, location.z, 1.0)
    ensures forall k :: k in m && k != posName && k != dirName ==> r[k] == m[k]
  {
    m[posName := FromVector(location).WithAlpha(1.0)][dirName := FromVector(forward).WithAlpha(cosHalfAngle)]
  }

  /** Switching off after an update leaves the shader the last position with
      alpha 0: "off, last seen here". */
  lemma SwitchOffKeepsLastPosition(m: map<string, LinearColor>, posName: string, dirName: string,
                                   location: Vec3, forward: Vec3, cosHalfAngle: real, uninitialized: LinearColor)
    requires posName != dirName
    ensures var on := Updated(m, posName, dirName, location, forward, cosHalfAngle);
      SwitchedOff(on, posName, uninitialized)[posName] == LinearColor(location.x, location.y, location.z, 0.0)
  {
  }

  /** Switching off a second time writes what the first time wrote. */
  lemma SwitchOffIdempotent(m: map<string, LinearColor>, name: string, uninitialized: LinearColor, other: LinearColor)
    ensures var off := SwitchedOff(m, name, uninitialized);
      SwitchedOff(off, name, other) == off
  {
    var off := SwitchedOff(m, name, uninitialized);
    assert off[name].WithAlpha(0.0) == off[name];
  }

  /** Updating twice from the same spot light state writes what updating once wrote. */
  lemma UpdateIdempotent(m: map<string, LinearColor>, posName: string, dirName: string,
                         location: Vec3, forward: Vec3, cosHalfAngle: real)
    ensures var once := Updated(m, posName, dirName, location, forward, cosHalfAngle);
      Updated(once, posName, dirName, location, forward, cosHalfAngle) == once
  {
    var once := Updated(m, posName, dirName, location, forward, cosHalfAngle);
    assert Updated(once, posName, dirName, location, forward, cosHalfAngle).Keys == once.Keys;
  }

  class Flashlight {
    /** The spot light subobject; the actor always has one. */
    const spotLight: SpotLightComponent
    /** The collection to write; null when none is assigned. */
    var flashlightMPC: ParameterCollection?
    var positionAndStateParamName: string
    var directionAndConeParamName: string
    var isFlashlightActive: bool

    /** The constructor creates the spot light with a 25 degree outer cone; its
        transform and attenuation radius come from the engine. */
    constructor (location: Vec3, forward: Vec3, attenuationRadius: real, flashlightMPC: ParameterCollection?)
      ensures fresh(spotLight) && spotLight.visible
      ensures spotLight.location == location && spotLight.forward == forward
      ensures spotLight.outerConeAngle == FlashlightConeAngle && spotLight.attenuationRadius == attenuationRadius
      ensures this.flashlightMPC == flashlightMPC
      ensures positionAndStateParamName == DefaultPositionAndStateName
      ensures directionAndConeParamName == DefaultDirectionAndConeName
      ensures !isFlashlightActive
    {
      spotLight := new SpotLightComponent(location, forward, FlashlightConeAngle, attenuationRadius);
      this.flashlightMPC := flashlightMPC;
      positionAndStateParamName := DefaultPositionAndStateName;
      directionAndConeParamName := DefaultDirectionAndConeName;
      isFlashlightActive := false;
    }

    /** BeginPlay: the flashlight starts switched off. */
    method BeginPlay(uninitialized: LinearColor)
      modifies this`isFlashlightActive, spotLight`visible, flashlightMPC
      ensures !isFlashlightActive && !spotLight.visible
      ensures flashlightMPC != null ==>
        && flashlightMPC.vectors == SwitchedOff(old(flashlightMPC.vectors), positionAndStateParamName, uninitialized)
        && flashlightMPC.scalars == old(flashlightMPC.scalars)
    {
      SetFlashlightActive(false, uninitialized);
    }

    /** Tick: the collection follows the spot light only while the flashlight is on. */
    method Tick(cosOfDegrees: real -> real)
      modifies flashlightMPC
      ensures !isFlashlightActive && flashlightMPC != null ==> unchanged(flashlightMPC)
      ensures isFlashlightActive && flashlightMPC != null ==>
        && flashlightMPC.vectors == Updated(old(flashlightMPC.vectors), positionAndStateParamName, directionAndConeParamName,
                                            spotLight.location, spotLight.forward, cosOfDegrees(spotLight.outerConeAngle))
        && flashlightMPC.scalars == old(flashlightMPC.scalars)
    {
      if isFlashlightActive {
        UpdateMPC(cosOfDegrees);
      }
    }

    /** SetFlashlightActive: sets the flag and the spot light's visibility. Switching
        off also clears the alpha of the position-and-state parameter, read back
        from the collection; switching on writes nothing. `uninitialized` is the
        value of the local colour when the read-back finds no such parameter. */
    method SetFlashlightActive(isActive: bool, uninitialized: LinearColor)
      modifies this`isFlashlightActive, spotLight`visible, flashlightMPC
      ensures isFlashlightActive == isActive && spotLight.visible == isActive
      ensures isActive && flashlightMPC != null ==> unchanged(flashlightMPC)
      ensures !isActive && flashlightMPC != null ==>
        && flashlightMPC.vectors == SwitchedOff(old(flashlightMPC.vectors), positionAndStateParamName, uninitialized)
        && flashlightMPC.scalars == old(flashlightMPC.scalars)
    {
      isFlashlightActive := isActive;
      spotLight.SetVisibility(isActive);
      if !isFlashlightActive {
        if flashlightMPC != null {
          var currentPositionAndState := flashlightMPC.GetVectorParameterValue(positionAndStateParamName, uninitialized);
          currentPositionAndState := currentPositionAndState.WithAlpha(0.0);
          flashlightMPC.SetVectorParameterValue(positionAndStateParamName, currentPositionAndState);
        }
      }
    }

    /** UpdateMPC: position with alpha 1, then direction with the cosine of the
        outer cone angle; nothing when no collection is assigned. */
    method UpdateMPC(cosOfDegrees: real -> real)
      modifies flashlightMPC
      ensures flashlightMPC != null ==>
        && flashlightMPC.vectors == Updated(old(flashlightMPC.vectors), positionAndStateParamName, directionAndConeParamName,
                                            spotLight.location, spotLight.forward, cosOfDegrees(spotLight.outerConeAngle))
        && flashlightMPC.scalars == old(flashlightMPC.scalars)
    {
      if flashlightMPC == null {
        return;
      }
      var location := spotLight.location;
      var direction := spotLight.forward;
      var cosHalfAngle := cosOfDegrees(spotLight.outerConeAngle);
      var positionAndState := FromVector(location).WithAlpha(1.0);
      var directionAndCone := FromVector(direction).WithAlpha(cosHalfAngle);
      flashlightMPC.SetVectorParameterValue(positionAndStateParamName, positionAndState);
      flashlightMPC.SetVectorParameterValue(directionAndConeParamName, directionAndCone);
    }
  }
}
