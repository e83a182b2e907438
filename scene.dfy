/**
  Stand-ins for the Unity engine objects the core touches: a transform whose
  three local fields are assigned, and a game object that carries a transform
  and a list of attached components. Quaternion.Euler is a floating-point
  library conversion; a rotation is kept symbolically as the Euler angles it
  was built from.
*/
module Scene {

  datatype Vector3 = Vector3(x: real, y: real, z: real)

  /** `Quaternion.Euler(x, y, z)`, not evaluated. */
  datatype Quaternion = Euler(x: real, y: real, z: real)

  /** A compiled type as reflection sees it: its name and whether it derives from MonoBehaviour. */
  datatype ScriptType = ScriptType(name: string, isMonoBehaviour: bool)

  class Transform {
    var localPosition: Vector3
    var localRotation: Quaternion
    var localScale: Vector3

    /** A fresh transform: origin, no rotation, unit scale. */
    constructor ()
      ensures localPosition == Vector3(0.0, 0.0, 0.0)
      ensures localRotation == Euler(0.0, 0.0, 0.0)
      ensures localScale == Vector3(1.0, 1.0, 1.0)
    {
      localPosition := Vector3(0.0, 0.0, 0.0);
      localRotation := Euler(0.0, 0.0, 0.0);
      localScale := Vector3(1.0, 1.0, 1.0);
    }
  }

  class GameObject {
    const name: string
    const transform: Transform
    var components: seq<ScriptType>

    constructor (name: string)
      ensures this.name == name && fresh(transform) && components == []
    {
      this.name := name;
      transform := new Transform();
      components := [];
    }
  }
}
