/**
 * Stand-ins for the engine-side objects the feedbacks point at. Only what the
 * modelled code reads is kept: a name for the objects whose name is shown in
 * the inspector, the set of shader properties a material declares, and opaque
 * handles for assets and settings the model passes along without looking inside.
 */
module Unity {

  /** A scene object; the feedbacks only read its name. */
  datatype GameObject = GameObject(name: string)

  /** An audio source component and the object it sits on. */
  datatype AudioSource = AudioSource(gameObject: GameObject)

  /** An audio asset, passed along untouched. */
  datatype AudioClip = AudioClip(handle: nat)

  /** A material: an identity and the shader properties it declares. */
  datatype Material = Material(handle: nat, properties: set<string>)

  /** A UI graphic, its object and the material it renders with
      (after the feedback has made its own instance of it). */
  datatype Graphic = Graphic(gameObject: GameObject, materialForRendering: Material)

  /** Easing, loop and completion-callback settings, passed along untouched. */
  datatype EasingProperty = EasingProperty(handle: nat)
  datatype LoopProperty = LoopProperty(handle: nat)
  datatype FinishCallback = FinishCallback(handle: nat)

  /** Whether the material declares the named property. */
  predicate HasProperty(m: Material, property: string)
  {
    property in m.properties
  }
}
