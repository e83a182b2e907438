/**
  The wire payload shapes (Assets/scripts/DataModels.cs, plus Vector3Data from
  Assets/scripts/EntityManager.cs). Every C# class here is a plain serialisable
  record, so each becomes a datatype. A field of class type may be null in C#;
  it is an Option here. Float components are kept as `real` and only ever
  copied, never computed with.
*/
module DataModels {
  import opened Wrappers

  /** Peek envelope: only the discriminating type, which may be missing (null). */
  datatype BaseMessage = BaseMessage(messageType: Option<string>)

  /** Full envelope `{type, data}` for one concrete payload shape T. */
  datatype MessageWrapper<T> = MessageWrapper(messageType: Option<string>, data: Option<T>)

  datatype Vector3Data = Vector3Data(x: real, y: real, z: real)

  const UnitScale: Vector3Data := Vector3Data(1.0, 1.0, 1.0)

  datatype PoseData = PoseData(
    position: Option<Vector3Data>,
    rotation: Option<Vector3Data>,
    scale: Option<Vector3Data>)
  {
    /** The fields ApplyPose dereferences without a null check are all present. */
    predicate Complete() {
      position.Some? && rotation.Some? && scale.Some?
    }
  }

  /** `new PoseData { position = p, rotation = r }`: the field initializer supplies the scale. */
  function NewPose(position: Option<Vector3Data>, rotation: Option<Vector3Data>): (p: PoseData)
    ensures p.scale == Some(Vector3Data(1.0, 1.0, 1.0))
    ensures p.position == position && p.rotation == rotation
  {
    PoseData(position, rotation, Some(UnitScale))
  }

  datatype GLTFInfo = GLTFInfo(name: string, url: string)

  /** Indices into the three-element body pose array. */
  const HEAD: int := 0
  const LEFT_HAND: int := 1
  const RIGHT_HAND: int := 2

  lemma BodyIndicesDistinctAndInRange()
    ensures HEAD != LEFT_HAND && HEAD != RIGHT_HAND && LEFT_HAND != RIGHT_HAND
    ensures 0 <= HEAD < 3 && 0 <= LEFT_HAND < 3 && 0 <= RIGHT_HAND < 3
  {
  }

  /** CreateEntityProgObj: the only payload with source code and a model reference. */
  datatype CreateProgObjData = CreateProgObjData(
    id: string, scriptCode: string, gltf: Option<GLTFInfo>, pose: Option<PoseData>)

  /** CreateEntityGeomObj, CreateEntityAnchor and UpdateEntity. */
  datatype EntityData = EntityData(id: string, pose: Option<PoseData>)

  /** ClaimEntity and ReleaseEntity; no handler decodes it. */
  datatype EntityControlData = EntityControlData(id: string)

  datatype DeleteEntityData = DeleteEntityData(id: string)

  datatype RoomData = RoomData(id: string)

  datatype RoomErrorData = RoomErrorData(reason: string)

  /** `pcm` is the base64 text of the audio buffer, passed through undecoded. */
  datatype AudioData = AudioData(pcm: string)

  datatype ErrorMsg = ErrorMsg(message: string)

  datatype TranscriptMsg = TranscriptMsg(message: string)

  /**
    The value a caller hands to Send. The core itself only sends text (the
    empty Pong payload); any other serialisable object is represented by the
    JSON text the library would produce for it.
  */
  datatype Outgoing = Text(text: string) | Serialized(json: string)
}
