/**
  The entity registry (Assets/scripts/EntityManager.cs): a dictionary from a
  server-assigned id to a live game object, whose insert never overwrites,
  and the copy of a pose onto a transform.
*/
module Entities {
  import opened Wrappers
  import opened DataModels
  import opened Scene

  /** RegisterEntity on the dictionary: a new id is added, an existing one is left as it is. */
  function Register(entities: map<string, GameObject?>, id: string, obj: GameObject?): (r: map<string, GameObject?>)
    ensures r.Keys == entities.Keys + {id}
    ensures forall k :: k in entities ==> r[k] == entities[k]
    ensures id !in entities ==> r[id] == obj
  {
    if id in entities then entities else entities[id := obj]
  }

  datatype Registration = Registration(id: string, obj: GameObject?)

  /** A run of RegisterEntity calls, in order. */
  function RegisterAll(entities: map<string, GameObject?>, regs: seq<Registration>): map<string, GameObject?>
    decreases |regs|
  {
    if regs == [] then entities else RegisterAll(Register(entities, regs[0].id, regs[0].obj), regs[1..])
  }

  /** The ids a run registers. */
  function Ids(regs: seq<Registration>): set<string> {
    set i | 0 <= i < |regs| :: regs[i].id
  }

  /** The handle of the first registration of an id in a run. */
  function FirstFor(regs: seq<Registration>, id: string): GameObject?
    requires id in Ids(regs)
    decreases |regs|
  {
    if regs[0].id == id then regs[0].obj
    else
      assert id in Ids(regs[1..]) by {
        var i :| 0 <= i < |regs| && regs[i].id == id;
        assert regs[1..][i - 1].id == id;
      }
      FirstFor(regs[1..], id)
  }

  /**
    After any run of registrations: the keys are the old ones plus the ids
    registered, an id already present keeps its handle, and a new id holds
    the handle of its FIRST registration; later ones under the same id are
    ignored.
  */
  lemma {:induction false} FirstRegistrationWins(entities: map<string, GameObject?>, regs: seq<Registration>)
    ensures RegisterAll(entities, regs).Keys == entities.Keys + Ids(regs)
    ensures forall k :: k in entities ==> RegisterAll(entities, regs)[k] == entities[k]
    ensures forall k :: k in Ids(regs) && k !in entities ==> RegisterAll(entities, regs)[k] == FirstFor(regs, k)
    decreases |regs|
  {
    if regs == [] {
      assert Ids(regs) == {};
    } else {
      var next := Register(entities, regs[0].id, regs[0].obj);
      FirstRegistrationWins(next, regs[1..]);
      assert Ids(regs) == {regs[0].id} + Ids(regs[1..]) by {
        forall k | k in Ids(regs) ensures k in {regs[0].id} + Ids(regs[1..]) {
          var i :| 0 <= i < |regs| && regs[i].id == k;
          if i > 0 { assert regs[1..][i - 1].id == k; }
        }
        forall k | k in Ids(regs[1..]) ensures k in Ids(regs) {
          var i :| 0 <= i < |regs[1..]| && regs[1..][i].id == k;
          assert regs[i + 1].id == k;
        }
      }
    }
  }

  class EntityManager {
    var entities: map<string, GameObject?>
    /** Ids announced by the registration log line, in order. */
    var announced: seq<string>

    constructor ()
      ensures entities == map[] && announced == []
    {
      entities := map[];
      announced := [];
    }

    method RegisterEntity(id: string, obj: GameObject?)
      modifies this
      ensures entities == Register(old(entities), id, obj)
      ensures announced == old(announced) + if id in old(entities) then [] else [id]
    {
      if id !in entities {
        entities := entities[id := obj];
        announced := announced + [id];
      }
    }

    /** The registered handle, or null for an id never registered. */
    method GetEntity(id: string) returns (obj: GameObject?)
      ensures id in entities ==> obj == entities[id]
      ensures id !in entities ==> obj == null
    {
      if id in entities {
        return entities[id];
      }
      return null;
    }
  }

  function ToVector3(v: Vector3Data): Vector3 {
    Vector3(v.x, v.y, v.z)
  }

  /**
    Copies a pose onto a transform; a null target or a null pose leaves
    everything as it was. The three vectors are dereferenced unguarded.
  */
  method ApplyPose(target: Transform?, pose: Option<PoseData>)
    requires target != null && pose.Some? ==> pose.value.Complete()
    modifies target
    ensures target != null && pose.None? ==> unchanged(target)
    ensures target != null && pose.Some? ==>
      && target.localPosition == ToVector3(pose.value.position.value)
      && target.localRotation == Euler(pose.value.rotation.value.x, pose.value.rotation.value.y, pose.value.rotation.value.z)
      && target.localScale == ToVector3(pose.value.scale.value)
  {
    if target == null || pose.None? {
      return;
    }
    var p := pose.value;
    target.localPosition := Vector3(p.position.value.x, p.position.value.y, p.position.value.z);
    target.localRotation := Euler(p.rotation.value.x, p.rotation.value.y, p.rotation.value.z);
    target.localScale := Vector3(p.scale.value.x, p.scale.value.y, p.scale.value.z);
  }
}
