/** The records that snapshots and fills pass around. */
module Records {
  import opened Wrappers

  datatype Entity = Entity(id: string, layerType: string, externalId: string, source: string)
  datatype Observation = Observation(entityId: string, source: string, payload: string)

  /** An entity with its latest observation, as the store's queries return them. */
  datatype EntitySnapshot = EntitySnapshot(entity: Entity, observation: Observation)

  function EntitiesOf(items: seq<EntitySnapshot>): (r: seq<Entity>)
    ensures |r| == |items| && forall i :: 0 <= i < |items| ==> r[i] == items[i].entity
  {
    seq(|items|, i requires 0 <= i < |items| => items[i].entity)
  }

  function ObservationsOf(items: seq<EntitySnapshot>): (r: seq<Observation>)
    ensures |r| == |items| && forall i :: 0 <= i < |items| ==> r[i] == items[i].observation
  {
    seq(|items|, i requires 0 <= i < |items| => items[i].observation)
  }
}
