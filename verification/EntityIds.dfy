/** Composite entity identifiers, "layerType:externalID". */
module EntityIds {
  function EntityId(layerType: string, externalId: string): string {
    layerType + ":" + externalId
  }

  /** Split at the first colon; two empty strings when there is none. */
  function ParseEntityId(id: string): (string, string) {
    ParseFrom(id, 0)
  }

  function ParseFrom(id: string, i: nat): (string, string)
    requires i <= |id|
    decreases |id| - i
  {
    if i == |id| then ("", "")
    else if id[i] == ':' then (id[..i], id[i + 1..])
    else ParseFrom(id, i + 1)
  }

  lemma {:induction false} ParseFromColon(id: string, i: nat, k: nat)
    requires i <= k < |id| && id[k] == ':' && ':' !in id[i..k]
    ensures ParseFrom(id, i) == (id[..k], id[k + 1..])
    decreases k - i
  {
    if i < k {
      assert id[i..k][0] == id[i];
      assert id[i + 1..k] == id[i..k][1..];
      ParseFromColon(id, i + 1, k);
    }
  }

  lemma {:induction false} ParsedLayerHasNoColon(id: string, i: nat)
    requires i <= |id| && ':' !in id[..i]
    ensures ':' !in ParseFrom(id, i).0
    ensures ':' in id[i..] ==> EntityId(ParseFrom(id, i).0, ParseFrom(id, i).1) == id
    decreases |id| - i
  {
    if i < |id| {
      if id[i] == ':' {
        assert id == id[..i] + [id[i]] + id[i + 1..];
      } else {
        assert id[..i + 1] == id[..i] + [id[i]];
        assert id[i..] == [id[i]] + id[i + 1..];
        ParsedLayerHasNoColon(id, i + 1);
      }
    }
  }

  /** Parsing undoes building exactly when the layer type has no colon; the external ID may. */
  lemma ParseOfBuildIff(layerType: string, externalId: string)
    ensures ParseEntityId(EntityId(layerType, externalId)) == (layerType, externalId) <==> ':' !in layerType
  {
    var id := EntityId(layerType, externalId);
    if ':' !in layerType {
      assert id[0..|layerType|] == layerType;
      assert id[|layerType| + 1..] == externalId;
      ParseFromColon(id, 0, |layerType|);
    } else {
      ParsedLayerHasNoColon(id, 0);
    }
  }

  /** Building undoes parsing for every identifier that has a colon at all. */
  lemma BuildOfParse(id: string)
    requires ':' in id
    ensures EntityId(ParseEntityId(id).0, ParseEntityId(id).1) == id
  {
    assert id[0..] == id;
    ParsedLayerHasNoColon(id, 0);
  }

  lemma EntityIdInjective(l1: string, x1: string, l2: string, x2: string)
    requires ':' !in l1 && ':' !in l2
    requires EntityId(l1, x1) == EntityId(l2, x2)
    ensures l1 == l2 && x1 == x2
  {
    ParseOfBuildIff(l1, x1);
    ParseOfBuildIff(l2, x2);
  }
}
