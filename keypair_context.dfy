/**
 * The keypair registry (`KeypairContext`): the keypairs created in this
 * session, in creation order, with append, removal by id, and lookup of
 * the first keypair with a given name or id.
 */
module KeypairContext {
  import opened Wrappers
  import opened JsArray

  /**
   * A stored keypair. `createdAt` is the creation time as a number of
   * milliseconds; `description` is absent when none was given.
   */
  datatype Keypair = Keypair(
    id: string,
    name: string,
    publicKey: string,
    privateKey: string,
    createdAt: int,
    description: Option<string>)

  /** `keypairs.filter(kp => kp.id !== id)`. */
  function WithoutId(keypairs: seq<Keypair>, id: string): seq<Keypair> {
    Filter(keypairs, (kp: Keypair) => kp.id != id)
  }

  /** `keypairs.find(kp => kp.name === name)`. */
  function FindByName(keypairs: seq<Keypair>, name: string): Option<Keypair> {
    Find(keypairs, (kp: Keypair) => kp.name == name)
  }

  /** `keypairs.find(kp => kp.id === id)`. */
  function FindById(keypairs: seq<Keypair>, id: string): Option<Keypair> {
    Find(keypairs, (kp: Keypair) => kp.id == id)
  }

  /**
   * Removal drops every keypair with the id and keeps the others in their
   * order: removing from a list with one more keypair at the end removes
   * from the list and keeps that keypair exactly when its id differs.
   */
  lemma WithoutIdAppend(keypairs: seq<Keypair>, kp: Keypair, id: string)
    ensures WithoutId(keypairs + [kp], id) == WithoutId(keypairs, id) + (if kp.id == id then [] else [kp])
  {
    FilterConcat(keypairs, [kp], (k: Keypair) => k.id != id);
    assert [kp][1..] == [];
  }

  /** What removal keeps carries another id, and every keypair with another id is kept. */
  lemma WithoutIdContents(keypairs: seq<Keypair>, id: string)
    ensures forall k :: 0 <= k < |WithoutId(keypairs, id)| ==>
      WithoutId(keypairs, id)[k].id != id && WithoutId(keypairs, id)[k] in keypairs
    ensures forall k :: 0 <= k < |keypairs| && keypairs[k].id != id ==> keypairs[k] in WithoutId(keypairs, id)
    ensures WithoutId(keypairs, id) == [] <==> forall k :: 0 <= k < |keypairs| ==> keypairs[k].id == id
  {
    FilterEmptyIff(keypairs, (kp: Keypair) => kp.id != id);
  }

  /** Removing an id no keypair carries changes nothing. */
  lemma WithoutUnknownId(keypairs: seq<Keypair>, id: string)
    requires forall k :: 0 <= k < |keypairs| ==> keypairs[k].id != id
    ensures WithoutId(keypairs, id) == keypairs
  {
    FilterAll(keypairs, (kp: Keypair) => kp.id != id);
  }

  /** Adding a keypair with a fresh id and then removing that id restores the list. */
  lemma AddThenRemove(keypairs: seq<Keypair>, kp: Keypair)
    requires forall k :: 0 <= k < |keypairs| ==> keypairs[k].id != kp.id
    ensures WithoutId(keypairs + [kp], kp.id) == keypairs
  {
    WithoutIdAppend(keypairs, kp, kp.id);
    WithoutUnknownId(keypairs, kp.id);
  }

  /** Removing the same id twice is removing it once. */
  lemma WithoutIdTwice(keypairs: seq<Keypair>, id: string)
    ensures WithoutId(WithoutId(keypairs, id), id) == WithoutId(keypairs, id)
  {
    WithoutIdContents(keypairs, id);
    WithoutUnknownId(WithoutId(keypairs, id), id);
  }

  /**
   * Lookup by name is first-match: after an append, an earlier keypair with
   * the name still wins, and the new one is found only when none has it.
   */
  lemma FindByNameAfterAdd(keypairs: seq<Keypair>, kp: Keypair, name: string)
    ensures FindByName(keypairs + [kp], name) ==
      if FindByName(keypairs, name).Some? then FindByName(keypairs, name)
      else if kp.name == name then Some(kp) else None
  {
    FindConcat(keypairs, [kp], (k: Keypair) => k.name == name);
  }

  /** Likewise for lookup by id. */
  lemma FindByIdAfterAdd(keypairs: seq<Keypair>, kp: Keypair, id: string)
    ensures FindById(keypairs + [kp], id) ==
      if FindById(keypairs, id).Some? then FindById(keypairs, id)
      else if kp.id == id then Some(kp) else None
  {
    FindConcat(keypairs, [kp], (k: Keypair) => k.id == id);
  }

  /** After removing an id, lookup by that id finds nothing. */
  lemma FindByIdAfterRemove(keypairs: seq<Keypair>, id: string)
    ensures FindById(WithoutId(keypairs, id), id) == None
  {
    WithoutIdContents(keypairs, id);
  }

  /** The registry: the `keypairs` state and the operations that replace it. */
  class KeypairRegistry {
    var keypairs: seq<Keypair>

    /** The registry starts empty. */
    constructor()
      ensures keypairs == []
    {
      keypairs := [];
    }

    /** `addKeypair(keypair)`: append at the end. */
    method AddKeypair(keypair: Keypair)
      modifies this
      ensures keypairs == old(keypairs) + [keypair]
    {
      keypairs := keypairs + [keypair];
    }

    /** `removeKeypair(id)`: drop every keypair with that id. */
    method RemoveKeypair(id: string)
      modifies this
      ensures keypairs == WithoutId(old(keypairs), id)
    {
      keypairs := WithoutId(keypairs, id);
    }

    /** `getKeypairByName(name)`: the first keypair with that name, or None. */
    function GetKeypairByName(name: string): (r: Option<Keypair>)
      reads this
      ensures r.None? <==> forall k :: 0 <= k < |keypairs| ==> keypairs[k].name != name
      ensures r.Some? ==> exists k :: 0 <= k < |keypairs| && keypairs[k] == r.value && r.value.name == name &&
                                      (forall j :: 0 <= j < k ==> keypairs[j].name != name)
    {
      FindByName(keypairs, name)
    }

    /** `getKeypairById(id)`: the first keypair with that id, or None. */
    function GetKeypairById(id: string): (r: Option<Keypair>)
      reads this
      ensures r.None? <==> forall k :: 0 <= k < |keypairs| ==> keypairs[k].id != id
      ensures r.Some? ==> exists k :: 0 <= k < |keypairs| && keypairs[k] == r.value && r.value.id == id &&
                                      (forall j :: 0 <= j < k ==> keypairs[j].id != id)
    {
      FindById(keypairs, id)
    }
  }
}
