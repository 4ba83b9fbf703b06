/**
 * The keypair manager page (`KeypairManager`): a form with a name and a
 * description field that creates mock keypairs in the registry, and
 * deletion by id.
 */
module KeypairManager {
  import opened KeypairContext
  import opened KeyGeneration

  class KeypairManagerPage {
    const registry: KeypairRegistry
    var newKeypairName: string
    var newKeypairDescription: string

    /** The page opens with both form fields empty. */
    constructor(registry: KeypairRegistry)
      ensures this.registry == registry
      ensures newKeypairName == "" && newKeypairDescription == ""
    {
      this.registry := registry;
      newKeypairName := "";
      newKeypairDescription := "";
    }

    /** Typing into the name field. */
    method SetName(name: string)
      modifies this
      ensures newKeypairName == name && newKeypairDescription == old(newKeypairDescription)
    {
      newKeypairName := name;
    }

    /** Typing into the description field. */
    method SetDescription(description: string)
      modifies this
      ensures newKeypairDescription == description && newKeypairName == old(newKeypairName)
    {
      newKeypairDescription := description;
    }

    /**
     * `generateKeypair()`: with a blank name nothing changes; otherwise the
     * new keypair is appended to the registry and both fields are cleared.
     * The id, the random bytes and the time are inputs.
     */
    method GenerateKeypair(id: string, draw: KeyBytes, createdAt: int)
      requires FullDraw(draw)
      modifies this, registry
      ensures NewKeypair(id, old(newKeypairName), old(newKeypairDescription), draw, createdAt).None? ==>
        unchanged(this) && unchanged(registry)
      ensures var kp := NewKeypair(id, old(newKeypairName), old(newKeypairDescription), draw, createdAt);
        kp.Some? ==> registry.keypairs == old(registry.keypairs) + [kp.value]
      ensures NewKeypair(id, old(newKeypairName), old(newKeypairDescription), draw, createdAt).Some? ==>
        newKeypairName == "" && newKeypairDescription == ""
    {
      var kp := NewKeypair(id, newKeypairName, newKeypairDescription, draw, createdAt);
      if kp.None? {
        return;
      }
      registry.AddKeypair(kp.value);
      newKeypairName := "";
      newKeypairDescription := "";
    }

    /** `deleteKeypair(id)`: exactly `removeKeypair(id)`. */
    method DeleteKeypair(id: string)
      modifies registry
      ensures registry.keypairs == WithoutId(old(registry.keypairs), id)
    {
      registry.RemoveKeypair(id);
    }
  }
}
