/**
 * The keypair selector (`KeypairSelector`): the drop-down a keypair-like
 * parameter is edited with. It shows the registry keypair named by the
 * current value and can create a keypair inline, handing its name to the
 * parent form.
 */
module KeypairSelector {
  import opened Wrappers
  import opened KeypairContext
  import opened KeyGeneration

  class KeypairSelectorWidget {
    const registry: KeypairRegistry
    /** The value the parent form holds for the parameter: a keypair name. */
    var value: string
    var isOpen: bool
    var showCreateForm: bool
    var newKeypairName: string
    var newKeypairDescription: string

    constructor(registry: KeypairRegistry, value: string)
      ensures this.registry == registry && this.value == value
      ensures !isOpen && !showCreateForm && newKeypairName == "" && newKeypairDescription == ""
    {
      this.registry := registry;
      this.value := value;
      isOpen := false;
      showCreateForm := false;
      newKeypairName := "";
      newKeypairDescription := "";
    }

    /** `selectedKeypair`: the first registry keypair whose name is the current value, or None. */
    function SelectedKeypair(): (r: Option<Keypair>)
      reads this, registry
      ensures r.None? <==> forall k :: 0 <= k < |registry.keypairs| ==> registry.keypairs[k].name != value
      ensures r.Some? ==> exists k :: 0 <= k < |registry.keypairs| && registry.keypairs[k] == r.value &&
                                      r.value.name == value &&
                                      (forall j :: 0 <= j < k ==> registry.keypairs[j].name != value)
    {
      FindByName(registry.keypairs, value)
    }

    /** Opening the create form, and typing into its fields. */
    method OpenCreateForm(name: string, description: string)
      modifies this
      ensures showCreateForm && newKeypairName == name && newKeypairDescription == description
      ensures value == old(value) && isOpen == old(isOpen)
    {
      showCreateForm := true;
      newKeypairName := name;
      newKeypairDescription := description;
    }

    /**
     * `generateKeypair()`: with a blank name nothing happens and nothing is
     * handed on. Otherwise the keypair is appended, `onChange` receives its
     * trimmed name (returned here), both fields are reset to empty and the
     * create form and the drop-down are closed. The id, the random bytes
     * and the time are inputs.
     */
    method GenerateKeypair(id: string, draw: KeyBytes, createdAt: int) returns (changed: Option<string>)
      requires FullDraw(draw)
      modifies this, registry
      ensures NewKeypair(id, old(newKeypairName), old(newKeypairDescription), draw, createdAt).None? ==>
        changed == None && unchanged(this) && unchanged(registry)
      ensures NewKeypair(id, old(newKeypairName), old(newKeypairDescription), draw, createdAt).Some? ==>
        var kp := NewKeypair(id, old(newKeypairName), old(newKeypairDescription), draw, createdAt).value;
        registry.keypairs == old(registry.keypairs) + [kp] && changed == Some(kp.name) &&
        newKeypairName == "" && newKeypairDescription == "" && !showCreateForm && !isOpen && value == old(value)
    {
      var kp := NewKeypair(id, newKeypairName, newKeypairDescription, draw, createdAt);
      if kp.None? {
        return None;
      }
      registry.AddKeypair(kp.value);
      changed := Some(kp.value.name);
      newKeypairName := "";
      newKeypairDescription := "";
      showCreateForm := false;
      isOpen := false;
    }

    /** The parent form hands the widget a new value. */
    method SetValue(v: string)
      modifies this
      ensures value == v
      ensures isOpen == old(isOpen) && showCreateForm == old(showCreateForm)
      ensures newKeypairName == old(newKeypairName) && newKeypairDescription == old(newKeypairDescription)
    {
      value := v;
    }
  }

  /**
   * Once the parent feeds the new name back as the value, the selector
   * shows the new keypair exactly when no earlier keypair has that name;
   * otherwise it shows the earlier one.
   */
  lemma SelectedAfterGenerate(keypairs: seq<Keypair>, kp: Keypair)
    ensures FindByName(keypairs + [kp], kp.name) ==
      if FindByName(keypairs, kp.name).Some? then FindByName(keypairs, kp.name) else Some(kp)
  {
    FindByNameAfterAdd(keypairs, kp, kp.name);
  }
}
