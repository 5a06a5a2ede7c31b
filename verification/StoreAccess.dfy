/** Who may touch a store's rows. */
module StoreAccess {
  import opened Options

  /** A caller with a store of their own is confined to it; one without may act anywhere. */
  predicate Denied(caller: Option<nat>, store: nat) {
    caller.Some? && caller.value != store
  }
}
