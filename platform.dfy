/**
 * Opaque identities of the Android objects the core only passes around or
 * compares: the core never looks inside any of them.
 */
module Platform {

  /** An `Activity`, the host container; only its identity matters. */
  datatype Activity = Activity(id: nat)

  /** A `ViewGroup` a router renders into; the core only reads `getId()`. */
  datatype Container = Container(id: int)

  /** A `Bundle` or other saved-state blob the core hands on without reading it. */
  datatype Blob = Blob(content: seq<int>)

  /** An `Intent` or `IntentSender` handed to the host. */
  datatype Intent = Intent(id: nat)

  /** A `Menu` handed to the routers for construction and preparation. */
  datatype Menu = Menu(id: nat)

  /** A `MenuItem` that was selected. */
  datatype MenuItem = MenuItem(id: nat)
}
