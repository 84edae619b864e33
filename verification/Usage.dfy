/** What containers use: images, and networks by attachment, name or identifier prefix. */
module Usage {
  import opened Wrappers
  import opened References
  import opened Policy

  /** A network name or identifier prefix that a container waits for. */
  predicate Reserves(reference: string, id: string, name: Option<string>) {
    reference != "" && !("container:" <= reference) &&
    var wanted := if reference == "default" then "bridge" else reference;
    name == Some(wanted) || wanted <= id
  }

  /** The container's references can be read at all. */
  predicate Referable(c: Container) {
    c.image.Some? && ImageId(c.image.value) && c.endpoints.Some? && c.mode.Some? &&
    forall key :: key in c.endpoints.value ==> !c.endpoints.value[key].Malformed?
  }

  predicate Uses(c: Container, id: string, name: Option<string>) {
    c.mode.Some? && c.endpoints.Some? &&
    (Reserves(c.mode.value, id, name) ||
     exists key :: key in c.endpoints.value && Holds(key, c.endpoints.value[key], id, name))
  }

  /** One endpoint attaches the network, or is not attached yet and waits for it. */
  predicate Holds(key: string, endpoint: Endpoint, id: string, name: Option<string>) {
    endpoint == Attached(id) || (endpoint.Unattached? && Reserves(key, id, name))
  }

  function ImageRefs(containers: map<string, Container>): (ids: set<string>) {
    set c | c in containers && containers[c].image.Some? :: containers[c].image.value
  }

  /** Whether the network is referenced by one of the containers. */
  predicate ReferredTo(containers: map<string, Container>, id: string, name: Option<string>) {
    exists c :: c in containers && Uses(containers[c], id, name)
  }

  function NetworkRefs(containers: map<string, Container>, networks: map<string, Network>): (ids: set<string>) {
    set n | n in networks && ReferredTo(containers, n, networks[n].name)
  }

  function ProtectedImages(names: map<string, string>, protection: Protection): (ids: set<string>) {
    protection.imageIds + set r | r in protection.imageReferences && r in names :: names[r]
  }
}
