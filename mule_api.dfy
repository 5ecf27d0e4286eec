/**
  Values of the host runtime and of the extension's configuration API that
  the interception policy and the configuration read: step identifiers,
  component locations, the (namespace, name) matchers and the trace-level
  configuration that carries the user's matcher lists.
 */
module MuleApi {

  datatype Option<T> = None | Some(value: T)

  /** A kind of processing step, as the host names it: `http:request`, `mule:flow-ref`. */
  datatype ComponentIdentifier = ComponentIdentifier(namespace: string, name: string)

  /** Component types of the host's enumeration. The interception policy tests
      only for `Flow`; `SubFlow` is kept apart so that a sub-flow container can be
      written down, and every other type is `OtherComponentType`. */
  datatype ComponentType = Flow | SubFlow | OtherComponentType

  datatype TypedComponentIdentifier = TypedComponentIdentifier(identifier: ComponentIdentifier, kind: ComponentType)

  /** One part of a location path; the identifier is optional in the host's API. */
  datatype LocationPart = LocationPart(partPath: string, partIdentifier: Option<TypedComponentIdentifier>)

  /** Where a processing step sits: its root container (flow or sub-flow) name,
      its full path such as `orderFlow/processors/2`, the parts of that path
      starting with the root container, and the step's own identifier. */
  datatype ComponentLocation = ComponentLocation(
    rootContainerName: string,
    location: string,
    parts: seq<LocationPart>,
    componentIdentifier: TypedComponentIdentifier)

  /** A matcher of the inclusion and exclusion lists; name `*` matches any name. */
  datatype MuleComponent = MuleComponent(namespace: string, name: string)

  /** The part of the trace-level configuration that the interception policy
      reads; either list may be absent (null in the source). */
  datatype TraceLevelConfiguration = TraceLevelConfiguration(
    interceptionDisabledComponents: Option<seq<MuleComponent>>,
    interceptionEnabledComponents: Option<seq<MuleComponent>>)
}
