/** Supporting value types: the wait policy of index creation
    (src/models/wait_policy.rs) and the namespace of a data-plane request
    (src/models/namespace.rs, and the copy in pinecone_sdk/src/pinecone/data.rs). */
module Models {
  /** Milliseconds. */
  type Millis = nat

  /** How long index creation waits for the index to become ready. */
  datatype WaitPolicy = WaitFor(duration: Millis) | NoWait

  /** `WaitPolicy::default()`: wait up to 300 seconds. */
  const DefaultWaitPolicy: WaitPolicy := WaitFor(300 * 1000)

  datatype Namespace = Namespace(name: string)

  /** `Namespace::default()` */
  const DefaultNamespace: Namespace := Namespace("")

  /** `impl From<String> for Namespace` and `impl From<&str> for Namespace`. */
  function NamespaceFrom(name: string): (n: Namespace)
    ensures n.name == name
  {
    Namespace(name)
  }

  /** Building a namespace from a name and reading the name back are inverse. */
  lemma NamespaceRoundTrip(n: Namespace, name: string)
    ensures NamespaceFrom(n.name) == n
    ensures NamespaceFrom(name).name == name
    ensures NamespaceFrom("") == DefaultNamespace
  {
  }

  /** The default wait is five minutes. */
  lemma DefaultWaitIsFiveMinutes()
    ensures DefaultWaitPolicy.WaitFor? && DefaultWaitPolicy.duration == 300000
  {
  }
}
