/** The Kubernetes objects the operator reads and writes, reduced to the fields it uses. */
module Kube {
  import opened Wrappers
  import opened GoStrings

  /** A Go error, by its message. */
  type Error = string

  /** types.NamespacedName */
  datatype Key = Key(namespace: string, name: string)

  /** The answer of a client Get: the object, a NotFound error, or any other error. */
  datatype GetReply<T> = Found(value: T) | NotFound | Failed(error: Error)

  /** metav1.OwnerReference (the API version is left out). */
  datatype OwnerRef = OwnerRef(kind: string, name: string, uid: string, controller: bool, blockOwnerDeletion: bool)

  /**
   * corev1.Secret as stored by the API server. `ownerReferences` keeps Go's distinction
   * between a nil slice (None) and an empty one (Some([])).
   */
  datatype Secret = Secret(
    name: string,
    namespace: string,
    secretType: string,
    annotations: map<string, string>,
    data: map<string, seq<byte>>,
    ownerReferences: Option<seq<OwnerRef>>)

  /** corev1.SecretTypeDockerConfigJson */
  const DockerConfigJsonType: string := "kubernetes.io/dockerconfigjson"

  /** A `*corev1.Secret` held by the controller, whose fields are assigned in place. */
  class SecretObject {
    var name: string
    var namespace: string
    var secretType: string
    var annotations: map<string, string>
    var data: map<string, seq<byte>>
    var ownerReferences: Option<seq<OwnerRef>>

    /** The object's current value. */
    function Value(): Secret
      reads this
    {
      Secret(name, namespace, secretType, annotations, data, ownerReferences)
    }

    /** A copy of a stored secret, as client.Get or a struct literal produces. */
    constructor (s: Secret)
      ensures Value() == s
    {
      name, namespace, secretType := s.name, s.namespace, s.secretType;
      annotations, data, ownerReferences := s.annotations, s.data, s.ownerReferences;
    }
  }

  /** The ECRSecret custom resource: its metadata and the two spec fields the core reads. */
  datatype EcrSecret = EcrSecret(name: string, namespace: string, uid: string, registry: string, secretName: string)
}
