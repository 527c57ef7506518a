/**
 * The API objects the machine scope works with, reduced to the fields it reads or writes.
 * Every object is reached through a pointer in the provider, so each is a class here;
 * only the LinodeMachine's finalizer list is ever changed in place, so it is the only `var`.
 */
module ApiTypes {
  import opened Wrappers

  newtype byte = b: int | 0 <= b < 256

  /** A Go string is a sequence of bytes, so a token read from a secret and a key passed
      by the controller share one type, and `string(bytes)` is the identity. */
  type Token = seq<byte>

  /** The contents of a Secret: key to bytes. */
  type SecretData = map<string, seq<byte>>

  /** corev1.SecretReference: a secret's name and (possibly empty) namespace. */
  datatype SecretReference = SecretReference(namespace: string, name: string)

  /** types.NamespacedName: the key the control-plane client fetches an object by. */
  datatype NamespacedName = NamespacedName(namespace: string, name: string)

  /** The secrets the control plane holds at one moment, as the client's `Get` sees them:
      a key that is absent stands for any failed fetch. */
  type SecretStore = map<NamespacedName, SecretData>

  /** The control-plane client: a handle the scope keeps and passes on. What it returns
      changes over time, so every read takes the store as it is at that call. */
  datatype K8sClient = K8sClient(endpoint: string)

  /** The finalizer the machine controller puts on every LinodeMachine it manages. */
  const MachineFinalizer: string := "linodemachine.infrastructure.cluster.x-k8s.io"

  /** The cluster-api Cluster; the scope only carries it. */
  class Cluster {
    const namespace: string
    const name: string

    constructor (namespace: string, name: string)
      ensures this.namespace == namespace && this.name == name
    {
      this.namespace := namespace;
      this.name := name;
    }
  }

  /** The cluster-api Machine; `dataSecretName` is its spec.bootstrap.dataSecretName. */
  class Machine {
    const namespace: string
    const name: string
    const dataSecretName: Option<string>

    constructor (namespace: string, name: string, dataSecretName: Option<string>)
      ensures this.namespace == namespace && this.name == name
      ensures this.dataSecretName == dataSecretName
    {
      this.namespace := namespace;
      this.name := name;
      this.dataSecretName := dataSecretName;
    }
  }

  /** The LinodeCluster that owns the machine, with its optional credentials override. */
  class LinodeCluster {
    const namespace: string
    const name: string
    const credentialsRef: Option<SecretReference>

    constructor (namespace: string, name: string, credentialsRef: Option<SecretReference>)
      ensures this.namespace == namespace && this.name == name
      ensures this.credentialsRef == credentialsRef
    {
      this.namespace := namespace;
      this.name := name;
      this.credentialsRef := credentialsRef;
    }
  }

  /** The LinodeMachine being reconciled: its optional credentials override and its
      finalizer list, which the scope updates in place. */
  class LinodeMachine {
    const namespace: string
    const name: string
    const credentialsRef: Option<SecretReference>
    var finalizers: seq<string>

    constructor (namespace: string, name: string, credentialsRef: Option<SecretReference>,
                 finalizers: seq<string>)
      ensures this.namespace == namespace && this.name == name
      ensures this.credentialsRef == credentialsRef && this.finalizers == finalizers
    {
      this.namespace := namespace;
      this.name := name;
      this.credentialsRef := credentialsRef;
      this.finalizers := finalizers;
    }
  }
}
