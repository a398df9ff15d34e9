/** Names and labels of the objects a notebook owns (pkg/k8sutil/k8s.go). */
module Naming {
  const NAME_PREFIX := "jupyter-notebook-"
  const TLS_SUFFIX := "-tls"
  const OPERATOR := "jupyter-operator"

  /** Label keys; the two the operator uses are "managed-by" and "jupyter.squat.ai/notebook". */
  datatype LabelKey = ManagedBy | NotebookLabel | OtherLabel(text: string)

  type Labels = map<LabelKey, string>

  function ResourceName(name: string): string {
    NAME_PREFIX + name
  }

  /** Where the ACME issuer puts the certificate of the ingress. */
  function IngressTlsSecretName(name: string): string {
    ResourceName(name) + TLS_SUFFIX
  }

  function AddManagedLabel(labels: Labels): Labels {
    labels[ManagedBy := OPERATOR]
  }

  function AddMatchLabels(labels: Labels, name: string): Labels {
    labels[NotebookLabel := name]
  }

  function NotebookLabels(name: string): Labels {
    AddMatchLabels(AddManagedLabel(map[]), name)
  }

  predicate IsManaged(labels: Labels) {
    ManagedBy in labels && labels[ManagedBy] == OPERATOR
  }

  /** What the operator labels, it recognises later, and the label names the notebook. */
  lemma NotebookLabelsAreManaged(name: string)
    ensures IsManaged(NotebookLabels(name))
    ensures NotebookLabels(name)[NotebookLabel] == name
  {}

  /** Every pod of the notebook is selected by the match labels, and no pod of another one is. */
  predicate Selects(selector: Labels, labels: Labels) {
    forall k :: k in selector ==> k in labels && labels[k] == selector[k]
  }

  lemma MatchLabelsSelectOneNotebook(a: string, b: string)
    ensures Selects(AddMatchLabels(map[], a), AddMatchLabels(map[], b)) <==> a == b
  {
    assert NotebookLabel in AddMatchLabels(map[], a);
  }

  lemma ResourceNameInjective(a: string, b: string)
    requires ResourceName(a) == ResourceName(b)
    ensures a == b
  {
    assert ResourceName(a)[|NAME_PREFIX|..] == a;
    assert ResourceName(b)[|NAME_PREFIX|..] == b;
  }

  /** The ACME secret of a notebook is never its own secret; it is the own secret of exactly the
      notebook whose name has the suffix. */
  lemma TlsSecretNameClash(a: string, b: string)
    ensures IngressTlsSecretName(a) == ResourceName(b) <==> b == a + TLS_SUFFIX
    ensures IngressTlsSecretName(a) != ResourceName(a)
  {
    assert IngressTlsSecretName(a) == ResourceName(a + TLS_SUFFIX);
    if IngressTlsSecretName(a) == ResourceName(b) {
      ResourceNameInjective(a + TLS_SUFFIX, b);
    }
  }

  /** The names and labels as they appear in the cluster. */
  lemma NamesAre(name: string)
    ensures ResourceName(name) == "jupyter-notebook-" + name
    ensures IngressTlsSecretName(name) == "jupyter-notebook-" + name + "-tls"
    ensures NotebookLabels(name) == map[ManagedBy := "jupyter-operator", NotebookLabel := name]
    ensures AddMatchLabels(map[], name) == map[NotebookLabel := name]
  {}

  /** Managed is what carries the operator's own value under the label. */
  lemma ManagedMeans(labels: Labels)
    ensures IsManaged(labels) <==> ManagedBy in labels && labels[ManagedBy] == "jupyter-operator"
  {}
}
