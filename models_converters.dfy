/** Conversions between Model resources and the API's models. */
module ModelsConverters {
  import opened Wrappers
  import opened Kube
  import Api = GqlModel
  import Crd = CloudApi

  /** `ModelCRDToModel`: the API view of a Model resource.  The status shown
      is always NOT_DEPLOYED and no deployment is reported, whatever the
      resource holds; the maximum sequence length is not copied. */
  function ModelCrdToModel(m: Crd.Model): (r: Result<Api.Model>)
    ensures r.Ok? <==>
      (m.spec.typ == Crd.ModelTypeHuggingFace && m.spec.huggingFace.Some?) || m.spec.typ == Crd.ModelTypeExternal
    ensures m.spec.typ != Crd.ModelTypeHuggingFace && m.spec.typ != Crd.ModelTypeExternal ==>
      r == Err(Message("unknown model type: " + m.spec.typ))
    ensures r.Ok? ==>
      r.value.id == m.meta.name && r.value.typ == m.spec.typ
      && r.value.status == Api.ModelStatusNotDeployed && r.value.deployment.None?
    ensures r.Ok? && m.spec.typ == Crd.ModelTypeHuggingFace ==>
      var hf := m.spec.huggingFace.value;
      r.value.huggingFace == Some(Api.HuggingFace(hf.organization, hf.name, 0))
      && r.value.displayName == hf.organization + "/" + hf.name
    ensures r.Ok? && m.spec.typ == Crd.ModelTypeExternal ==>
      r.value.huggingFace.None? && r.value.displayName == ""
  {
    var t := m.spec.typ;
    if t == Crd.ModelTypeHuggingFace then
      match m.spec.huggingFace
      case None => Err(Panic("nil pointer dereference: Spec.HuggingFace"))
      case Some(hf) =>
        Ok(Api.Model(m.meta.name, Api.ModelTypeHuggingface, hf.organization + "/" + hf.name,
                     Api.ModelStatusNotDeployed, Some(Api.HuggingFace(hf.organization, hf.name, 0)), None))
    else if t == Crd.ModelTypeExternal then
      Ok(Api.Model(m.meta.name, Api.ModelTypeExternal, "", Api.ModelStatusNotDeployed, None, None))
    else
      Err(Message("unknown model type: " + t))
  }

  /** `ModelInputToCRD`: a new Model resource, named by the server from the
      prefix "model-" in namespace "default".  OPENAI is declared by the API
      but not supported. */
  function ModelInputToCrd(input: Api.AddModelInput): (r: Result<Crd.Model>)
    ensures r.Ok? <==>
      (input.typ == Api.ModelTypeHuggingface && input.huggingFace.Some?) || input.typ == Api.ModelTypeExternal
    ensures input.typ != Api.ModelTypeHuggingface && input.typ != Api.ModelTypeExternal ==>
      r == Err(Message("unsupported model type: " + input.typ))
    ensures r.Ok? ==>
      r.value.meta == GeneratedMeta("default", "model-") && r.value.spec.typ == input.typ
      && r.value.spec.deployment.None? && r.value.status == Crd.ModelStatus(None, [])
    ensures r.Ok? && input.typ == Api.ModelTypeHuggingface ==>
      var hf := input.huggingFace.value;
      r.value.spec.huggingFace == Some(Crd.HuggingFaceModelSpec(hf.organization, hf.name, 0))
    ensures r.Ok? && input.typ == Api.ModelTypeExternal ==> r.value.spec.huggingFace.None?
  {
    var meta := GeneratedMeta("default", "model-");
    if input.typ == Api.ModelTypeHuggingface then
      match input.huggingFace
      case None => Err(Panic("nil pointer dereference: input.HuggingFace"))
      case Some(hf) =>
        Ok(Crd.Model(meta, Crd.ModelSpec(Crd.ModelTypeHuggingFace,
                                         Some(Crd.HuggingFaceModelSpec(hf.organization, hf.name, 0)), None),
                     Crd.ModelStatus(None, [])))
    else if input.typ == Api.ModelTypeExternal then
      Ok(Crd.Model(meta, Crd.ModelSpec(Crd.ModelTypeExternal, None, None), Crd.ModelStatus(None, [])))
    else
      Err(Message("unsupported model type: " + input.typ))
  }

  /** An accepted input read back through the API keeps its type, name and
      organization, is NOT_DEPLOYED, and loses its maximum sequence length. */
  lemma ModelInputRoundTrip(input: Api.AddModelInput, name: string)
    requires ModelInputToCrd(input).Ok?
    ensures var crd := ModelInputToCrd(input).value;
      var m := ModelCrdToModel(crd.(meta := crd.meta.(name := name)));
      m.Ok? && m.value.id == name && m.value.typ == input.typ
      && m.value.status == Api.ModelStatusNotDeployed
      && (input.typ == Api.ModelTypeHuggingface ==>
            var hf := input.huggingFace.value;
            m.value.huggingFace == Some(Api.HuggingFace(hf.organization, hf.name, 0))
            && m.value.displayName == hf.organization + "/" + hf.name)
  {
  }
}
