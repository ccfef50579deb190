/** Construction and validation of the explainer (`MarginalExplainer.__init__`). */
module Config {
  import opened Wrappers
  import opened Matrices

  /** How background samples are drawn. */
  datatype Dependence = Independent | Dependent

  /** How a main effect is represented: E[f | x_i], E[f | x_{N\i}], or their mean. */
  datatype Representation = Mobius | Comobius | Average

  function DependenceTag(d: Dependence): string {
    match d
    case Independent => "independent"
    case Dependent => "dependent"
  }

  function RepresentationTag(r: Representation): string {
    match r
    case Mobius => "mobius"
    case Comobius => "comobius"
    case Average => "average"
  }

  /** Recognises a `feature_dependence` argument: exactly the tags of the two modes. */
  function ParseDependence(tag: string): (r: Option<Dependence>)
    ensures r.None? ==> forall d :: DependenceTag(d) != tag
    ensures r.Some? ==> DependenceTag(r.value) == tag
  {
    if tag == "independent" then Some(Independent)
    else if tag == "dependent" then Some(Dependent)
    else None
  }

  /** Recognises a `representation` argument: exactly the tags of the three modes. */
  function ParseRepresentation(tag: string): (r: Option<Representation>)
    ensures r.None? ==> forall m :: RepresentationTag(m) != tag
    ensures r.Some? ==> RepresentationTag(r.value) == tag
  {
    if tag == "mobius" then Some(Mobius)
    else if tag == "comobius" then Some(Comobius)
    else if tag == "average" then Some(Average)
    else None
  }

  lemma DependenceTagRoundTrip(d: Dependence)
    ensures ParseDependence(DependenceTag(d)) == Some(d)
  {
  }

  lemma RepresentationTagRoundTrip(m: Representation)
    ensures ParseRepresentation(RepresentationTag(m)) == Some(m)
  {
  }

  /** The three `ValueError`s raised by the constructor. */
  datatype ConfigError =
    | InsufficientBackground(available: nat, requested: int)
    | UnrecognizedDependence(tag: string)
    | UnrecognizedRepresentation(tag: string)

  /** A validated explainer: the model, the background data, the sample
      budget and the two modes, stored as given. */
  datatype Explainer = Explainer(
    model: Model,
    data: Matrix,
    nsamples: int,
    dependence: Dependence,
    representation: Representation)

  /** The constructor's checks, in the order `__init__` performs them. The
      advisory warning for dependent sampling has no effect on the result. */
  function NewExplainer(model: Model, data: Matrix, nsamples: int,
                        dependenceTag: string, representationTag: string): (r: Result<Explainer, ConfigError>)
    ensures r.Success? <==>
      && nsamples <= |data|
      && (dependenceTag == "independent" || dependenceTag == "dependent")
      && (representationTag == "mobius" || representationTag == "comobius" || representationTag == "average")
    ensures |data| < nsamples ==> r.Failure? && r.error == InsufficientBackground(|data|, nsamples)
    ensures nsamples <= |data| && dependenceTag != "independent" && dependenceTag != "dependent" ==>
      r.Failure? && r.error == UnrecognizedDependence(dependenceTag)
    ensures && nsamples <= |data|
            && (dependenceTag == "independent" || dependenceTag == "dependent")
            && representationTag != "mobius" && representationTag != "comobius" && representationTag != "average"
            ==> r.Failure? && r.error == UnrecognizedRepresentation(representationTag)
    ensures r.Success? ==>
      && r.value.model == model
      && r.value.data == data
      && r.value.nsamples == nsamples
      && DependenceTag(r.value.dependence) == dependenceTag
      && RepresentationTag(r.value.representation) == representationTag
  {
    if |data| < nsamples then
      Failure(InsufficientBackground(|data|, nsamples))
    else
      match ParseDependence(dependenceTag)
      case None => Failure(UnrecognizedDependence(dependenceTag))
      case Some(dependence) =>
        match ParseRepresentation(representationTag)
        case None => Failure(UnrecognizedRepresentation(representationTag))
        case Some(representation) =>
          Success(Explainer(model, data, nsamples, dependence, representation))
  }

  /** The defaults of the constructor's keyword arguments are accepted
      whenever the background data covers the budget. */
  lemma DefaultsAccepted(model: Model, data: Matrix, nsamples: int)
    requires nsamples <= |data|
    ensures NewExplainer(model, data, nsamples, "independent", "mobius").Success?
    ensures NewExplainer(model, data, nsamples, "independent", "mobius").value.dependence == Independent
    ensures NewExplainer(model, data, nsamples, "independent", "mobius").value.representation == Mobius
  {
  }
}
