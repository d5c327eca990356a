/** The pure parts of the size-guide form: the checks `handleSubmit` runs
    before it calls the calculator, and the choice of guide image. */
module SizeForm {
  import opened Wrappers
  import opened SizeTables
  import opened SizeCalculator

  /** The three messages the form can show instead of a result. */
  datatype InputError = MissingBirthYear | InvalidBirthYear | ImplausibleBody

  function Message(e: InputError): (m: string)
    ensures m != []
  {
    match e
    case MissingBirthYear => "Selecciona tu año de nacimiento."
    case InvalidBirthYear => "El año de nacimiento no es valido."
    case ImplausibleBody => "Revisa altura y peso. Usa valores reales (ejemplo: 175 cm / 72 kg)."
  }

  /** Each failure is reported with its own text. */
  lemma MessagesDistinct(e1: InputError, e2: InputError)
    requires Message(e1) == Message(e2)
    ensures e1 == e2
  {
  }

  /** The form's numeric inputs after `Number(...)`: `None` stands for an empty
      field or NaN, `Some(x)` for the number read. */
  type NumberInput = Option<real>

  /** An age, in years, that the form accepts. */
  predicate AgeAccepted(age: real) {
    12.0 <= age <= 80.0
  }

  /** Height (cm) and weight (kg) the form accepts, including the JavaScript
      falsiness test that rejects zero and NaN. */
  predicate BodyAccepted(height: NumberInput, weight: NumberInput) {
    && height.Some? && weight.Some?
    && height.value != 0.0 && weight.value != 0.0
    && 130.0 <= height.value <= 220.0
    && 35.0 <= weight.value <= 200.0
  }

  /** The first failing check, in the order the form runs them; `None` when
      every check passes. */
  function Validate(birthYear: NumberInput, currentYear: int, height: NumberInput, weight: NumberInput): (r: Option<InputError>)
    ensures r == Some(MissingBirthYear) <==> birthYear.None?
    ensures r == Some(InvalidBirthYear) <==>
              birthYear.Some? && !AgeAccepted(currentYear as real - birthYear.value)
    ensures r == Some(ImplausibleBody) <==>
              birthYear.Some? && AgeAccepted(currentYear as real - birthYear.value) && !BodyAccepted(height, weight)
    ensures r == None <==>
              birthYear.Some? && AgeAccepted(currentYear as real - birthYear.value) && BodyAccepted(height, weight)
  {
    if birthYear.None? then Some(MissingBirthYear)
    else
      var computedAge := currentYear as real - birthYear.value;
      if computedAge < 12.0 || computedAge > 80.0 then Some(InvalidBirthYear)
      else if height.None? || weight.None? || height.value == 0.0 || weight.value == 0.0
              || height.value < 130.0 || height.value > 220.0
              || weight.value < 35.0 || weight.value > 200.0 then Some(ImplausibleBody)
      else None
  }

  /** The zero tests add nothing: the range tests already exclude zero. */
  lemma BodyAcceptedIsRangeCheck(height: NumberInput, weight: NumberInput)
    ensures BodyAccepted(height, weight) <==>
              height.Some? && weight.Some? && 130.0 <= height.value <= 220.0 && 35.0 <= weight.value <= 200.0
  {
  }

  /** The submit handler without its timers: validate, then compute. The
      calculator is only reached with a height of at least 130 cm. */
  function Submit(birthYear: NumberInput, currentYear: int, height: NumberInput, weight: NumberInput,
                  fit: Fit, category: Category, cut: Cut): (r: Result<SizeResult, InputError>)
    ensures r.Err? <==> Validate(birthYear, currentYear, height, weight).Some?
    ensures r.Err? ==> Some(r.error) == Validate(birthYear, currentYear, height, weight)
    ensures r.Ok? ==> BodyAccepted(height, weight)
                      && r.value == ComputeSize(height.value, weight.value, fit, category, cut)
  {
    match Validate(birthYear, currentYear, height, weight)
    case Some(e) => Err(e)
    case None => Ok(ComputeSize(height.value, weight.value, fit, category, cut))
  }

  /** A guide image: its title and the path of the picture. */
  datatype Guide = Guide(title: string, src: string)

  /** The guides of a category: always a regular one, a slim one for some. */
  datatype GuideEntry = GuideEntry(regular: Guide, slim: Option<Guide>)

  function GuideImages(category: Category): (entry: GuideEntry)
    ensures entry.slim.Some? <==> HasCut(category)
  {
    match category
    case Pantalones => GuideEntry(Guide("Pantalon regular fit", "/guides/pantalon-regular.png"),
                                  Some(Guide("Pantalon slim fit", "/guides/pantalon-slim.png")))
    case Camisas => GuideEntry(Guide("Camisa regular fit", "/guides/camisa-regular.png"),
                               Some(Guide("Camisa slim fit", "/guides/camisa-slim.png")))
    case Sudaderas => GuideEntry(Guide("Sudadera capucha", "/guides/sudadera-capucha.png"), None)
    case Polos => GuideEntry(Guide("Polo manga corta", "/guides/polo-manga-corta.png"), None)
    case Jerseys => GuideEntry(Guide("Jersey", "/guides/jersey.png"), None)
    case Camisetas => GuideEntry(Guide("Camiseta regular fit", "/guides/camiseta-regular.png"), None)
  }

  /** The guide for a category and cut: the slim one when the cut is slim and
      the category has one, the regular one otherwise. */
  function GuideInfo(category: Category, cut: Cut): (g: Guide)
    ensures cut == Slim && HasCut(category) ==> g == GuideImages(category).slim.value
    ensures !(cut == Slim && HasCut(category)) ==> g == GuideImages(category).regular
    ensures g != GuideImages(category).regular <==> cut == Slim && HasCut(category)
  {
    var guide := GuideImages(category);
    if cut == Slim && guide.slim.Some? then guide.slim.value else guide.regular
  }
}
