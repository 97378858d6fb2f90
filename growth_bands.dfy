/** The banded height-for-age screen of the first page script: a table of
    normal height bands at 12, 24, 36, 48 and 60 months, the classifier
    that places a child below, above or inside the band for its age, the
    feeding guide chosen from the classifier's message, and the reference
    series the comparison chart draws. */
module GrowthBands {
  import opened Wrappers
  import opened Text
  import opened Series

  /** A normal height range `[min, max]` in centimetres. */
  datatype Band = Band(min: real, max: real)

  /** The status tag the classifier returns beside its message
      ("bajo", "alto", "normal"); `None` marks an age outside the table. */
  datatype Growth = Bajo | Alto | Normal

  /** `tallas_referencia`: the band for each tabulated age in months. */
  function TallasReferencia(): (t: map<int, Band>)
    ensures t.Keys == {12, 24, 36, 48, 60}
    ensures forall a :: a in t ==> t[a].min < t[a].max
  {
    map[12 := Band(70.0, 78.0),
        24 := Band(80.0, 88.0),
        36 := Band(88.0, 96.0),
        48 := Band(95.0, 103.0),
        60 := Band(100.0, 110.0)]
  }

  // The classifier's messages. The long ones are written in pieces (at
  // points inside words where needed) so that facts about their characters
  // can be established piece by piece; the text is unchanged.

  const OutOfRangeMessage: string :=
    "Fuera del rango de edad " + "analizado (1-5 años)."

  const BajoMessage: string :=
    "El niño o niña presenta **" + "desnutrición crónica" + "**. Su estatura está "
    + "significativa" + "mente por debajo de lo nor" + "mal para su edad. 😥"

  const AltoMessage: string :=
    "El niño o niña presenta un cre" + "cimiento supe" + "rior al pro" + "medio pa"
    + "ra su edad. Se reco" + "mienda seguimiento médico. 😊"

  const NormalMessage: string :=
    "El niño o niña presenta un " + "crecimiento normal" + " para su edad. Sigue así. 🎉"

  /** The message paired with each status. */
  function MessageFor(status: Option<Growth>): string {
    match status
    case None => OutOfRangeMessage
    case Some(Bajo) => BajoMessage
    case Some(Alto) => AltoMessage
    case Some(Normal) => NormalMessage
  }

  /** `clasificar_nino(edad_meses, estatura_cm)`: an age missing from the
      table gives the out-of-range message and no status; otherwise the
      height is compared with the band by strict comparisons, so both band
      edges are normal, and exactly one status applies. */
  function ClasificarNino(edadMeses: int, estaturaCm: real): (r: (string, Option<Growth>))
    ensures r.1.None? <==> edadMeses !in TallasReferencia()
    ensures r.0 == MessageFor(r.1)
    ensures edadMeses in TallasReferencia() ==>
      var band := TallasReferencia()[edadMeses];
      && (r.1 == Some(Bajo) <==> estaturaCm < band.min)
      && (r.1 == Some(Alto) <==> estaturaCm > band.max)
      && (r.1 == Some(Normal) <==> band.min <= estaturaCm <= band.max)
  {
    var tallas := TallasReferencia();
    if edadMeses !in tallas then
      (OutOfRangeMessage, None)
    else
      var band := tallas[edadMeses];
      if estaturaCm < band.min then
        (BajoMessage, Some(Bajo))
      else if estaturaCm > band.max then
        (AltoMessage, Some(Alto))
      else
        (NormalMessage, Some(Normal))
  }

  /** The keys `generar_recomendaciones` looks for in the message. */
  const MalnutritionKey: string := "desnutrición crónica"
  const NormalGrowthKey: string := "crecimiento normal"

  const MicronutrientGuide: string :=
    "\n"
    + "        **Guía de Alimentación Personalizada:**\n"
    + "        - **Énfasis en micronutrientes:** Incluir alimentos ricos en hierro y zinc (lentejas, carne, espinacas).\n"
    + "        - **Aumentar la densidad calórica:** Añadir aceites saludables a las comidas para aumentar las calorías sin aumentar el volumen.\n"
    + "        - **Proteínas de calidad:** Incorporar huevos, lácteos y legumbres en cada comida principal.\n"
    + "        - **Frecuencia:** Ofrecer 5 a 6 comidas pequeñas y nutritivas a lo largo del día.\n"
    + "        "

  const HealthyGrowthGuide: string :=
    "\n"
    + "        **Guía de Alimentación para Crecimiento Saludable:**\n"
    + "        - **Dieta balanceada:** Continuar con una dieta que incluya frutas, verduras, granos enteros y proteínas magras.\n"
    + "        - **Hábitos saludables:** Fomentar el consumo de agua y limitar los alimentos procesados y azúcares.\n"
    + "        - **Variedad:** Introducir nuevos alimentos de forma gradual para asegurar una ingesta variada de nutrientes.\n"
    + "        "

  const GeneralGuide: string :=
    "\n"
    + "        **Recomendaciones Generales:**\n"
    + "        - Consultar a un pediatra para una evaluación completa.\n"
    + "        - Asegurar una dieta balanceada y variada.\n"
    + "        "

  /** `generar_recomendaciones(edad_meses, peso_kg, estatura_cm,
      resultado_clasificacion)`: the first key found in the message picks
      the guide; a message with neither key gets the general guide. The
      measurements are accepted and ignored (Python does not check their
      types, so they are all taken as numbers here). */
  function GenerarRecomendaciones(edadMeses: real, pesoKg: real, estaturaCm: real,
                                  resultado: string): (r: string)
    ensures r == MicronutrientGuide || r == HealthyGrowthGuide || r == GeneralGuide
  {
    if Contains(resultado, MalnutritionKey) then MicronutrientGuide
    else if Contains(resultado, NormalGrowthKey) then HealthyGrowthGuide
    else GeneralGuide
  }

  /** The guide each status is meant to receive. */
  function GuideFor(status: Option<Growth>): string {
    match status
    case Some(Bajo) => MicronutrientGuide
    case Some(Normal) => HealthyGrowthGuide
    case _ => GeneralGuide
  }

  /** Which keys each classifier message contains: only the "bajo" message
      has the malnutrition key and only the "normal" message has the
      normal-growth key. */
  lemma MessageKeys(status: Option<Growth>)
    ensures Contains(MessageFor(status), MalnutritionKey) <==> status == Some(Bajo)
    ensures Contains(MessageFor(status), NormalGrowthKey) <==> status == Some(Normal)
  {
    match status
    case None => OutOfRangeLacksKeys();
    case Some(Bajo) => BajoHasMalnutritionKey(); BajoLacksNormalGrowthKey();
    case Some(Alto) => AltoLacksMalnutritionKey(); AltoLacksNormalGrowthKey();
    case Some(Normal) => NormalLacksMalnutritionKey(); NormalHasNormalGrowthKey();
  }

  /** The out-of-range message has no "ó" and no "c", so neither key. */
  lemma OutOfRangeLacksKeys()
    ensures !Contains(OutOfRangeMessage, MalnutritionKey)
    ensures !Contains(OutOfRangeMessage, NormalGrowthKey)
  {
    MissingCharExcludes(OutOfRangeMessage, MalnutritionKey, 'ó');
    MissingCharExcludes(OutOfRangeMessage, NormalGrowthKey, 'c');
  }

  /** The "alto" message has no "ó", so no "desnutrición crónica". */
  lemma AltoLacksMalnutritionKey()
    ensures !Contains(AltoMessage, MalnutritionKey)
  {
    MissingCharExcludes(AltoMessage, MalnutritionKey, 'ó');
  }

  /** The "normal" message has no "ó", so no "desnutrición crónica". */
  lemma NormalLacksMalnutritionKey()
    ensures !Contains(NormalMessage, MalnutritionKey)
  {
    MissingCharExcludes(NormalMessage, MalnutritionKey, 'ó');
  }

  /** The "bajo" message contains "desnutrición crónica". */
  lemma BajoHasMalnutritionKey()
    ensures Contains(BajoMessage, MalnutritionKey)
  {
    var p1 := "El niño o niña presenta **" + MalnutritionKey;
    var p2 := p1 + "**. Su estatura está ";
    var p3 := p2 + "significativa";
    var p4 := p3 + "mente por debajo de lo nor";
    ContainsSuffix("El niño o niña presenta **", MalnutritionKey);
    ContainsExtended(p1, MalnutritionKey, "**. Su estatura está ");
    ContainsExtended(p2, MalnutritionKey, "significativa");
    ContainsExtended(p3, MalnutritionKey, "mente por debajo de lo nor");
    ContainsExtended(p4, MalnutritionKey, "mal para su edad. 😥");
  }

  /** The "normal" message contains "crecimiento normal". */
  lemma NormalHasNormalGrowthKey()
    ensures Contains(NormalMessage, NormalGrowthKey)
  {
    ContainsSuffix("El niño o niña presenta un ", NormalGrowthKey);
    ContainsExtended("El niño o niña presenta un " + NormalGrowthKey, NormalGrowthKey,
      " para su edad. Sigue así. 🎉");
  }

  /** The "alto" message says "crecimiento superior", never
      "crecimiento normal": it has no "r" directly followed by "m", which
      "normal" has. Its pieces each lack an "r" or an "m", and no piece ends
      in "r". */
  lemma AltoLacksNormalGrowthKey()
    ensures !Contains(AltoMessage, NormalGrowthKey)
  {
    var rm := "rm";
    var head := "El niño o niña presenta un cre" + "cimiento supe" + "rior al pro";
    var p4, p5, p6 := "medio pa", "ra su edad. Se reco", "mienda seguimiento médico. 😊";
    AltoHeadLacksRm();
    PairMissingSide(p4, rm);
    PairAcrossAppend(head, p4, rm);
    PairMissingSide(p5, rm);
    PairAcrossAppend(head + p4, p5, rm);
    PairMissingSide(p6, rm);
    PairAcrossAppend(head + p4 + p5, p6, rm);
    NormalGrowthKeyPairs();
    PieceMissingExcludes(AltoMessage, NormalGrowthKey, rm);
  }

  /** "crecimiento normal" contains "im" and "rm". */
  lemma NormalGrowthKeyPairs()
    ensures Contains(NormalGrowthKey, "im") && Contains(NormalGrowthKey, "rm")
  {
    var k := NormalGrowthKey;
    assert k[4..6] == "im";
    assert OccursAt(k, "im", 4);
    assert k[14..16] == "rm";
    assert OccursAt(k, "rm", 14);
  }

  /** The first three pieces of the "alto" message have no "rm". */
  lemma AltoHeadLacksRm()
    ensures !Contains("El niño o niña presenta un cre" + "cimiento supe" + "rior al pro", "rm")
  {
    var rm := "rm";
    var p1, p2, p3 := "El niño o niña presenta un cre", "cimiento supe", "rior al pro";
    PairMissingSide(p1, rm);
    PairMissingSide(p2, rm);
    PairAcrossAppend(p1, p2, rm);
    PairMissingSide(p3, rm);
    PairAcrossAppend(p1 + p2, p3, rm);
  }

  /** The "bajo" message is matched by the malnutrition key before the
      normal-growth key is looked at; it does not contain the latter either,
      since it has no "i" directly followed by "m", which "crecimiento" has. */
  lemma BajoLacksNormalGrowthKey()
    ensures !Contains(BajoMessage, NormalGrowthKey)
  {
    var im := "im";
    var head := "El niño o niña presenta **" + "desnutrición crónica" + "**. Su estatura está ";
    var p4, p5, p6 := "significativa", "mente por debajo de lo nor", "mal para su edad. 😥";
    BajoHeadLacksIm();
    PairMissingSide(p4, im);
    PairAcrossAppend(head, p4, im);
    PairMissingSide(p5, im);
    PairAcrossAppend(head + p4, p5, im);
    PairMissingSide(p6, im);
    PairAcrossAppend(head + p4 + p5, p6, im);
    NormalGrowthKeyPairs();
    PieceMissingExcludes(BajoMessage, NormalGrowthKey, im);
  }

  /** The first three pieces of the "bajo" message have no "im". */
  lemma BajoHeadLacksIm()
    ensures !Contains("El niño o niña presenta **" + "desnutrición crónica" + "**. Su estatura está ", "im")
  {
    var im := "im";
    var p1, p2, p3 := "El niño o niña presenta **", "desnutrición crónica", "**. Su estatura está ";
    PairMissingSide(p1, im);
    PairMissingSide(p2, im);
    PairAcrossAppend(p1, p2, im);
    PairMissingSide(p3, im);
    PairAcrossAppend(p1 + p2, p3, im);
  }

  /** The guide follows the status: the "bajo" message gets the
      micronutrient guide, the "normal" message the healthy-growth guide,
      and the "alto" and out-of-range messages the general guide, whatever
      measurements are passed beside the message. */
  lemma RecommendationFollowsStatus(status: Option<Growth>, edadMeses: real, pesoKg: real, estaturaCm: real)
    ensures GenerarRecomendaciones(edadMeses, pesoKg, estaturaCm, MessageFor(status)) == GuideFor(status)
  {
    match status
    case None => OutOfRangeLacksKeys();
    case Some(Bajo) => BajoHasMalnutritionKey();
    case Some(Alto) => AltoLacksMalnutritionKey(); AltoLacksNormalGrowthKey();
    case Some(Normal) => NormalLacksMalnutritionKey(); NormalHasNormalGrowthKey();
  }

  /** What pressing "Analizar" stores in the session: the classification,
      the guide and the child's data with its status. */
  datatype ChildData = ChildData(edad: int, peso: real, estatura: real, estado: Option<Growth>)
  datatype Analysis = Analysis(resultado: (string, Option<Growth>), recomendaciones: string,
                               datosNino: ChildData)

  /** The "Analizar" handler. It calls `generar_recomendaciones` with the
      weight and the age in swapped positions; that function ignores both,
      so the guide is still the one the status calls for. */
  function Analizar(edad: int, peso: real, estatura: real): (r: Analysis)
    ensures r.resultado == ClasificarNino(edad, estatura)
    ensures r.recomendaciones == GuideFor(r.resultado.1)
    ensures r.datosNino == ChildData(edad, peso, estatura, r.resultado.1)
  {
    var resultado := ClasificarNino(edad, estatura);
    RecommendationFollowsStatus(resultado.1, peso, edad as real, estatura);
    var recomendaciones := GenerarRecomendaciones(peso, edad as real, estatura, resultado.0);
    Analysis(resultado, recomendaciones, ChildData(edad, peso, estatura, resultado.1))
  }

  // The comparison chart's reference series.

  /** `edad_ref = np.arange(12, 61, 12)`. */
  function EdadRef(): seq<int> {
    Arange(12, 61, 12)
  }

  /** `talla_min_ref` and `talla_max_ref`. */
  function TallaMinRef(): seq<real> {
    [70.0, 80.0, 88.0, 95.0, 100.0]
  }

  function TallaMaxRef(): seq<real> {
    [78.0, 88.0, 96.0, 103.0, 110.0]
  }

  /** The element-wise mean `(lo + hi) / 2` of two series of one length:
      halfway between its two inputs at every point. */
  function Midpoints(lo: seq<real>, hi: seq<real>): (r: seq<real>)
    requires |lo| == |hi|
    ensures |r| == |lo|
    ensures forall i :: 0 <= i < |r| ==> r[i] - lo[i] == hi[i] - r[i]
  {
    seq(|lo|, i requires 0 <= i < |lo| => (lo[i] + hi[i]) / 2.0)
  }

  /** `talla_media_ref`. */
  function TallaMediaRef(): seq<real> {
    Midpoints(TallaMinRef(), TallaMaxRef())
  }

  /** The chart draws the classifier's table: its ages are exactly the
      table's keys, 12 to 60 in steps of 12, and at each of the five points
      the band is the table's band for that age, with the midpoint strictly
      inside it. */
  lemma ChartMatchesTable()
    ensures EdadRef() == [12, 24, 36, 48, 60]
    ensures |TallaMinRef()| == |TallaMaxRef()| == |TallaMediaRef()| == |EdadRef()|
    ensures forall a :: a in TallasReferencia() <==> a in EdadRef()
    ensures forall i :: 0 <= i < |EdadRef()| ==>
      TallasReferencia()[EdadRef()[i]] == Band(TallaMinRef()[i], TallaMaxRef()[i])
    ensures forall i :: 0 <= i < |TallaMediaRef()| ==>
      TallaMinRef()[i] < TallaMediaRef()[i] < TallaMaxRef()[i]
  {
    EdadRefValues();
  }

  /** `np.arange(12, 61, 12)` is [12, 24, 36, 48, 60]. */
  lemma EdadRefValues()
    ensures EdadRef() == [12, 24, 36, 48, 60]
  {
    ArangeLength(12, 61, 12, 5);
    var e := EdadRef();
    assert e[0] == 12 && e[1] == 24 && e[2] == 36 && e[3] == 48 && e[4] == 60;
  }
}
