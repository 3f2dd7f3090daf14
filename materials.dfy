/** The table of thermal diffusivities, in mm²/s, keyed by material name. */
module Materials {
  import opened Basics

  const DIFFUSIVITY: map<string, real> := map[
    "Acier" := 22.8,
    "Aluminium" := 98.8,
    "Argent" := 172.0,
    "Calcium" := 123.0,
    "Cuivre" := 117.0,
    "Diamant" := 306.0,
    "Eau liquide" := 0.144,
    "Eau solide" := 0.541,
    "Fer" := 20.4,
    "Gold" := 129.0,
    "Nickel" := 22.3,
    "Or" := 129.0,
    "Plomb" := 23.3,
    "Tin" := 37.0,
    "Tungstène" := 76.1,
    "Verre" := 0.543,
    "Zinc" := 40.2
  ]

  /** Every diffusivity in the table is positive. */
  lemma DiffusivitiesPositive()
    ensures forall m :: m in DIFFUSIVITY ==> DIFFUSIVITY[m] > 0.0
  {
  }

  /** The dictionary lookup: a missing key is the error the source raises. */
  function Lookup(name: string): (d: Result<real>)
    ensures d.Ok? <==> name in DIFFUSIVITY
    ensures d.Err? ==> d.error == UnknownMaterial
    ensures d.Ok? ==> d.value == DIFFUSIVITY[name] && d.value > 0.0
  {
    DiffusivitiesPositive();
    if name in DIFFUSIVITY then Ok(DIFFUSIVITY[name]) else Err(UnknownMaterial)
  }
}
