/** The grant record every adapter produces and every later step consumes,
    and the table of Spanish autonomous communities the aggregator hands to
    its adapters. */
module Records {
  import opened Common

  /** One grant, as the dictionaries the adapters build. `identifier` is
      `None` when the record has no `identifier` key (the BOE adapter never
      sets one). */
  datatype Grant = Grant(
    title: string,
    description: string,
    sector: string,
    location: string,
    region: string,
    companyType: string,
    amount: string,
    deadline: string,
    publicationDate: string,
    source: string,
    link: string,
    relevanceScore: int,
    identifier: Option<string>)

  const BoeSource: string := "BOE - Boletín Oficial del Estado"
  const CdtiSource: string := "CDTI - Centro para el Desarrollo Tecnológico Industrial"

  /** The autonomous communities and the lower-case words that identify each,
      in the order the dictionary lists them. */
  const SpanishRegions: seq<Entry> := [
    Entry("Andalucía", ["andalucia", "sevilla", "córdoba", "granada", "málaga", "cádiz", "huelva", "jaén", "almería"]),
    Entry("Cataluña", ["cataluña", "catalunya", "barcelona", "girona", "lleida", "tarragona"]),
    Entry("Madrid", ["madrid", "comunidad de madrid"]),
    Entry("Valencia", ["valencia", "castellón", "alicante", "comunidad valenciana"]),
    Entry("Galicia", ["galicia", "coruña", "lugo", "ourense", "pontevedra"]),
    Entry("País Vasco", ["país vasco", "euskadi", "bilbao", "vitoria", "san sebastián"]),
    Entry("Aragón", ["aragón", "zaragoza", "huesca", "teruel"]),
    Entry("Asturias", ["asturias", "oviedo"]),
    Entry("Cantabria", ["cantabria", "santander"]),
    Entry("Castilla-La Mancha", ["castilla la mancha", "toledo", "ciudad real", "albacete", "cuenca", "guadalajara"]),
    Entry("Castilla y León", ["castilla y león", "valladolid", "salamanca", "león", "burgos", "zamora", "palencia", "ávila", "segovia", "soria"]),
    Entry("Extremadura", ["extremadura", "badajoz", "cáceres"]),
    Entry("Islas Baleares", ["baleares", "mallorca", "menorca", "ibiza", "formentera"]),
    Entry("Canarias", ["canarias", "las palmas", "santa cruz de tenerife", "tenerife", "gran canaria"]),
    Entry("La Rioja", ["la rioja", "logroño"]),
    Entry("Murcia", ["murcia", "región de murcia", "cartagena"]),
    Entry("Navarra", ["navarra", "pamplona"]),
    Entry("Ceuta", ["ceuta"]),
    Entry("Melilla", ["melilla"])
  ]
}
