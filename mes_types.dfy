/**
 * The shared vocabulary of the MES ontology platform: industries, the five
 * function categories, the standard MES functions, and the data profile a
 * data set is summarised into.
 */
module MesTypes {

  datatype Industry = Automotive | Electronics | Semiconductor | Pharmaceutical | FoodBeverage

  /** The display value of each industry. */
  function IndustryName(i: Industry): string {
    match i
    case Automotive => "Automotive"
    case Electronics => "Electronics"
    case Semiconductor => "Semiconductor"
    case Pharmaceutical => "Pharmaceutical"
    case FoodBeverage => "Food & Beverage"
  }

  datatype Category = Production | Quality | Maintenance | Inventory | Tracking

  /** The display value of each category. */
  function CategoryName(c: Category): string {
    match c
    case Production => "Production"
    case Quality => "Quality"
    case Maintenance => "Maintenance"
    case Inventory => "Inventory"
    case Tracking => "Tracking"
  }

  /** A standard MES function (its free-text descriptions are not modelled). */
  datatype MesFunction = MesFunction(id: string, category: Category, name: string, standard: string)

  /** The six functions of the built-in MES ontology. */
  const MesOntology: seq<MesFunction> := [
    MesFunction("F001", Tracking, "Real-time Work-in-Progress (WIP) Tracking", "ISA-95"),
    MesFunction("F002", Quality, "Statistical Process Control (SPC)", "ISO 9001"),
    MesFunction("F003", Maintenance, "Predictive Maintenance (PdM)", "ISA-95"),
    MesFunction("F004", Production, "Dynamic Scheduling", "ISA-95"),
    MesFunction("F005", Inventory, "Automated Traceability", "GS1"),
    MesFunction("F006", Quality, "Non-Conformance Management", "ISO 9001")
  ]

  /**
   * Summary of a data set. Record and missing-value counts are whole numbers
   * everywhere a profile is produced, so they are integers here.
   */
  datatype DataProfile = DataProfile(
    features: seq<string>,
    recordsCount: int,
    noiseLevel: real,
    seasonality: bool,
    missingValues: int,
    dataTypes: map<string, string>)
}
