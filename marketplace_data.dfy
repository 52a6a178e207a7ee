/** The static marketplace catalog of `src/assets/marketplacedata.js`:
    eight read-only task records, loaded once and never changed. */
module MarketplaceData {

  /** One marketplace entry. The rating is kept as an exact decimal. */
  datatype Item = Item(
    id: nat,
    title: string,
    description: string,
    category: string,
    robotType: string,
    compatibility: seq<string>,
    environment: string,
    downloads: nat,
    rating: real,
    author: string,
    image: string,
    tags: seq<string>)

  const BottleSorterPro: Item := Item(
    id := 1,
    title := "Bottle Sorter Pro",
    description := "Sorts plastic bottles by color and material type with 98.5% accuracy",
    category := "sorting",
    robotType := "arm",
    compatibility := ["Universal Robots", "Kuka", "ABB"],
    environment := "Production Line",
    downloads := 1843,
    rating := 4.7,
    author := "RoboSolutions Inc.",
    image := "bottle-sorter",
    tags := ["recycling", "sorting", "sustainable"])

  const PrecisionObjectPickup: Item := Item(
    id := 2,
    title := "Precision Object Pickup",
    description := "Detects and picks up fragile items with adaptive grip pressure",
    category := "manipulation",
    robotType := "arm",
    compatibility := ["Universal Robots", "Franka Emika", "Doosan"],
    environment := "Warehouse",
    downloads := 2156,
    rating := 4.9,
    author := "GripTech",
    image := "precision-pickup",
    tags := ["fragile", "precise", "handling"])

  const AutonomousFloorCleaner: Item := Item(
    id := 3,
    title := "Autonomous Floor Cleaner",
    description := "Navigation and cleaning optimization for commercial spaces",
    category := "cleaning",
    robotType := "mobile",
    compatibility := ["TurtleBot", "iRobot Create", "Neato"],
    environment := "Office Buildings",
    downloads := 1267,
    rating := 4.5,
    author := "CleanPathAI",
    image := "floor-cleaner",
    tags := ["cleaning", "navigation", "autonomous"])

  const SmartShelfStocker: Item := Item(
    id := 4,
    title := "Smart Shelf Stocker",
    description := "Identifies empty shelf space and places products in optimal positions",
    category := "retail",
    robotType := "arm",
    compatibility := ["Universal Robots", "Kinova", "Franka Emika"],
    environment := "Retail Store",
    downloads := 876,
    rating := 4.3,
    author := "RetailBots",
    image := "shelf-stocker",
    tags := ["retail", "inventory", "organization"])

  const DelicatePlantWaterer: Item := Item(
    id := 5,
    title := "Delicate Plant Waterer",
    description := "Monitors soil moisture and waters plants with precision",
    category := "gardening",
    robotType := "mobile",
    compatibility := ["TurtleBot", "Husqvarna", "Custom"],
    environment := "Greenhouse",
    downloads := 932,
    rating := 4.6,
    author := "AgroTech Solutions",
    image := "plant-waterer",
    tags := ["gardening", "precision", "monitoring"])

  const KitchenHelper: Item := Item(
    id := 6,
    title := "Kitchen Helper",
    description := "Assists with basic food prep tasks and kitchen organization",
    category := "household",
    robotType := "arm",
    compatibility := ["Universal Robots", "Franka Emika", "Stretch"],
    environment := "Kitchen",
    downloads := 1578,
    rating := 4.4,
    author := "HomeBot Inc.",
    image := "kitchen-helper",
    tags := ["food", "kitchen", "household"])

  const PackageSorter: Item := Item(
    id := 7,
    title := "Package Sorter",
    description := "Scans and sorts packages by size, weight and destination",
    category := "logistics",
    robotType := "arm",
    compatibility := ["Universal Robots", "Kuka", "ABB"],
    environment := "Distribution Center",
    downloads := 2043,
    rating := 4.8,
    author := "LogistiTech",
    image := "package-sorter",
    tags := ["logistics", "sorting", "distribution"])

  const ToolOrganizer: Item := Item(
    id := 8,
    title := "Tool Organizer",
    description := "Identifies tools and returns them to proper storage locations",
    category := "organization",
    robotType := "arm",
    compatibility := ["Universal Robots", "Doosan", "Stretch"],
    environment := "Workshop",
    downloads := 723,
    rating := 4.2,
    author := "ShopSmart Solutions",
    image := "tool-organizer",
    tags := ["tools", "organization", "workshop"])

  /** The catalog literal, in source order. */
  function Catalog(): seq<Item> {
    [BottleSorterPro, PrecisionObjectPickup, AutonomousFloorCleaner, SmartShelfStocker,
     DelicatePlantWaterer, KitchenHelper, PackageSorter, ToolOrganizer]
  }

  /** The catalog has eight entries, numbered 1 to 8 in order, each with
      three tags and three compatible platforms. */
  lemma CatalogShape()
    ensures |Catalog()| == 8
    ensures forall i :: 0 <= i < |Catalog()| ==> Catalog()[i].id == i + 1
    ensures forall i :: 0 <= i < |Catalog()| ==>
      |Catalog()[i].tags| == 3 && |Catalog()[i].compatibility| == 3
  {
  }

  /** Ids identify entries: no two entries share one. */
  lemma CatalogIdsDistinct()
    ensures forall i, j :: 0 <= i < j < |Catalog()| ==> Catalog()[i].id != Catalog()[j].id
  {
    CatalogShape();
  }
}
