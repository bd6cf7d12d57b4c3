/** The records exchanged with the Cloudwise network ("vendor" records, as
    its API sends them) and the records the service keeps after parsing
    them (src/cloudwise/types/index.ts). Instants are milliseconds since the
    epoch; JavaScript numbers that are only copied are `real`. */
module CloudwiseTypes {

  import opened Wrappers

  type Millis = int

  /** A date string sent by the network, with the instant `new Date(text)`
      reads from it. The text decides JavaScript truthiness; the instant is
      what `Timestamp.fromDate` stores. */
  datatype RawDate = RawDate(text: string, millis: Millis)

  /** JavaScript truthiness of an optional string: present and non-empty. */
  predicate TruthyText(s: Option<string>)
  {
    s.Some? && s.value != ""
  }

  // ----- vendor records -----

  datatype VendorPrice = VendorPrice(kind: real, price: real, vat: real)

  datatype VendorTariffItem = VendorTariffItem(
    text: Option<string>,
    currency: string,
    prices: seq<VendorPrice>,
    from: RawDate,
    to: RawDate,
    daysOfWeek: seq<string>)

  datatype VendorTariffDetails = VendorTariffDetails(
    pricePerKwh: real,
    connectionFee: real,
    parkingFee: Option<real>,
    currency: string,
    items: seq<VendorTariffItem>)

  /** The price keys a plain `Connector` carries and an `OcpiConnector` lacks. */
  datatype VendorPricing = VendorPricing(
    pricePerKwh: real,
    connectionFee: real,
    parkingFee: real,
    details: VendorTariffDetails)

  /** A connector; `pricing` is present exactly when the record has a
      `TariffDetails` key. */
  datatype VendorConnector = VendorConnector(
    id: string,
    standard: string,
    format: string,
    powerType: string,
    maxVoltage: real,
    maxAmperage: real,
    maxElectricPower: real,
    lastUpdated: RawDate,
    tariffId: string,
    pricing: Option<VendorPricing>)

  /** An `Evse` or an `OcpiEvse`: `ocpiConnectors` is present exactly when
      the record has an `OcpiConnectors` key; `connectors` is `Connectors`. */
  datatype VendorEvse = VendorEvse(
    uid: string,
    status: string,
    floorLevel: Option<string>,
    physicalReference: Option<string>,
    lastUpdated: RawDate,
    ocpiConnectors: Option<seq<VendorConnector>>,
    connectors: seq<VendorConnector>)

  /** An `OcpiEvse`, whose connectors are under `OcpiConnectors`. */
  datatype VendorOcpiEvse = VendorOcpiEvse(
    uid: string,
    status: string,
    floorLevel: Option<string>,
    physicalReference: Option<string>,
    lastUpdated: RawDate,
    connectors: seq<VendorConnector>)

  datatype VendorLocation = VendorLocation(
    id: string,
    name: string,
    country: string,
    address: string,
    lat: real,
    lng: real,
    images: Option<string>)

  datatype VendorOcpiLocation = VendorOcpiLocation(
    location: VendorLocation,
    partyId: string,
    companyName: string,
    evses: seq<VendorOcpiEvse>)

  /** The answer of `getLocationDetails`. */
  datatype LocationDetails = LocationDetails(location: VendorLocation, evses: seq<VendorEvse>)

  /** A charge detail record as the network sends it. `creditsBalance` is
      absent when null or undefined. */
  datatype VendorCdr = VendorCdr(
    partyId: string,
    id: string,
    startDateTime: RawDate,
    endDateTime: RawDate,
    lastUpdated: RawDate,
    sessionId: string,
    currency: string,
    totalCost: real,
    totalCostWithVat: real,
    totalFixCost: real,
    totalFixCostWithVat: real,
    totalEnergy: real,
    totalTime: real,
    totalParkingTime: real,
    credit: real,
    creditsBalance: Option<real>,
    creditsExpirationDate: Option<RawDate>,
    homeCharging: bool,
    avgKwhPrice: real,
    duration: real)

  // ----- parsed records -----

  datatype Price = Price(kind: real, price: real, vat: real)

  datatype TariffItem = TariffItem(
    text: Option<string>,
    currency: string,
    prices: seq<Price>,
    from: Millis,
    to: Millis,
    daysOfWeek: seq<string>)

  datatype TariffDetails = TariffDetails(
    pricePerKwh: real,
    connectionFee: real,
    parkingFee: Option<real>,
    currency: string,
    items: seq<TariffItem>)

  /** The four optional keys `price_per_kwh`, `connection_fee`,
      `parking_fee` and `tariff_details`, which are set together or not at all. */
  datatype Pricing = Pricing(
    pricePerKwh: real,
    connectionFee: real,
    parkingFee: real,
    details: TariffDetails)

  datatype Connector = Connector(
    id: string,
    standard: string,
    format: string,
    powerType: string,
    maxVoltage: real,
    maxAmperage: real,
    maxElectricPower: real,
    lastUpdated: Millis,
    tariffId: string,
    pricing: Option<Pricing>)

  /** A charge point ("station" in the engine). */
  datatype Evse = Evse(
    uid: string,
    status: string,
    floorLevel: Option<string>,
    physicalReference: Option<string>,
    lastUpdated: Millis,
    connectors: seq<Connector>)

  /** `image` is present exactly when the key is set. */
  datatype LocationData = LocationData(
    name: string,
    id: string,
    country: string,
    address: string,
    lat: real,
    lng: real,
    image: Option<string>)

  datatype OcpiLocationData = OcpiLocationData(
    location: LocationData,
    companyName: string,
    partyId: string,
    stations: seq<Evse>)

  datatype Cdr = Cdr(
    id: string,
    partyId: string,
    startDateTime: Millis,
    endDateTime: Millis,
    lastUpdated: Millis,
    sessionId: string,
    currency: string,
    totalCost: real,
    totalCostWithVat: real,
    totalFixCost: real,
    totalFixCostWithVat: real,
    totalEnergy: real,
    totalTime: real,
    totalParkingTime: real,
    credit: real,
    creditsBalance: real,
    creditsExpirationDate: Option<Millis>,
    homeCharging: bool,
    avgKwhPrice: real,
    duration: real)

  /** A `cloudwise-cdrs` document: the parsed CDR whose `session_id` is
      the engine's session id, with the car and the write instant. The
      document id is the CDR id; the written document omits it, while
      `cdr.id` here still holds it. */
  datatype StoredCdr = StoredCdr(cdr: Cdr, carNumber: string, timestamp: Millis)
}
