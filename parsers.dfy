/** The vendor-to-internal record parsers (src/cloudwise/helpers/parsers.ts).
    Each is a total field mapping; optional keys are added only when the
    source record gives them. */
module Parsers {

  import opened Wrappers
  import opened CloudwiseTypes

  /** `parse_location`: the six base fields are copied and `image` is set
      exactly when `Images` is truthy. */
  function ParseLocation(v: VendorLocation): (r: LocationData)
    ensures r.name == v.name && r.id == v.id && r.country == v.country
    ensures r.address == v.address && r.lat == v.lat && r.lng == v.lng
    ensures r.image.Some? <==> TruthyText(v.images)
    ensures r.image.Some? ==> r.image == v.images
  {
    LocationData(v.name, v.id, v.country, v.address, v.lat, v.lng,
                 if TruthyText(v.images) then v.images else None)
  }

  /** `parse_ocpi_location`: the location's own fields, the company and
      party verbatim, and one parsed station per OCPI evse, in order. */
  function ParseOcpiLocation(v: VendorOcpiLocation): (r: OcpiLocationData)
    ensures r.location == ParseLocation(v.location)
    ensures r.companyName == v.companyName && r.partyId == v.partyId
    ensures |r.stations| == |v.evses|
    ensures forall i :: 0 <= i < |v.evses| ==> r.stations[i] == ParseOcpiEvse(v.evses[i])
  {
    OcpiLocationData(ParseLocation(v.location), v.companyName, v.partyId,
                     seq(|v.evses|, i requires 0 <= i < |v.evses| => ParseOcpiEvse(v.evses[i])))
  }

  /** The connectors `parse_eves` reads: `OcpiConnectors` when that key is
      present, `Connectors` otherwise. */
  function EvseConnectors(v: VendorEvse): seq<VendorConnector>
  {
    if v.ocpiConnectors.Some? then v.ocpiConnectors.value else v.connectors
  }

  /** `parse_eves`: uid, status, floor level and physical reference
      verbatim, the instant of `LastUpdated`, and one parsed connector per
      connector read, in order. */
  function ParseEvse(v: VendorEvse): (r: Evse)
    ensures r.uid == v.uid && r.status == v.status
    ensures r.floorLevel == v.floorLevel && r.physicalReference == v.physicalReference
    ensures r.lastUpdated == v.lastUpdated.millis
    ensures |r.connectors| == |EvseConnectors(v)|
    ensures forall i :: 0 <= i < |r.connectors| ==> r.connectors[i] == ParseConnector(EvseConnectors(v)[i])
  {
    var cs := EvseConnectors(v);
    Evse(v.uid, v.status, v.floorLevel, v.physicalReference, v.lastUpdated.millis,
         seq(|cs|, i requires 0 <= i < |cs| => ParseConnector(cs[i])))
  }

  /** `parse_ocpi_eves`: as `parse_eves`, reading `OcpiConnectors`. */
  function ParseOcpiEvse(v: VendorOcpiEvse): (r: Evse)
    ensures r.uid == v.uid && r.status == v.status
    ensures r.lastUpdated == v.lastUpdated.millis
    ensures |r.connectors| == |v.connectors|
    ensures forall i :: 0 <= i < |v.connectors| ==> r.connectors[i] == ParseConnector(v.connectors[i])
  {
    Evse(v.uid, v.status, v.floorLevel, v.physicalReference, v.lastUpdated.millis,
         seq(|v.connectors|, i requires 0 <= i < |v.connectors| => ParseConnector(v.connectors[i])))
  }

  /** An OCPI evse seen through the wider `Evse | OcpiEvse` type that
      `parse_eves` accepts: its connectors sit under `OcpiConnectors`. */
  function AsEvse(v: VendorOcpiEvse): VendorEvse
  {
    VendorEvse(v.uid, v.status, v.floorLevel, v.physicalReference, v.lastUpdated, Some(v.connectors), [])
  }

  /** On an OCPI evse the two evse parsers agree. */
  lemma ParseEvseAgreesOnOcpi(v: VendorOcpiEvse)
    ensures ParseEvse(AsEvse(v)) == ParseOcpiEvse(v)
  {
  }

  /** `parse_ocpi_connectors`: the nine base fields, and the four price
      fields exactly when the record has a `TariffDetails` key. */
  function ParseConnector(v: VendorConnector): (r: Connector)
    ensures r.id == v.id && r.standard == v.standard && r.format == v.format
    ensures r.powerType == v.powerType && r.maxVoltage == v.maxVoltage
    ensures r.maxAmperage == v.maxAmperage && r.maxElectricPower == v.maxElectricPower
    ensures r.lastUpdated == v.lastUpdated.millis && r.tariffId == v.tariffId
    ensures r.pricing.Some? <==> v.pricing.Some?
    ensures v.pricing.Some? ==>
      && r.pricing.value.pricePerKwh == v.pricing.value.pricePerKwh
      && r.pricing.value.connectionFee == v.pricing.value.connectionFee
      && r.pricing.value.parkingFee == v.pricing.value.parkingFee
      && r.pricing.value.details == ParseTariffDetails(v.pricing.value.details)
  {
    var pricing :=
      match v.pricing
      case None => None
      case Some(p) => Some(Pricing(p.pricePerKwh, p.connectionFee, p.parkingFee, ParseTariffDetails(p.details)));
    Connector(v.id, v.standard, v.format, v.powerType, v.maxVoltage, v.maxAmperage,
              v.maxElectricPower, v.lastUpdated.millis, v.tariffId, pricing)
  }

  /** `parse_tariff_details`: the three prices and the currency verbatim,
      and one parsed item per tariff item, in order. */
  function ParseTariffDetails(v: VendorTariffDetails): (r: TariffDetails)
    ensures r.pricePerKwh == v.pricePerKwh && r.connectionFee == v.connectionFee
    ensures r.parkingFee == v.parkingFee && r.currency == v.currency
    ensures |r.items| == |v.items|
    ensures forall i :: 0 <= i < |v.items| ==> r.items[i] == ParseTariffItem(v.items[i])
  {
    TariffDetails(v.pricePerKwh, v.connectionFee, v.parkingFee, v.currency,
                  seq(|v.items|, i requires 0 <= i < |v.items| => ParseTariffItem(v.items[i])))
  }

  /** `parse_tariff_item`: prices mapped element by element keeping type,
      price and vat, and the `From`/`To` dates as instants. */
  function ParseTariffItem(v: VendorTariffItem): (r: TariffItem)
    ensures r.text == v.text && r.currency == v.currency && r.daysOfWeek == v.daysOfWeek
    ensures r.from == v.from.millis && r.to == v.to.millis
    ensures |r.prices| == |v.prices|
    ensures forall i :: 0 <= i < |v.prices| ==>
      r.prices[i] == Price(v.prices[i].kind, v.prices[i].price, v.prices[i].vat)
  {
    TariffItem(v.text, v.currency,
               seq(|v.prices|, i requires 0 <= i < |v.prices| => Price(v.prices[i].kind, v.prices[i].price, v.prices[i].vat)),
               v.from.millis, v.to.millis, v.daysOfWeek)
  }

  /** `parse_cdr`: identifiers, costs, energy and times verbatim; the
      balance defaults to 0 when null or undefined; the expiry date is null
      unless the source value is truthy. */
  function ParseCdr(v: VendorCdr): (r: Cdr)
    ensures r.id == v.id && r.sessionId == v.sessionId && r.partyId == v.partyId
    ensures r.currency == v.currency
    ensures r.totalCost == v.totalCost && r.totalCostWithVat == v.totalCostWithVat
    ensures r.totalFixCost == v.totalFixCost && r.totalFixCostWithVat == v.totalFixCostWithVat
    ensures r.totalEnergy == v.totalEnergy && r.totalTime == v.totalTime
    ensures r.totalParkingTime == v.totalParkingTime && r.credit == v.credit
    ensures r.homeCharging == v.homeCharging && r.avgKwhPrice == v.avgKwhPrice && r.duration == v.duration
    ensures r.startDateTime == v.startDateTime.millis && r.endDateTime == v.endDateTime.millis
    ensures r.lastUpdated == v.lastUpdated.millis
    ensures r.creditsBalance == v.creditsBalance.GetOr(0.0)
    ensures v.creditsBalance.None? ==> r.creditsBalance == 0.0
    ensures r.creditsExpirationDate.Some? <==> v.creditsExpirationDate.Some? && v.creditsExpirationDate.value.text != ""
    ensures r.creditsExpirationDate.Some? ==> r.creditsExpirationDate.value == v.creditsExpirationDate.value.millis
  {
    var expiry :=
      match v.creditsExpirationDate
      case Some(d) => if d.text != "" then Some(d.millis) else None
      case None => None;
    Cdr(v.id, v.partyId, v.startDateTime.millis, v.endDateTime.millis, v.lastUpdated.millis,
        v.sessionId, v.currency, v.totalCost, v.totalCostWithVat, v.totalFixCost,
        v.totalFixCostWithVat, v.totalEnergy, v.totalTime, v.totalParkingTime, v.credit,
        v.creditsBalance.GetOr(0.0), expiry, v.homeCharging, v.avgKwhPrice, v.duration)
  }
}
