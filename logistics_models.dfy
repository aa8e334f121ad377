/** The logistics app's tables: drivers, vehicles and shipments. */
module LogisticsModels {
  import opened Common
  import opened SalesModels

  datatype Driver = Driver(name: string, phone: string, licenseNo: string, licenseType: string)

  /** Vehicle.VEHICLE_TYPE_CHOICES. */
  datatype VehicleType = Truck | Van | Pickup

  datatype Vehicle = Vehicle(plateNo: string, vehicleType: VehicleType, model: string, capacity: Option<real>)

  /** Shipment.STATUS_CHOICES; the column default is Pending. */
  datatype ShipmentStatus = Pending | Loading | Shipped | Delivered

  /** A Shipment row; `notice` and `order` are its foreign keys, timestamps
      are passed-in clock readings. */
  datatype Shipment = Shipment(
    notice: nat, order: nat, driver: Option<nat>, vehicle: Option<nat>, freightCost: real,
    status: ShipmentStatus, shippedAt: Option<int>, deliveredAt: Option<int>,
    receiverName: string, receiverPhone: string, deliveryRemark: string)

  class LogisticsBook {
    var drivers: seq<Driver>
    var vehicles: seq<Vehicle>
    var shipments: seq<Shipment>

    /** Driver.license_no and Vehicle.plate_no are unique; a shipment's
        driver and vehicle exist. */
    ghost predicate Valid()
      reads this
    {
      && (forall i, j :: 0 <= i < j < |drivers| ==> drivers[i].licenseNo != drivers[j].licenseNo)
      && (forall i, j :: 0 <= i < j < |vehicles| ==> vehicles[i].plateNo != vehicles[j].plateNo)
      && (forall k :: 0 <= k < |shipments| ==>
            (shipments[k].driver.Some? ==> shipments[k].driver.value < |drivers|)
            && (shipments[k].vehicle.Some? ==> shipments[k].vehicle.value < |vehicles|))
    }

    /** Each shipment's notice exists and the shipment's order is the
        notice's order, as shipment_create copies it. */
    ghost predicate LinkedTo(sales: SalesBook)
      reads this, sales
    {
      forall k :: 0 <= k < |shipments| ==>
        shipments[k].notice < |sales.notices| && sales.notices[shipments[k].notice].order == shipments[k].order
    }

    constructor (drivers: seq<Driver>, vehicles: seq<Vehicle>)
      ensures this.drivers == drivers && this.vehicles == vehicles && shipments == []
    {
      this.drivers, this.vehicles, shipments := drivers, vehicles, [];
    }
  }
}
