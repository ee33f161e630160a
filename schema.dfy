// Sizes of the TPC-C population that several tables, the generators and the
// transactions share (Warehouse.DISTRICTS, District.CUSTOMERS, Item.ITEMS, ...).
module Schema {
  const NAMESPACE: string := "tpcc"

  const DISTRICTS: int := 10       // districts per warehouse
  const STOCKS: int := 100000      // stock rows per warehouse
  const CUSTOMERS: int := 3000     // customers per district
  const ORDERS: int := 3000        // initial orders per district
  const ITEMS: int := 100000       // rows of the item table
  const MIN_PER_ORDER: int := 5    // order lines per order
  const MAX_PER_ORDER: int := 15
}
