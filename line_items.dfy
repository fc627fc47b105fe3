/** The line items an order carries: `{id, name, quantity, price}`, the shape
    the customer page sends and the server stores unchanged. Prices are the
    menu's whole rupee amounts. */
module LineItems {

  datatype LineItem = LineItem(id: string, name: string, quantity: int, price: int)

  /** The sum of price × quantity over a list of line items. */
  function ItemsTotal(items: seq<LineItem>): int {
    if items == [] then 0
    else items[0].price * items[0].quantity + ItemsTotal(items[1..])
  }
}
